/** Bank sections: every key written through a section is the section's
    prefix, a "/", and the relative key. A checkpoint names the section of
    each resource `"/resource_data/<checkpoint id>/<resource id>"`; the
    prefix itself carries no trailing "/", the separator is added when a key
    is composed. */
module BankSections {
  import opened Results
  import opened Values
  import opened FakeBank

  /** A path segment: an identifier with no "/" in it. Checkpoint and resource
      ids must be segments for sections to be isolated from each other. */
  predicate IsSegment(id: string) {
    '/' !in id
  }

  /** `Checkpoint.get_resource_bank_section(resource_id)`'s prefix. */
  function ResourceSectionPrefix(checkpointId: string, resourceId: string): string {
    "/resource_data/" + checkpointId + "/" + resourceId
  }

  /** The bank key a section uses for a relative key. */
  function SectionKey(prefix: string, key: string): string {
    prefix + "/" + key
  }

  /** The bank key of `key` in the section of resource `resourceId`. */
  function ResourceKey(checkpointId: string, resourceId: string, key: string): string {
    SectionKey(ResourceSectionPrefix(checkpointId, resourceId), key)
  }

  function SectionUpdate(b: Bank, prefix: string, key: string, value: Value): (r: Bank)
    ensures GetObject(r, SectionKey(prefix, key))
            == (if IsNone(value) then Failure(ObjectNotFound(SectionKey(prefix, key))) else Success(value))
    ensures forall k :: k != SectionKey(prefix, key) ==> GetObject(r, k) == GetObject(b, k)
    ensures r.Keys == b.Keys + {SectionKey(prefix, key)}
    ensures forall k :: k in b && k != SectionKey(prefix, key) ==> r[k] == b[k]
  {
    UpdateObject(b, SectionKey(prefix, key), value)
  }

  function SectionGet(b: Bank, prefix: string, key: string): (r: Result<Value>)
    ensures r.Success? <==> SectionKey(prefix, key) in b && !IsNone(b[SectionKey(prefix, key)])
    ensures r.Success? ==> r.value == b[SectionKey(prefix, key)]
  {
    GetObject(b, SectionKey(prefix, key))
  }

  function SectionDelete(b: Bank, prefix: string, key: string): (r: Result<Bank>)
    ensures r.Success? <==> SectionKey(prefix, key) in b
    ensures r.Success? ==> r.value.Keys == b.Keys - {SectionKey(prefix, key)}
    ensures r.Success? ==> forall k :: k in r.value ==> r.value[k] == b[k]
  {
    DeleteObject(b, SectionKey(prefix, key))
  }

  /** Splitting a composed key at its first "/" recovers the prefix. */
  lemma {:induction false} JoinInjective(a1: string, b1: string, a2: string, b2: string)
    requires IsSegment(a1) && IsSegment(a2)
    requires a1 + "/" + b1 == a2 + "/" + b2
    ensures a1 == a2 && b1 == b2
  {
    var s := a1 + "/" + b1;
    // the first "/" of `s` sits right after each of the two prefixes
    assert s[|a1|] == '/' && forall i :: 0 <= i < |a1| ==> s[i] == a1[i];
    assert s[|a2|] == '/' && forall i :: 0 <= i < |a2| ==> s[i] == a2[i];
    assert |a1| == |a2|;
    assert a1 == s[..|a1|] == a2;
    assert b1 == s[|a1| + 1..] == b2;
  }

  /** A key that starts with `a + "/"` is `a + "/"` followed by its rest. */
  lemma SplitAfter(a: string, s: string)
    requires a + "/" <= s
    ensures s == a + "/" + s[|a| + 1..]
  {
    assert s == s[..|a| + 1] + s[|a| + 1..];
  }

  /** Resource keys are unambiguous: when checkpoint and resource ids are
      segments, a bank key determines the checkpoint, the resource and the
      relative key it was composed from. */
  lemma ResourceKeyInjective(cp1: string, r1: string, k1: string,
                             cp2: string, r2: string, k2: string)
    requires IsSegment(cp1) && IsSegment(cp2) && IsSegment(r1) && IsSegment(r2)
    requires ResourceKey(cp1, r1, k1) == ResourceKey(cp2, r2, k2)
    ensures cp1 == cp2 && r1 == r2 && k1 == k2
  {
    var root := "/resource_data/";
    assert ResourceKey(cp1, r1, k1) == root + (cp1 + "/" + (r1 + "/" + k1));
    assert ResourceKey(cp2, r2, k2) == root + (cp2 + "/" + (r2 + "/" + k2));
    var x1, x2 := cp1 + "/" + (r1 + "/" + k1), cp2 + "/" + (r2 + "/" + k2);
    assert x1 == (root + x1)[|root|..];
    assert x2 == (root + x2)[|root|..];
    JoinInjective(cp1, r1 + "/" + k1, cp2, r2 + "/" + k2);
    JoinInjective(r1, k1, r2, k2);
  }

  /** The keys a section lists, relative to the section: those whose bank key
      starts with the section prefix, a "/" and `sub`, with the prefix and
      separator stripped. */
  function SectionList(b: Bank, prefix: string, sub: string): (r: set<string>)
    ensures forall k :: k in r <==> SectionKey(prefix, k) in b && sub <= k
  {
    var full := SectionKey(prefix, sub);
    forall k | k in b && full <= k ensures SectionKey(prefix, k[|prefix| + 1..]) == k {
      assert prefix + "/" <= k;
      SplitAfter(prefix, k);
    }
    forall rel | SectionKey(prefix, rel) in b && sub <= rel
      ensures full <= SectionKey(prefix, rel) && SectionKey(prefix, rel)[|prefix| + 1..] == rel
    {
      assert SectionKey(prefix, rel) == (prefix + "/") + rel;
    }
    set k | k in b && full <= k :: k[|prefix| + 1..]
  }

  /** Section isolation for reads: writing through one resource's section
      never changes what another resource's section reads. */
  lemma WriteIsolation(b: Bank, cp: string, r1: string, r2: string,
                       k1: string, k2: string, value: Value)
    requires IsSegment(cp) && IsSegment(r1) && IsSegment(r2) && r1 != r2
    ensures SectionGet(SectionUpdate(b, ResourceSectionPrefix(cp, r1), k1, value),
                       ResourceSectionPrefix(cp, r2), k2)
            == SectionGet(b, ResourceSectionPrefix(cp, r2), k2)
  {
    if ResourceKey(cp, r1, k1) == ResourceKey(cp, r2, k2) {
      ResourceKeyInjective(cp, r1, k1, cp, r2, k2);
    }
  }

  /** Section isolation for listings: writing through one resource's section
      never changes another resource's section listing. */
  lemma ListIsolation(b: Bank, cp: string, r1: string, r2: string,
                      k1: string, sub: string, value: Value)
    requires IsSegment(cp) && IsSegment(r1) && IsSegment(r2) && r1 != r2
    ensures SectionList(SectionUpdate(b, ResourceSectionPrefix(cp, r1), k1, value),
                        ResourceSectionPrefix(cp, r2), sub)
            == SectionList(b, ResourceSectionPrefix(cp, r2), sub)
  {
    var b' := SectionUpdate(b, ResourceSectionPrefix(cp, r1), k1, value);
    forall k ensures ResourceKey(cp, r2, k) == SectionKey(ResourceSectionPrefix(cp, r2), k) {
    }
    forall k ensures ResourceKey(cp, r2, k) in b' <==> ResourceKey(cp, r2, k) in b {
      if ResourceKey(cp, r2, k) == ResourceKey(cp, r1, k1) {
        ResourceKeyInjective(cp, r2, k, cp, r1, k1);
      }
    }
  }

  /** A checkpoint-wide listing: under `"/resource_data/<cp>/"` no key of
      another checkpoint's resources appears. */
  lemma CheckpointListingIsolation(cp1: string, cp2: string, rid: string, key: string)
    requires IsSegment(cp1) && IsSegment(cp2) && cp1 != cp2
    ensures !("/resource_data/" + cp1 + "/" <= ResourceKey(cp2, rid, key))
  {
    var root := "/resource_data/";
    var full := ResourceKey(cp2, rid, key);
    var tail := rid + "/" + key;
    assert full == root + (cp2 + "/" + tail);
    if root + cp1 + "/" <= full {
      var rest := full[|root|..];
      assert rest == cp2 + "/" + tail;
      assert cp1 + "/" <= rest;
      SplitAfter(cp1, rest);
      JoinInjective(cp1, rest[|cp1| + 1..], cp2, tail);
      assert false;
    }
  }

  /** The raw section prefix has no trailing "/": the prefix of resource
      "vm1" is a string prefix of every key of resource "vm10", so a bank
      listing by the raw prefix sees the other resource's keys, while the
      section's own listing does not. */
  lemma RawPrefixLeaks()
    ensures var b := map[ResourceKey("checkpoint_id", "vm10", "status") := Str("protecting")];
            && Listing(b, Some(ResourceSectionPrefix("checkpoint_id", "vm1")))
               == {ResourceKey("checkpoint_id", "vm10", "status")}
            && SectionList(b, ResourceSectionPrefix("checkpoint_id", "vm1"), "") == {}
  {
    var b := map[ResourceKey("checkpoint_id", "vm10", "status") := Str("protecting")];
    assert ResourceSectionPrefix("checkpoint_id", "vm1") <= ResourceKey("checkpoint_id", "vm10", "status");
    forall k | k in SectionList(b, ResourceSectionPrefix("checkpoint_id", "vm1"), "") ensures false {
      ResourceKeyInjective("checkpoint_id", "vm1", k, "checkpoint_id", "vm10", "status");
    }
  }

  /** Isolation needs segment ids: with a "/" inside a resource id two
      different resources compose the same bank key. */
  lemma SlashInIdCollides()
    ensures ResourceKey("checkpoint_id", "a", "b/c") == ResourceKey("checkpoint_id", "a/b", "c")
  {
  }
}
