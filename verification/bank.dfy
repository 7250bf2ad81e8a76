/** The in-memory bank driver `FakeBankPlugin`: a dict from full key paths
    to stored values. The driver is modelled as an immutable map and every
    driver call as a pure function returning the new map. */
module FakeBank {
  import opened Results
  import opened Values
  import PyText

  type Bank = map<string, Value>

  /** A freshly constructed driver holds no objects. */
  const Empty: Bank := map[]

  /** `create_object`: an unconditional write. */
  function CreateObject(b: Bank, key: string, value: Value): (r: Bank)
    ensures key in r && r[key] == value
    ensures r.Keys == b.Keys + {key}
    ensures forall k :: k in b && k != key ==> r[k] == b[k]
  {
    b[key := value]
  }

  /** `update_object`: also an unconditional write. It does not require the
      key to exist, so it is the same upsert as `create_object`. */
  function UpdateObject(b: Bank, key: string, value: Value): (r: Bank)
    ensures r == CreateObject(b, key, value)
  {
    b[key := value]
  }

  /** `get_object`: the stored value, or a failure when the key is absent or
      holds `None` (the driver cannot tell the two apart). */
  function GetObject(b: Bank, key: string): (r: Result<Value>)
    ensures r.Success? <==> key in b && !IsNone(b[key])
    ensures r.Success? ==> r.value == b[key]
    ensures r.Failure? ==> r.error == ObjectNotFound(key)
  {
    if key in b && !b[key].Null? then Success(b[key]) else Failure(ObjectNotFound(key))
  }

  /** The filter `list_objects` applies: no prefix admits every key, otherwise
      `key.find(prefix) == 0`. */
  predicate Admits(prefix: Option<string>, key: string) {
    prefix.None? || PyText.Find(key, prefix.value) == 0
  }

  /** The filter of `list_objects` is exactly a prefix test. */
  lemma AdmitsIffPrefix(prefix: Option<string>, key: string)
    ensures Admits(prefix, key) <==> prefix.None? || prefix.value <= key
  {
    if prefix.Some? {
      PyText.FindZeroIffPrefix(key, prefix.value);
    }
  }

  /** The set of keys `list_objects(prefix)` reports. */
  function Listing(b: Bank, prefix: Option<string>): (r: set<string>)
    ensures forall k :: k in r <==> k in b && (prefix.None? || prefix.value <= k)
  {
    forall k | k in b ensures Admits(prefix, k) <==> prefix.None? || prefix.value <= k {
      AdmitsIffPrefix(prefix, k);
    }
    set k | k in b && Admits(prefix, k)
  }

  /** `list_objects`: walks the stored keys and keeps those the prefix
      admits. `limit`, `marker` and `sort_dir` are accepted and ignored by the
      driver, so they are not parameters here. */
  method ListObjects(b: Bank, prefix: Option<string>) returns (names: seq<string>)
    ensures forall k :: k in names <==> k in b && (prefix.None? || prefix.value <= k)
    ensures forall i, j :: 0 <= i < j < |names| ==> names[i] != names[j]
  {
    names := [];
    var rest := b.Keys;
    while rest != {}
      invariant rest <= b.Keys
      invariant forall k :: k in names <==> k in b.Keys - rest && Admits(prefix, k)
      invariant forall i, j :: 0 <= i < j < |names| ==> names[i] != names[j]
      decreases rest
    {
      var k :| k in rest;
      if Admits(prefix, k) {
        names := names + [k];
      }
      rest := rest - {k};
    }
    forall k | k in b ensures Admits(prefix, k) <==> prefix.None? || prefix.value <= k {
      AdmitsIffPrefix(prefix, k);
    }
  }

  /** `delete_object`: `dict.pop` without a default, so a missing key raises. */
  function DeleteObject(b: Bank, key: string): (r: Result<Bank>)
    ensures r.Success? <==> key in b
    ensures r.Success? ==> r.value.Keys == b.Keys - {key}
    ensures r.Success? ==> forall k :: k in r.value ==> r.value[k] == b[k]
    ensures r.Failure? ==> r.error == KeyError(key)
  {
    if key in b then Success(b - {key}) else Failure(KeyError(key))
  }

  /** Read-after-write: a value written by create or update is what the next
      get returns, unless it is `None`, which reads back as missing. */
  lemma ReadAfterWrite(b: Bank, key: string, value: Value)
    ensures GetObject(CreateObject(b, key, value), key)
            == (if IsNone(value) then Failure(ObjectNotFound(key)) else Success(value))
    ensures GetObject(UpdateObject(b, key, value), key)
            == GetObject(CreateObject(b, key, value), key)
  {
  }

  /** A write to one key leaves every other key's read unchanged. */
  lemma WriteFrame(b: Bank, key: string, value: Value, other: string)
    requires other != key
    ensures GetObject(UpdateObject(b, key, value), other) == GetObject(b, other)
  {
  }

  /** Storing `None` under a key is indistinguishable, for `get_object`, from
      the key being absent. */
  lemma NoneReadsAsAbsent(b: Bank, key: string)
    ensures GetObject(CreateObject(b, key, Null), key) == GetObject(b - {key}, key)
    ensures GetObject(b - {key}, key).Failure?
  {
  }

  /** A write adds exactly the written key to the listings whose prefix it
      matches and changes no other listing. */
  lemma ListingAfterWrite(b: Bank, key: string, value: Value, prefix: Option<string>)
    ensures Listing(UpdateObject(b, key, value), prefix)
            == Listing(b, prefix) + (if prefix.None? || prefix.value <= key then {key} else {})
  {
  }

  /** After a successful delete the key reads as missing, is listed under no
      prefix, and a second delete of it fails. */
  lemma DeleteRemovesExactly(b: Bank, key: string, prefix: Option<string>)
    requires key in b
    ensures GetObject(DeleteObject(b, key).value, key) == Failure(ObjectNotFound(key))
    ensures Listing(DeleteObject(b, key).value, prefix) == Listing(b, prefix) - {key}
    ensures DeleteObject(DeleteObject(b, key).value, key) == Failure(KeyError(key))
  {
  }

  /** A freshly constructed driver reads every key as missing, lists
      nothing under any prefix, and fails every delete. */
  lemma FreshBankHoldsNothing(key: string, prefix: Option<string>)
    ensures GetObject(Empty, key) == Failure(ObjectNotFound(key))
    ensures Listing(Empty, prefix) == {}
    ensures DeleteObject(Empty, key) == Failure(KeyError(key))
  {
  }
}
