/** The stack-status synchronisation of a restore: one tick of
    `SyncStackStatusTask._sync_status` as a pure function, and the polling
    loop as the sequence of ticks it runs until a tick stops it. */
module StackSync {
  import opened Results
  import opened Values

  const CreateInProgress := "CREATE_IN_PROGRESS"
  const CreateFailed := "CREATE_FAILED"
  const CreateComplete := "CREATE_COMPLETE"

  /** The terminal restore states a tick can record. */
  datatype RestoreStatus = Succeeded | Failed

  /** The operation execution state names stored in the restore record. */
  function StatusName(s: RestoreStatus): (name: string)
    ensures name == "success" <==> s == Succeeded
    ensures name == "failed" <==> s == Failed
  {
    match s
    case Succeeded => "success"
    case Failed => "failed"
  }

  /** What one fetch of the stack yields: its `stack_status`, or an exception
      from the orchestration service. */
  datatype Observation = Observed(stackStatus: string) | FetchRaised

  /** How a tick ends: polling goes on, the loop is finished with a recorded
      status, or the tick raised and the loop stops. */
  datatype Tick = Continue | Done(status: RestoreStatus) | Stopped(error: Error)

  /** The restore record: its fields and how many times it has been saved. */
  datatype RestoreRecord = RestoreRecord(fields: map<string, Value>, saves: nat)

  datatype TickStep = TickStep(tick: Tick, restore: RestoreRecord)

  /** The record after `update({"status": name})` and `save()`. */
  function Recorded(restore: RestoreRecord, s: RestoreStatus): (r: RestoreRecord)
    ensures r.fields.Keys == restore.fields.Keys + {"status"}
    ensures r.fields["status"] == Str(StatusName(s))
    ensures forall k :: k in restore.fields && k != "status" ==> r.fields[k] == restore.fields[k]
    ensures r.saves == restore.saves + 1
  {
    RestoreRecord(restore.fields["status" := Str(StatusName(s))], restore.saves + 1)
  }

  /** One tick. In progress: nothing changes and polling continues. Failed or
      complete: the status is recorded, the record saved, and the loop is
      done. Any other status leaves the local `status` unbound, so the tick
      raises before touching the record; so does a failed fetch. */
  function SyncTick(obs: Observation, restore: RestoreRecord): (r: TickStep)
    ensures r.tick.Continue? <==> obs == Observed(CreateInProgress)
    ensures r.tick == Done(Failed) <==> obs == Observed(CreateFailed)
    ensures r.tick == Done(Succeeded) <==> obs == Observed(CreateComplete)
    ensures r.tick.Done? ==> r.restore == Recorded(restore, r.tick.status)
    ensures !r.tick.Done? ==> r.restore == restore
    ensures obs.FetchRaised? ==> r.tick == Stopped(FetchFailed)
    ensures (obs.Observed? && obs.stackStatus !in {CreateInProgress, CreateFailed, CreateComplete})
              ==> r.tick == Stopped(UnboundStatus(obs.stackStatus))
  {
    match obs
    case FetchRaised => TickStep(Stopped(FetchFailed), restore)
    case Observed(stackStatus) =>
      if stackStatus == CreateInProgress then TickStep(Continue, restore)
      else if stackStatus == CreateFailed then TickStep(Done(Failed), Recorded(restore, Failed))
      else if stackStatus == CreateComplete then TickStep(Done(Succeeded), Recorded(restore, Succeeded))
      else TickStep(Stopped(UnboundStatus(stackStatus)), restore)
  }

  /** A tick that sees the stack failed records "failed" and saves once. */
  lemma CreateFailedRecordsFailed(restore: RestoreRecord)
    ensures SyncTick(Observed(CreateFailed), restore).restore.fields
            == restore.fields["status" := Str("failed")]
    ensures SyncTick(Observed(CreateFailed), restore).restore.saves == restore.saves + 1
  {
  }

  /** A polling run: how many ticks ran, how the last one ended (`Continue`
      when the observations ran out while polling), and the final record. */
  datatype PollRun = PollRun(ticks: nat, last: Tick, restore: RestoreRecord)

  /** The looping call: tick on each observation in turn until a tick does not
      ask to continue. */
  function Poll(obs: seq<Observation>, restore: RestoreRecord): (r: PollRun)
    ensures r.ticks <= |obs|
    ensures !r.last.Continue? ==> 1 <= r.ticks && r.last == SyncTick(obs[r.ticks - 1], restore).tick
    decreases |obs|
  {
    if |obs| == 0 then PollRun(0, Continue, restore)
    else
      var step := SyncTick(obs[0], restore);
      if step.tick.Continue? then
        var rest := Poll(obs[1..], step.restore);
        PollRun(rest.ticks + 1, rest.last, rest.restore)
      else PollRun(1, step.tick, step.restore)
  }

  /** The loop stops at the first observation that is not "in progress":
      every earlier tick saw the stack in progress, and a loop still polling
      has consumed every observation. */
  lemma {:induction false} PollStopsAtFirstSettled(obs: seq<Observation>, restore: RestoreRecord)
    ensures var r := Poll(obs, restore);
            && (forall i :: 0 <= i < r.ticks && (i < r.ticks - 1 || r.last.Continue?)
                  ==> obs[i] == Observed(CreateInProgress))
            && (r.last.Continue? ==> r.ticks == |obs|)
            && (!r.last.Continue? ==> 1 <= r.ticks && obs[r.ticks - 1] != Observed(CreateInProgress))
    decreases |obs|
  {
    if |obs| > 0 && SyncTick(obs[0], restore).tick.Continue? {
      PollStopsAtFirstSettled(obs[1..], SyncTick(obs[0], restore).restore);
    }
  }

  /** Across a whole run the record is updated and saved at most once, and
      only by the tick that ends the loop with a status; a run that stops on
      an error or is still polling leaves the record as it was. */
  lemma {:induction false} PollRecordsAtMostOnce(obs: seq<Observation>, restore: RestoreRecord)
    ensures var r := Poll(obs, restore);
            && r.restore.saves <= restore.saves + 1
            && (r.last.Done? ==> r.restore == Recorded(restore, r.last.status))
            && (!r.last.Done? ==> r.restore == restore)
    decreases |obs|
  {
    if |obs| > 0 && SyncTick(obs[0], restore).tick.Continue? {
      PollRecordsAtMostOnce(obs[1..], restore);
    }
  }

  /** A stack going from in progress to complete across two polls records
      success once and stops; later observations are never looked at. */
  lemma InProgressThenComplete(restore: RestoreRecord, later: seq<Observation>)
    ensures var r := Poll([Observed(CreateInProgress), Observed(CreateComplete)] + later, restore);
            && r.ticks == 2
            && r.last == Done(Succeeded)
            && r.restore.fields == restore.fields["status" := Str("success")]
            && r.restore.saves == restore.saves + 1
  {
    var obs := [Observed(CreateInProgress), Observed(CreateComplete)] + later;
    assert obs[1..] == [Observed(CreateComplete)] + later;
  }
}
