/** The construction of a restore flow by `get_flow`: which credentials the
    orchestration client is built with, and the linear task list whose
    data dependencies the flow engine resolves. */
module RestoreFlow {
  import opened Results
  import opened Values

  // ---------------------------------------------------------------------
  // Credential selection

  /** The restore names a target: `restore.get('restore_target', None)` is
      not `None`. */
  predicate HasTarget(restore: map<string, Value>) {
    "restore_target" in restore && !IsNone(restore["restore_target"])
  }

  /** The restore auth is present and its `type` is "password". */
  predicate PasswordAuth(restoreAuth: Option<map<string, Value>>) {
    restoreAuth.Some? && "type" in restoreAuth.value && restoreAuth.value["type"] == Str("password")
  }

  /** The keyword arguments the orchestration client is created with. No
      target: none, so the caller's own login is used. A target: its URL and
      a username and password, which are taken from a password-type restore
      auth (whose missing fields raise `KeyError`) and are `None` otherwise. */
  function ClientKwargs(restore: map<string, Value>, restoreAuth: Option<map<string, Value>>)
    : (r: Result<map<string, Value>>)
    ensures !HasTarget(restore) ==> r == Success(map[])
    ensures r.Failure? <==>
              HasTarget(restore) && PasswordAuth(restoreAuth)
              && !("username" in restoreAuth.value && "password" in restoreAuth.value)
    ensures r.Failure? ==>
              r.error == KeyError(if "username" in restoreAuth.value then "password" else "username")
    ensures r.Success? && HasTarget(restore) ==>
              && r.value.Keys == {"auth_url", "username", "password"}
              && r.value["auth_url"] == restore["restore_target"]
    ensures r.Success? && HasTarget(restore) && PasswordAuth(restoreAuth) ==>
              && r.value["username"] == restoreAuth.value["username"]
              && r.value["password"] == restoreAuth.value["password"]
    ensures r.Success? && HasTarget(restore) && !PasswordAuth(restoreAuth) ==>
              r.value["username"] == Null && r.value["password"] == Null
  {
    if !HasTarget(restore) then Success(map[])
    else
      var target := restore["restore_target"];
      if PasswordAuth(restoreAuth) then
        var auth := restoreAuth.value;
        if "username" !in auth then Failure(KeyError("username"))
        else if "password" !in auth then Failure(KeyError("password"))
        else Success(map["auth_url" := target, "username" := auth["username"], "password" := auth["password"]])
      else Success(map["auth_url" := target, "username" := Null, "password" := Null])
  }

  /** Credentials reach the client only from a password-type restore auth,
      and only together with a target. */
  lemma CredentialsOnlyFromPasswordAuth(restore: map<string, Value>,
                                        restoreAuth: Option<map<string, Value>>)
    requires ClientKwargs(restore, restoreAuth).Success?
    ensures var kw := ClientKwargs(restore, restoreAuth).value;
            && (kw == map[] <==> !HasTarget(restore))
            && ("username" in kw && !IsNone(kw["username"]) ==> HasTarget(restore) && PasswordAuth(restoreAuth))
            && ("password" in kw && !IsNone(kw["password"]) ==> HasTarget(restore) && PasswordAuth(restoreAuth))
  {
    if HasTarget(restore) {
      assert "auth_url" in ClientKwargs(restore, restoreAuth).value;
    }
  }

  // ---------------------------------------------------------------------
  // Tasks and the linear flow

  /** A task with the names it provides to and requires from the flow's
      store. */
  datatype Task = Task(name: string, provided: set<string>, required: set<string>)

  const StackId := "stack_id"

  /** Submits the stack and provides its id. */
  function CreateStackTask(): (t: Task)
    ensures t.provided == {StackId} && t.required == {}
  {
    Task("CreateStackTask", {StackId}, {})
  }

  /** Polls the stack whose id it requires. */
  function SyncStackStatusTask(): (t: Task)
    ensures t.required == {StackId} && t.provided == {}
  {
    Task("SyncStackStatusTask", {}, {StackId})
  }

  /** The name a created stack gets from a freshly generated uuid. */
  function StackName(uuid: string): (name: string)
    ensures "restore_" <= name && name[|"restore_"|..] == uuid
  {
    "restore_" + uuid
  }

  /** Stack names carry the "restore_" prefix and are as distinct as the
      uuids they are made from. */
  lemma StackNamesDistinct(uuid1: string, uuid2: string)
    ensures "restore_" <= StackName(uuid1)
    ensures StackName(uuid1) == StackName(uuid2) ==> uuid1 == uuid2
  {
    if StackName(uuid1) == StackName(uuid2) {
      assert uuid1 == StackName(uuid1)[|"restore_"|..];
      assert uuid2 == StackName(uuid2)[|"restore_"|..];
    }
  }

  /** A linear flow: its name and its tasks in execution order. */
  datatype Flow = Flow(name: string, tasks: seq<Task>)

  /** The restoration flow of `get_flow`: the provider's resource tasks, then
      stack creation, then status synchronisation. */
  function RestorationFlow(checkpointId: string, resourceTasks: seq<Task>): (f: Flow)
    ensures "create_restoration_" <= f.name && f.name[|"create_restoration_"|..] == checkpointId
    ensures |f.tasks| == |resourceTasks| + 2
    ensures f.tasks[..|resourceTasks|] == resourceTasks
  {
    Flow("create_restoration_" + checkpointId,
         resourceTasks + [CreateStackTask(), SyncStackStatusTask()])
  }

  /** Flow names identify the checkpoint they restore. */
  lemma FlowNameIdentifiesCheckpoint(cp1: string, cp2: string, tasks1: seq<Task>, tasks2: seq<Task>)
    ensures "create_restoration_" <= RestorationFlow(cp1, tasks1).name
    ensures RestorationFlow(cp1, tasks1).name == RestorationFlow(cp2, tasks2).name ==> cp1 == cp2
  {
    var n1 := RestorationFlow(cp1, tasks1).name;
    var n2 := RestorationFlow(cp2, tasks2).name;
    if n1 == n2 {
      assert cp1 == n1[|"create_restoration_"|..];
      assert cp2 == n2[|"create_restoration_"|..];
    }
  }

  /** The names provided by the tasks before position `i`. */
  function ProvidedBefore(tasks: seq<Task>, i: nat): set<string>
    requires i <= |tasks|
  {
    if i == 0 then {} else ProvidedBefore(tasks, i - 1) + tasks[i - 1].provided
  }

  /** A name is provided before position `i` exactly when some earlier task
      provides it. */
  lemma {:induction false} ProvidedBeforeIff(tasks: seq<Task>, i: nat, x: string)
    requires i <= |tasks|
    ensures x in ProvidedBefore(tasks, i) <==> exists j :: 0 <= j < i && x in tasks[j].provided
  {
    if i > 0 {
      ProvidedBeforeIff(tasks, i - 1, x);
    }
  }

  /** Every requirement of every task is a flow input or provided by an
      earlier task. */
  predicate Satisfied(tasks: seq<Task>, inputs: set<string>) {
    forall i :: 0 <= i < |tasks| ==> tasks[i].required <= inputs + ProvidedBefore(tasks, i)
  }

  /** Walks a linear flow as the engine would, collecting what each task
      provides, and reports a requirement no earlier task or input meets. */
  method CheckRequirements(tasks: seq<Task>, inputs: set<string>) returns (missing: Option<string>)
    ensures missing.None? <==> Satisfied(tasks, inputs)
    ensures missing.Some? ==> exists i :: 0 <= i < |tasks| && missing.value in tasks[i].required
                                          && missing.value !in inputs + ProvidedBefore(tasks, i)
  {
    var available := inputs;
    var i := 0;
    while i < |tasks|
      invariant i <= |tasks|
      invariant available == inputs + ProvidedBefore(tasks, i)
      invariant forall j :: 0 <= j < i ==> tasks[j].required <= inputs + ProvidedBefore(tasks, j)
    {
      if !(tasks[i].required <= available) {
        var name :| name in tasks[i].required && name !in available;
        assert name !in inputs + ProvidedBefore(tasks, i);
        return Some(name);
      }
      available := available + tasks[i].provided;
      i := i + 1;
    }
    return None;
  }

  /** Appending stack creation and status synchronisation keeps a flow's
      requirements met: the resource tasks are untouched, and the `stack_id`
      synchronisation requires is provided by the creation task just before
      it, whatever the inputs are. */
  lemma RestorationFlowSatisfied(checkpointId: string, resourceTasks: seq<Task>, inputs: set<string>)
    requires Satisfied(resourceTasks, inputs)
    ensures Satisfied(RestorationFlow(checkpointId, resourceTasks).tasks, inputs)
  {
    var tasks := RestorationFlow(checkpointId, resourceTasks).tasks;
    var n := |resourceTasks|;
    forall i | 0 <= i < |tasks| ensures tasks[i].required <= inputs + ProvidedBefore(tasks, i) {
      if i < n {
        assert tasks[i] == resourceTasks[i];
        forall x | x in ProvidedBefore(resourceTasks, i) ensures x in ProvidedBefore(tasks, i) {
          ProvidedBeforeIff(resourceTasks, i, x);
          var j :| 0 <= j < i && x in resourceTasks[j].provided;
          assert tasks[j] == resourceTasks[j];
          ProvidedBeforeIff(tasks, i, x);
        }
      } else if i == n + 1 {
        assert tasks[n] == CreateStackTask();
        ProvidedBeforeIff(tasks, i, StackId);
      }
    }
  }

  /** The synchronisation task is last and its `stack_id` comes from the
      creation task right before it, even when no input supplies one. */
  lemma StackIdProvidedByCreateStack(checkpointId: string, resourceTasks: seq<Task>)
    ensures var tasks := RestorationFlow(checkpointId, resourceTasks).tasks;
            && tasks[|tasks| - 1] == SyncStackStatusTask()
            && tasks[|tasks| - 2] == CreateStackTask()
            && tasks[|tasks| - 1].required <= ProvidedBefore(tasks, |tasks| - 1)
  {
    var tasks := RestorationFlow(checkpointId, resourceTasks).tasks;
    ProvidedBeforeIff(tasks, |tasks| - 1, StackId);
  }

  // ---------------------------------------------------------------------
  // get_flow

  /** What `get_flow` settles before handing the flow to the engine: the
      client keyword arguments and the flow. */
  datatype RestorePlan = RestorePlan(clientKwargs: map<string, Value>, flow: Flow)

  /** `get_flow`: choosing the credentials fails before any flow is built;
      otherwise the restoration flow is built for the checkpoint. */
  function GetFlow(checkpointId: string, restore: map<string, Value>,
                   restoreAuth: Option<map<string, Value>>, resourceTasks: seq<Task>)
    : (r: Result<RestorePlan>)
    ensures r.Success? <==> ClientKwargs(restore, restoreAuth).Success?
    ensures r.Success? ==> r.value.clientKwargs == ClientKwargs(restore, restoreAuth).value
    ensures r.Success? ==> r.value.flow == RestorationFlow(checkpointId, resourceTasks)
  {
    var kwargs :- ClientKwargs(restore, restoreAuth);
    Success(RestorePlan(kwargs, RestorationFlow(checkpointId, resourceTasks)))
  }
}
