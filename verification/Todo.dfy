/** Three versions of a todo list entry and the upcasters between them
    (tests/upcasting/aggregate.rs). */
module Todo {
  import opened Basics
  import opened Events
  import opened Entities
  import opened Upcasting
  import opened Aggregates
  import opened SchemaEvolution
  import opened Snapshots
  import opened SnapshotRuns
  import opened SnapshotLag

  datatype TodoV1 = TodoV1(userId: string, task: string, completed: bool)
  datatype TodoV2 = TodoV2(userId: string, task: string, priority: nat, completed: bool)
  datatype TodoV3 = TodoV3(userId: string, task: string, priority: nat, dueDate: string, completed: bool)

  const INITIALIZED := "Initialized"
  const COMPLETED := "Completed"

  /** (id, user_id, task) */
  predicate ShapeV1(p: Payload)
  {
    |p| == 3 && p[0].Text? && p[1].Text? && p[2].Text?
  }

  /** ... and a one-byte priority */
  predicate ShapeV2(p: Payload)
  {
    |p| == 4 && ShapeV1(p[..3]) && p[3].Number? && p[3].number < 256
  }

  /** ... and a due date */
  predicate ShapeV3(p: Payload)
  {
    |p| == 5 && ShapeV2(p[..4]) && p[4].Text?
  }

  function UpcastInitializedV1V2(p: Payload): Payload
  {
    if ShapeV1(p) then p + [Number(0)] else p
  }

  function UpcastInitializedV2V3(p: Payload): Payload
  {
    if ShapeV2(p) then p + [Text("")] else p
  }

  const V1_V2 := Upcaster(INITIALIZED, 1, 2, UpcastInitializedV1V2)
  const V2_V3 := Upcaster(INITIALIZED, 2, 3, UpcastInitializedV2V3)

  predicate Known(shape: Payload -> bool, name: string, p: Payload)
  {
    if name == INITIALIZED then shape(p) else name == COMPLETED
  }

  function IdIn(name: string, p: Payload): Option<string>
  {
    if name == INITIALIZED && |p| > 0 && p[0].Text? then Some(p[0].text) else None
  }

  /** What the commands of a v1 todo do to its fields. */
  function BodyV1(s: TodoV1, name: string, p: Payload): TodoV1
  {
    if name == COMPLETED then s.(completed := true)
    else if ShapeV1(p) then s.(userId := p[1].text, task := p[2].text)
    else s
  }

  /** What the commands of a v2 todo do to its fields. */
  function BodyV2(s: TodoV2, name: string, p: Payload): TodoV2
  {
    if name == COMPLETED then s.(completed := true)
    else if ShapeV2(p) then s.(userId := p[1].text, task := p[2].text, priority := p[3].number)
    else s
  }

  /** What the commands of a v3 todo do to its fields. */
  function BodyV3(s: TodoV3, name: string, p: Payload): TodoV3
  {
    if name == COMPLETED then s.(completed := true)
    else if ShapeV3(p) then s.(userId := p[1].text, task := p[2].text, priority := p[3].number, dueDate := p[4].text)
    else s
  }

  const V1: Spec<TodoV1> := Spec(
    TodoV1("", "", false),
    (name, p) => Known(ShapeV1, name, p),
    (s: TodoV1, name, p) => name == COMPLETED ==> !s.completed,
    BodyV1,
    IdIn,
    name => 1,
    [])

  const V2: Spec<TodoV2> := Spec(
    TodoV2("", "", 0, false),
    (name, p) => Known(ShapeV2, name, p),
    (s: TodoV2, name, p) => name == COMPLETED ==> !s.completed,
    BodyV2,
    IdIn,
    name => if name == INITIALIZED then 2 else 1,
    [V1_V2])

  const V3: Spec<TodoV3> := Spec(
    TodoV3("", "", 0, "", false),
    (name, p) => Known(ShapeV3, name, p),
    (s: TodoV3, name, p) => name == COMPLETED ==> !s.completed,
    BodyV3,
    IdIn,
    name => if name == INITIALIZED then 3 else 1,
    [V1_V2, V2_V3])

  function AsV3(s: TodoV1): TodoV3
  {
    TodoV3(s.userId, s.task, 0, "", s.completed)
  }

  function V2AsV3(s: TodoV2): TodoV3
  {
    TodoV3(s.userId, s.task, s.priority, "", s.completed)
  }

  lemma HandlersV3(name: string, version: nat)
    ensures FirstHandlerFrom(V3.upcasters, name, version, 0) ==
      if name == INITIALIZED && version == 1 then 0 else if name == INITIALIZED && version == 2 then 1 else 2
  {
    assert FirstHandlerFrom(V3.upcasters, name, version, 2) == 2;
  }

  lemma HandlersV2(name: string, version: nat)
    ensures FirstHandlerFrom(V2.upcasters, name, version, 0) == if name == INITIALIZED && version == 1 then 0 else 1
  {
    assert FirstHandlerFrom(V2.upcasters, name, version, 1) == 1;
  }

  /** What the two chained upcasters make of an event. */
  lemma UpcastToV3(e: EventRecord)
    ensures Upcast(V3.upcasters, e) ==
      if e.name == INITIALIZED && e.version == 1 then
        e.(payload := UpcastInitializedV2V3(UpcastInitializedV1V2(e.payload)), version := 3)
      else if e.name == INITIALIZED && e.version == 2 then e.(payload := UpcastInitializedV2V3(e.payload), version := 3)
      else e
  {
    var us := V3.upcasters;
    var once := Apply(us, e);
    HandlersV3(e.name, e.version);
    HandlersV3(once.name, once.version);
    assert Iterate(us, e, 1) == once;
    assert Iterate(us, e, 2) == Apply(us, once);
  }

  lemma UpcastToV2(e: EventRecord)
    ensures Upcast(V2.upcasters, e) ==
      if e.name == INITIALIZED && e.version == 1 then e.(payload := UpcastInitializedV1V2(e.payload), version := 2) else e
  {
    HandlersV2(e.name, e.version);
    assert Iterate(V2.upcasters, e, 0) == e;
  }

  lemma V1CommutesWithV3(e: EventRecord)
    requires V1.arm(e.name, e.payload) && e.version == 1
    ensures Commutes(V1, V3, AsV3, e)
  {
    UpcastToV3(e);
    var n := Upcast(V3.upcasters, e);
    assert Upcast(V1.upcasters, e) == e;
    if e.name == INITIALIZED {
      var p := e.payload;
      assert (p + [Number(0)])[..3] == p && (p + [Number(0)] + [Text("")])[..4] == p + [Number(0)];
      assert n.payload == p + [Number(0)] + [Text("")];
    }
    forall s: TodoV1 ensures SameEffect(V1, V3, AsV3, s, e, n) {}
  }

  /** Schema evolution preserves meaning: every log a v1 todo records in any command run
      hydrates as v3, with the same id, user, task and completed flag, priority 0 and no due
      date. */
  lemma V1LogsHydrateAsV3(calls: seq<Call>)
    requires WellTyped(V1, calls)
    ensures var a := CalledAll(V1, New(V1), calls);
      var stored := Loaded(a.entity.id, a.entity.events);
      Hydrated(V3, stored) == Ok(Aggregate(stored, TodoV3(a.state.userId, a.state.task, 0, "", a.state.completed), []))
  {
    forall e: EventRecord | V1.arm(e.name, e.payload) && e.version == V1.eventVersion(e.name)
      ensures Commutes(V1, V3, AsV3, e)
    {
      V1CommutesWithV3(e);
    }
    RunCommutes(V1, V3, AsV3, calls);
  }

  /** The fields as the arguments of an initialization. */
  function FieldsOf(d: Domain<TodoV3>): Payload
  {
    [Text(d.id), Text(d.state.userId), Text(d.state.task), Number(d.state.priority), Text(d.state.dueDate)]
  }

  /** The arguments of the last initialization, or those of a todo without one. */
  function LastArgs(id: string, log: seq<EventRecord>): Payload
  {
    if log == [] then [Text(id), Text(""), Text(""), Number(0), Text("")]
    else if log[|log| - 1].name == INITIALIZED then log[|log| - 1].payload
    else LastArgs(id, log[..|log| - 1])
  }

  ghost predicate HasCompleted(log: seq<EventRecord>)
  {
    exists i :: 0 <= i < |log| && log[i].name == COMPLETED
  }

  ghost predicate TodoOf(d: Domain<TodoV3>, id: string, log: seq<EventRecord>)
  {
    FieldsOf(d) == LastArgs(id, log) && (d.state.completed <==> HasCompleted(log))
  }

  lemma HasCompletedSnoc(log: seq<EventRecord>)
    requires log != []
    ensures HasCompleted(log) <==> HasCompleted(log[..|log| - 1]) || log[|log| - 1].name == COMPLETED
  {
  }

  lemma TodoStep(d: Domain<TodoV3>, name: string, p: Payload)
    requires V3.arm(name, p)
    ensures var t := Step(V3, d, name, p);
      && FieldsOf(t) == (if name == INITIALIZED then p else FieldsOf(d))
      && t.state.completed == (d.state.completed || name == COMPLETED)
  {
  }

  lemma {:induction false} FoldIsTodoOf(id: string, log: seq<EventRecord>)
    requires AllArms(V3, log)
    ensures TodoOf(Fold(V3, Domain(id, V3.init), log), id, log)
  {
    if log != [] {
      var front, last := log[..|log| - 1], log[|log| - 1];
      FoldIsTodoOf(id, front);
      TodoStep(Fold(V3, Domain(id, V3.init), front), last.name, last.payload);
      HasCompletedSnoc(log);
    }
  }

  /** What a v3 todo is after its upcast log was replayed: all arguments of the last
      initialization are its fields, and it is completed if some event says so. */
  lemma HydratedTodo(id: string, log: seq<EventRecord>)
    requires Hydrated(V3, Loaded(id, log)).Ok?
    ensures var a := Hydrated(V3, Loaded(id, log)).value;
      TodoOf(Domain(a.entity.id, a.state), id, UpcastEvents(V3.upcasters, log))
  {
    HydrateIsFold(V3, Loaded(id, log));
    FoldIsTodoOf(id, UpcastEvents(V3.upcasters, log));
  }

  /** An event as a v1 or v2 todo would have written it. */
  predicate WrittenBeforeV3(e: EventRecord)
  {
    e.name == COMPLETED || (e.name == INITIALIZED && ((e.version == 1 && ShapeV1(e.payload)) || (e.version == 2 && ShapeV2(e.payload))))
  }

  lemma V2CommutesWithV3(e: EventRecord)
    requires WrittenBeforeV3(e)
    ensures Commutes(V2, V3, V2AsV3, e)
  {
    UpcastToV2(e);
    UpcastToV3(e);
    var o, n := Upcast(V2.upcasters, e), Upcast(V3.upcasters, e);
    if e.name == INITIALIZED {
      var p := if e.version == 1 then e.payload + [Number(0)] else e.payload;
      assert e.version == 1 ==> p[..3] == e.payload;
      assert (p + [Text("")])[..4] == p;
      assert o.payload == p && n.payload == p + [Text("")];
    }
    forall s: TodoV2 ensures SameEffect(V2, V3, V2AsV3, s, o, n) {}
  }

  /** Logs that mix v1 and v2 events, as they arise when a v2 todo goes on from a v1 log,
      mean the same to v2 and to v3. */
  lemma MixedLogsHydrateAlike(id: string, log: seq<EventRecord>)
    requires forall i :: 0 <= i < |log| ==> WrittenBeforeV3(log[i])
    requires Hydrated(V2, Loaded(id, log)).Ok?
    ensures var a := Hydrated(V2, Loaded(id, log)).value;
      Hydrated(V3, Loaded(id, log)) == Ok(Aggregate(a.entity, V2AsV3(a.state), []))
  {
    forall i | 0 <= i < |log| ensures Commutes(V2, V3, V2AsV3, log[i]) {
      V2CommutesWithV3(log[i]);
    }
    HydrateCommutes(V2, V3, V2AsV3, Loaded(id, log));
  }

  // ---- Snapshots of a v2 todo --------------------------------------------------------

  function CreateSnapshot(d: Domain<TodoV2>): Payload
  {
    [Text(d.id), Text(d.state.userId), Text(d.state.task), Number(d.state.priority), Number(if d.state.completed then 1 else 0)]
  }

  function RestoreFromSnapshot(p: Payload): Option<Domain<TodoV2>>
  {
    if |p| == 5 && ShapeV1(p[..3]) && p[3].Number? && p[4].Number? then
      Some(Domain(p[0].text, TodoV2(p[1].text, p[2].text, p[3].number, p[4].number == 1)))
    else None
  }

  const TODO_SNAPSHOTS: Snapshottable<TodoV2> := Snapshottable(V2, CreateSnapshot, RestoreFromSnapshot)

  /** So all that is proved of snapshot repositories holds of one for v2 todos, upcasters
      included. */
  lemma TodoSnapshotsAreLawful()
    ensures Lawful(TODO_SNAPSHOTS)
  {
    forall name, args | V2.arm(name, args)
      ensures FirstHandlerFrom(V2.upcasters, name, V2.eventVersion(name), 0) == |V2.upcasters|
    {
      HandlersV2(name, V2.eventVersion(name));
    }
    forall d: Domain<TodoV2> ensures TODO_SNAPSHOTS.restore(TODO_SNAPSHOTS.create(d)) == Some(d) {
      assert CreateSnapshot(d)[..3] == [Text(d.id), Text(d.state.userId), Text(d.state.task)];
    }
  }

  /** And a snapshot of a todo can be replaced by an older one: with saves as separate steps
      the lag bound is lost for every frequency. */
  lemma TodoLateSaveLosesBound(id: string, k: nat) returns (actions: seq<Action>)
    requires k >= 1
    ensures var s := Run(TODO_SNAPSHOTS, State(map[], map[], map[]), actions);
      var t := SnapshotRuns.After(TODO_SNAPSHOTS, s, Save(1, k));
      AllWithinLag(s, k) && !WithinLag(t.store, t.snapshots, id, k)
  {
    var args := [Text(id), Text(""), Text(""), Number(0)];
    TodoSnapshotsAreLawful();
    assert args[..3] == [Text(id), Text(""), Text("")];
    actions := LateSaveLosesBound(TODO_SNAPSHOTS, INITIALIZED, args, id, k);
  }
}
