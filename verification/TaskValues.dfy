/** The state of a task as a value, and what each of its operations does to it and to the layout.

    Drawing is reduced to the last event each renderer was given (`status`). In plain mode a
    renderer writes lines and touches no layout. */
module TaskValues {
  import opened Sequences
  import opened Layouts
  import opened Results

  datatype Status =
    | Waiting | Titled | Running | Succeeded(msg: string) | Failed | Skipped(msg: string) | Divider | Blank

  datatype Strategy =
    | Interactive(node: NodeId, inserted: seq<NodeId>)
    | Plain

  datatype Renderer = Renderer(status: Status, strategy: Strategy)

  datatype Entry =
    | Stage(id: string, renderer: Renderer)
    | Extra(renderer: Renderer)

  datatype TaskValue = TaskValue(renderer: Renderer, entries: seq<Entry>,
                                 finishedStages: set<string>, failedStages: set<string>, isFinished: bool)

  datatype World = World(layout: Layout, task: TaskValue)

  /** One call of `run_by_id`, `ok_by_id`, `fail_by_id` or `skip_by_id`. */
  datatype Call =
    | RunCall(id: string)
    | OkCall(id: string, msg: string)
    | FailCall(id: string)
    | SkipCall(id: string, msg: string)

  // ---------------------------------------------------------------- renderers

  /** `fail_insert`: the failure event and, interactively, a report right below the node. */
  function FailInsert(l: Layout, r: Renderer): (Layout, Renderer) {
    match r.strategy
    case Interactive(node, inserted) =>
      (l.InsertBelow(node), Renderer(Failed, Interactive(node, inserted + [l.next])))
    case Plain => (l, r.(status := Failed))
  }

  /** The nodes `clear` clears. */
  function ClearedNodes(r: Renderer): seq<NodeId> {
    match r.strategy
    case Interactive(node, inserted) => [node] + inserted
    case Plain => []
  }

  function AllClearedNodes(entries: seq<Entry>): seq<NodeId> {
    if entries == [] then []
    else AllClearedNodes(entries[..|entries| - 1]) + ClearedNodes(Last(entries).renderer)
  }

  // ---------------------------------------------------------------- task state

  function StageIds(entries: seq<Entry>): seq<string> {
    if entries == [] then []
    else StageIds(entries[..|entries| - 1]) + (if Last(entries).Stage? then [Last(entries).id] else [])
  }

  /** The index of the first stage with this id. */
  function FindStage(entries: seq<Entry>, id: string): (r: Option<nat>)
    ensures r.Some? ==> r.value < |entries| && entries[r.value].Stage? && entries[r.value].id == id
  {
    if entries == [] then None
    else
      var front := FindStage(entries[..|entries| - 1], id);
      if front.Some? then front
      else if Last(entries).Stage? && Last(entries).id == id then Some(|entries| - 1)
      else None
  }

  predicate AllFinished(entries: seq<Entry>, finished: set<string>) {
    forall e <- entries :: e.Stage? ==> e.id in finished
  }

  function ClearChildren(w: World): World {
    var nodes := AllClearedNodes(w.task.entries);
    var l := w.layout.Hide(set n <- nodes);
    World(match w.task.renderer.strategy
          case Interactive(main, _) => l.UpdateAnchorIfIn(nodes, main)
          case Plain => l,
          w.task.(entries := []))
  }

  function SetCompleted(w: World, msg: string): World {
    if w.task.isFinished then w
    else ClearChildren(w.(task := w.task.(renderer := w.task.renderer.(status := Succeeded(msg)),
                                          isFinished := true)))
  }

  function SetFailedAndInsert(w: World): World {
    var (l, r) := FailInsert(w.layout, w.task.renderer);
    World(l, w.task.(renderer := r, isFinished := true))
  }

  function SetFailedAndFreeze(w: World): World {
    w.(task := w.task.(renderer := w.task.renderer.(status := Failed), isFinished := true))
  }

  function SetFailedAndClear(w: World): World {
    ClearChildren(SetFailedAndInsert(w))
  }

  function UpdateState(w: World): (World, bool) {
    if w.task.isFinished then (w, false)
    else if w.task.failedStages != {} then (SetFailedAndFreeze(w), true)
    else if AllFinished(w.task.entries, w.task.finishedStages) then (SetCompleted(w, "success"), true)
    else (w, true)
  }

  /** The event a call gives to the renderer of its stage. */
  function Event(l: Layout, r: Renderer, c: Call): (Layout, Renderer) {
    match c
    case RunCall(_) => (l, r.(status := Running))
    case OkCall(_, msg) => (l, r.(status := Succeeded(msg)))
    case FailCall(_) => FailInsert(l, r)
    case SkipCall(_, msg) => (l, r.(status := Skipped(msg)))
  }

  function Mark(w: World, i: nat, c: Call): World
    requires i < |w.task.entries|
  {
    var t := w.task;
    var (l, r) := Event(w.layout, t.entries[i].renderer, c);
    World(l, t.(entries := t.entries[i := t.entries[i].(renderer := r)],
                finishedStages := if c.OkCall? || c.SkipCall? then t.finishedStages + {c.id}
                                  else t.finishedStages - {c.id},
                failedStages := if c.FailCall? then t.failedStages + {c.id} else t.failedStages - {c.id}))
  }

  function ById(w: World, c: Call): (World, bool) {
    match FindStage(w.task.entries, c.id)
    case None => (w, false)
    case Some(i) => UpdateState(Mark(w, i, c))
  }

  /** A series of calls, results dropped. */
  function ByIds(w: World, calls: seq<Call>): World {
    if calls == [] then w else ById(ByIds(w, calls[..|calls| - 1]), Last(calls)).0
  }

  // ---------------------------------------------------------------- bulk operations

  function OkCalls(ids: seq<string>, msg: string): seq<Call> {
    seq(|ids|, i requires 0 <= i < |ids| => OkCall(ids[i], msg))
  }

  function FailCalls(ids: seq<string>): seq<Call> {
    seq(|ids|, i requires 0 <= i < |ids| => FailCall(ids[i]))
  }

  function RunCalls(ids: seq<string>): seq<Call> {
    seq(|ids|, i requires 0 <= i < |ids| => RunCall(ids[i]))
  }

  function SkipCalls(ids: seq<string>, msg: string): seq<Call> {
    seq(|ids|, i requires 0 <= i < |ids| => SkipCall(ids[i], msg))
  }

  function PerformOk(w: World, msg: string): World {
    var ids := StageIds(w.task.entries);
    if w.task.isFinished then w
    else if ids == [] then SetCompleted(w, msg)
    else ByIds(w, OkCalls(ids, msg))
  }

  function PerformFail(w: World): World {
    if w.task.isFinished then w
    else SetFailedAndClear(ByIds(w, FailCalls(StageIds(w.task.entries))))
  }

  function PerformRun(w: World): World {
    if w.task.isFinished then w
    else ByIds(w, RunCalls(StageIds(w.task.entries)))
  }

  function PerformSkip(w: World, msg: string): World {
    if w.task.isFinished then w
    else ByIds(w, SkipCalls(StageIds(w.task.entries), msg))
  }

  /** The operations of a task handle; only the `_by_id` calls return a value. */
  datatype TaskOp =
    | Single(call: Call)
    | OkAll(msg: string)
    | FailAll
    | RunAll
    | SkipAll(msg: string)

  function DoTask(w: World, op: TaskOp): (World, Option<bool>) {
    match op
    case Single(c) => (ById(w, c).0, Some(ById(w, c).1))
    case OkAll(msg) => (PerformOk(w, msg), None)
    case FailAll => (PerformFail(w), None)
    case RunAll => (PerformRun(w), None)
    case SkipAll(msg) => (PerformSkip(w, msg), None)
  }

  // ---------------------------------------------------------------- facts about entries

  lemma {:induction false} StageIdsMembers(entries: seq<Entry>, id: string)
    ensures id in StageIds(entries) <==> exists e <- entries :: e.Stage? && e.id == id
    ensures id in StageIds(entries) <==> FindStage(entries, id).Some?
  {
    if entries != [] {
      var front := entries[..|entries| - 1];
      StageIdsMembers(front, id);
      assert entries == front + [Last(entries)];
    }
  }

  lemma AllFinishedIds(entries: seq<Entry>, finished: set<string>)
    ensures AllFinished(entries, finished) <==> forall id <- StageIds(entries) :: id in finished
  {
    forall id ensures id in StageIds(entries) <==> exists e <- entries :: e.Stage? && e.id == id {
      StageIdsMembers(entries, id);
    }
  }

  /** An event on one entry does not change which stages there are. */
  lemma {:induction false} StageIdsUpdate(entries: seq<Entry>, i: nat, r: Renderer)
    requires i < |entries|
    ensures StageIds(entries[i := entries[i].(renderer := r)]) == StageIds(entries)
  {
    var n := |entries| - 1;
    var entries' := entries[i := entries[i].(renderer := r)];
    if i < n {
      StageIdsUpdate(entries[..n], i, r);
      assert entries'[..n] == entries[..n][i := entries[..n][i].(renderer := r)];
    } else {
      assert entries'[..n] == entries[..n];
    }
  }
}
