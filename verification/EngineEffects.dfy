/** What each call of an engine does to what is visible. */
module EngineEffects {
  import opened Sequences
  import opened Layouts
  import opened Results
  import opened Blocks
  import opened TaskValues
  import opened SequenceValues
  import opened Builders
  import opened Simulation
  import opened Engines
  import opened TaskEffects

  function Consecutive(from: NodeId, n: nat): seq<NodeId> {
    seq(n, i requires 0 <= i < n => from + i)
  }

  // ---------------------------------------------------------------- new blocks

  lemma {:induction false} LinesOfFresh(kids: seq<Rend>, from: NodeId)
    requires forall i | 0 <= i < |kids| :: kids[i] == Rend(from + i, [])
    ensures Lines(kids) == Consecutive(from, |kids|)
  {
    if kids != [] {
      LinesOfFresh(kids[1..], from + 1);
      assert Line(kids[0]) == [from];
      assert Consecutive(from, |kids|) == [from] + Consecutive(from + 1, |kids| - 1);
    }
  }

  /** The flattened tree of a built block is a row of new nodes: the head, one for each declared step, and
      the trailing spacer. */
  lemma BuiltBlockIsFresh(l: Layout, steps: seq<BuilderStep>, autoIndent: bool)
    ensures var t := Build(l, InteractiveMode, steps, autoIndent).0.task;
            IsInteractive(t) && Flat(BlockOf(t)) == Consecutive(l.next, 1 + |steps| + if autoIndent then 1 else 0)
  {
    var t := Build(l, InteractiveMode, steps, autoIndent).0.task;
    BlockIsAsDeclared(l, InteractiveMode, steps, autoIndent);
    hide Build;
    forall i | 0 <= i < |t.entries|
      ensures t.entries[i].renderer.strategy == Interactive(l.next + 1 + i, [])
    {
      if i < |steps| {
        assert t.entries[i] == DeclaredEntry(steps[i], InteractiveMode, l.next + 1 + i);
      }
    }
    assert forall x <- t.entries :: x.renderer.strategy.Interactive?;
    LinesOfFresh(KidsOf(t.entries), l.next + 1);
    assert Line(BlockOf(t).head) == [l.next];
    assert Consecutive(l.next, 1 + |t.entries|) == [l.next] + Consecutive(l.next + 1, |t.entries|);
  }

  /** A run changes no strategy, so the block stays as it is. */
  lemma RunKeepsBlock(w: World, id: string)
    requires IsInteractive(w.task)
    ensures var t := ById(w, RunCall(id)).0.task;
            IsInteractive(t) && RendOf(t.renderer) == RendOf(w.task.renderer) && KidsOf(t.entries) == KidsOf(w.task.entries)
  {
    CallKeepsHeadStrategy(w, RunCall(id));
    if FindStage(w.task.entries, id).None? {
      UnknownIdDoesNothing(w, RunCall(id));
    } else {
      QuietCallShowsStatus(w, RunCall(id));
      var t := ById(w, RunCall(id)).0.task;
      hide ById, FindStage;
      forall x <- t.entries ensures x.renderer.strategy.Interactive? {
        var k :| 0 <= k < |t.entries| && t.entries[k] == x;
        assert w.task.entries[k] in w.task.entries;
      }
    }
  }

  lemma {:induction false} RunsKeepBlock(w: World, ids: seq<string>)
    requires IsInteractive(w.task)
    ensures var t := ByIds(w, RunCalls(ids)).task;
            IsInteractive(t) && RendOf(t.renderer) == RendOf(w.task.renderer) && KidsOf(t.entries) == KidsOf(w.task.entries)
  {
    if ids != [] {
      var front := ids[..|ids| - 1];
      RunsKeepBlock(w, front);
      assert RunCalls(ids)[..|ids| - 1] == RunCalls(front) && Last(RunCalls(ids)) == RunCall(Last(ids));
      hide ById, IsInteractive, KidsOf, RendOf;
      RunKeepsBlock(ByIds(w, RunCalls(front)), Last(ids));
    }
  }

  /** A started task, or sequence, shows the row of nodes that were built. */
  lemma StartedBlockIsFresh(l: Layout, steps: seq<BuilderStep>, autoIndent: bool, autostart: bool)
    ensures var t, q := Start(l, InteractiveMode, steps, autoIndent).task,
                        NewSequence(Start(l, InteractiveMode, steps, autoIndent), autostart).inner.task;
            var row := Consecutive(l.next, 1 + |steps| + if autoIndent then 1 else 0);
            && IsInteractive(t) && Flat(BlockOf(t)) == row
            && IsInteractive(q) && Flat(BlockOf(q)) == row
  {
    var (w, runs) := Build(l, InteractiveMode, steps, autoIndent);
    BuiltBlockIsFresh(l, steps, autoIndent);
    RunsKeepBlock(w, runs);
    var w1 := Start(l, InteractiveMode, steps, autoIndent);
    hide Build, ById, IsInteractive, KidsOf, RendOf;
    if autostart && StageIds(w1.task.entries) != [] {
      RunKeepsBlock(w1, StageIds(w1.task.entries)[0]);
    }
  }

  lemma DisplayedSnoc(hs: seq<Handle>, h: Handle)
    requires HandlesOk(hs + [h])
    ensures HandlesOk(hs) && HandleOk(h) && Displayed(hs + [h]) == Displayed(hs) + Flat(HandleBlock(h))
  {
    assert forall g <- hs :: g in hs + [h];
    assert h in hs + [h];
    assert (hs + [h])[..|hs|] == hs;
  }

  /** How many bars a creating call adds: one, or those of a whole block. */
  function NewBars(c: ApiCall): nat {
    match c
    case NewTask(steps, autoIndent) => 1 + |steps| + if autoIndent then 1 else 0
    case NewSequenceCall(stages, autoIndent, _) => 1 + |stages| + if autoIndent then 1 else 0
    case NewStep(_) => 1
    case NewSpace => 1
    case _ => 0
  }

  /** Every creating call adds one handle, and shows its row of new bars below everything visible. */
  lemma CreatedBlockIsAppended(e: Engine, c: ApiCall)
    requires InOrder(e) && NewBars(c) > 0
    ensures var e' := Invoke(e, c);
            && |e'.handles| == |e.handles| + 1 && e'.handles[..|e.handles|] == e.handles
            && e'.layout.Visible() == e.layout.Visible() + Consecutive(e.layout.next, NewBars(c))
            && (c.NewStep? ==>
                  var status := if c.autoRun then Running else Waiting;
                  Last(e'.handles) == StepHandle(Renderer(status, Interactive(e.layout.next, []))))
  {
    hide Inv, BlocksOk, Displays, InsertAfter, Start, BuildSequence;
    var e' := Invoke(e, c);
    var h := Last(e'.handles);
    assert e'.handles == e.handles + [h];
    InvokeInOrder(e, c);
    InOrderIsDisplayed(e);
    InOrderIsDisplayed(e');
    DisplayedSnoc(e.handles, h);
    NewHandleIsFresh(e, c);
  }

  lemma NewHandleIsFresh(e: Engine, c: ApiCall)
    requires NewBars(c) > 0 && Callable(e, c)
    requires HandleOk(Last(Invoke(e, c).handles))
    ensures Flat(HandleBlock(Last(Invoke(e, c).handles))) == Consecutive(e.layout.next, NewBars(c))
  {
    hide InsertAfter;
    match c
    case NewTask(steps, autoIndent) => StartedBlockIsFresh(e.layout, steps, autoIndent, false);
    case NewSequenceCall(stages, autoIndent, autostart) =>
      SequenceStepsAreDeclared(stages);
      StartedBlockIsFresh(e.layout, SequenceSteps(stages), autoIndent, autostart);
    case NewStep(_) => assert Consecutive(e.layout.next, 1) == [e.layout.next];
    case NewSpace => assert Consecutive(e.layout.next, 1) == [e.layout.next];
  }

  // ---------------------------------------------------------------- reports

  /** A node of a block in order is shown, and the next node is not. */
  lemma HandleNodeIsVisible(e: Engine, b: nat, n: NodeId)
    requires InOrder(e) && b < |e.handles| && n in Flat(HandleBlock(e.handles[b]))
    ensures n !in e.layout.hidden && e.layout.next !in e.layout.hidden
  {
    HandleAt(e, b);
    BlockIsVisible(e, b);
    hide HandlesOk, SysOf, BlocksOk, Displays, Flat, HandleBlock;
    assert e.layout.WellFormed();
  }

  lemma ReportIsShown(l: Layout, node: NodeId)
    requires node !in l.hidden && l.next !in l.hidden
    ensures l.InsertBelow(node).Visible() == InsertAfter(l.Visible(), node, l.next)
  {
    ShownInsertAfter(l.order, l.hidden, node, l.next);
  }

  /** A failed step shows one report right below its bar. */
  lemma FailedStepIsReported(e: Engine, b: nat)
    requires InOrder(e) && Callable(e, StepFail(b))
    ensures e.handles[b].renderer.strategy.Interactive?
    ensures var e', node := Invoke(e, StepFail(b)), e.handles[b].renderer.strategy.node;
            && e'.layout.Visible() == InsertAfter(e.layout.Visible(), node, e.layout.next)
            && e'.handles == e.handles[b := StepHandle(Renderer(Failed,
                 Interactive(node, e.handles[b].renderer.strategy.inserted + [e.layout.next])))]
  {
    HandleAt(e, b);
    var node := e.handles[b].renderer.strategy.node;
    assert node in Line(RendOf(e.handles[b].renderer));
    HandleNodeIsVisible(e, b, node);
    hide InOrder, InsertAfter, Shown;
    ReportIsShown(e.layout, node);
  }

  /** The other events of a step change its status, and nothing that is visible. */
  lemma StepEventIsQuiet(e: Engine, b: nat, status: Status)
    requires Callable(e, StepEvent(b, status))
    ensures var e' := Invoke(e, StepEvent(b, status));
            && e'.layout == e.layout
            && e'.handles == e.handles[b := StepHandle(Renderer(status, e.handles[b].renderer.strategy))]
  {
  }

  lemma EntryNodeIsInBlock(t: TaskValue, i: nat)
    requires IsInteractive(t) && i < |t.entries|
    ensures t.entries[i].renderer.strategy.Interactive?
    ensures t.entries[i].renderer.strategy.node in Flat(BlockOf(t))
  {
    assert t.entries[i] in t.entries;
    KidInLines(KidsOf(t.entries), i);
  }

  /** A failed stage of a task shows one report right below its bar. */
  lemma FailedStageIsShown(e: Engine, b: nat, id: string)
    requires InOrder(e) && Callable(e, OnTask(b, Single(FailCall(id))))
    requires FindStage(e.handles[b].task.entries, id).Some?
    ensures var r := e.handles[b].task.entries[FindStage(e.handles[b].task.entries, id).value].renderer;
            && r.strategy.Interactive?
            && Invoke(e, OnTask(b, Single(FailCall(id)))).layout.Visible() ==
               InsertAfter(e.layout.Visible(), r.strategy.node, e.layout.next)
  {
    var t := e.handles[b].task;
    var i := FindStage(t.entries, id).value;
    HandleAt(e, b);
    EntryNodeIsInBlock(t, i);
    HandleNodeIsVisible(e, b, t.entries[i].renderer.strategy.node);
    hide InOrder, InsertAfter, Shown, ById;
    FailedStageIsReported(World(e.layout, t), id);
    ReportIsShown(e.layout, t.entries[i].renderer.strategy.node);
  }

  /** So does the current stage of a failed sequence, and the skips after it show nothing. */
  lemma FailedSequenceIsShown(e: Engine, b: nat)
    requires InOrder(e) && Callable(e, OnSequence(b, DoFail)) && e.handles[b].currentStage < |e.handles[b].allIds|
    requires FindStage(e.handles[b].task.entries, e.handles[b].allIds[e.handles[b].currentStage]).Some?
    ensures var h := e.handles[b];
            var r := h.task.entries[FindStage(h.task.entries, h.allIds[h.currentStage]).value].renderer;
            && r.strategy.Interactive?
            && Invoke(e, OnSequence(b, DoFail)).layout.Visible() ==
               InsertAfter(e.layout.Visible(), r.strategy.node, e.layout.next)
  {
    var h := e.handles[b];
    var i := FindStage(h.task.entries, h.allIds[h.currentStage]).value;
    HandleAt(e, b);
    EntryNodeIsInBlock(h.task, i);
    HandleNodeIsVisible(e, b, h.task.entries[i].renderer.strategy.node);
    hide InOrder, InsertAfter, Shown, ById, SequenceValues.Fail;
    FailedSequenceIsReported(SequenceOf(e.layout, h));
    ReportIsShown(e.layout, h.task.entries[i].renderer.strategy.node);
  }

  /** A call that neither fails nor completes leaves everything visible where it is. */
  lemma QuietCallIsNotShown(e: Engine, b: nat, c: Call)
    requires Callable(e, OnTask(b, Single(c))) && FindStage(e.handles[b].task.entries, c.id).Some?
    requires !c.FailCall? && !Completes(World(e.layout, e.handles[b].task), c)
    ensures var e' := Invoke(e, OnTask(b, Single(c)));
            var i := FindStage(e.handles[b].task.entries, c.id).value;
            && e'.layout == e.layout && |e'.handles| == |e.handles|
            && (forall a | 0 <= a < |e.handles| && a != b :: e'.handles[a] == e.handles[a])
            && e'.handles[b].TaskHandle? && i < |e'.handles[b].task.entries|
            && e'.handles[b].task.entries[i].renderer.status == StatusAfter(c)
  {
    QuietCallShowsStatus(World(e.layout, e.handles[b].task), c);
  }
}
