/** `TaskBuilder::start` and `TaskSequenceBuilder` as functions: a block of nodes and a fresh task
    made step by step from the declared stages and groups. */
module Builders {
  import opened Sequences
  import opened Layouts
  import opened Results
  import opened Decimals
  import opened TaskValues
  import opened TaskHistory
  import opened SequenceValues

  datatype Mode = InteractiveMode | PlainMode

  datatype BuilderStep =
    | StageStep(id: string, autoRun: bool)
    | GroupStep

  /** The state of the loop in `start`. */
  datatype Progress = Progress(layout: Layout, point: Option<NodeId>, entries: seq<Entry>, autostart: seq<string>)

  /** `create_head_renderer`, then the title event. */
  function CreateHead(l: Layout, mode: Mode): (Layout, Renderer, Option<NodeId>) {
    match mode
    case InteractiveMode => (l.Insert(), Renderer(Titled, Interactive(l.next, [])), Some(l.next))
    case PlainMode => (l, Renderer(Titled, Plain), None)
  }

  /** `create_child_renderer`: a node below the insertion point, which moves to it. */
  function CreateChild(b: Progress, mode: Mode, status: Status): (Progress, Renderer)
    requires mode.InteractiveMode? ==> b.point.Some?
  {
    match mode
    case InteractiveMode =>
      (b.(layout := b.layout.InsertBelow(b.point.value), point := Some(b.layout.next)),
       Renderer(status, Interactive(b.layout.next, [])))
    case PlainMode => (b, Renderer(status, Plain))
  }

  function AddStep(b: Progress, mode: Mode, step: BuilderStep): (r: Progress)
    requires mode.InteractiveMode? ==> b.point.Some?
    ensures mode.InteractiveMode? ==> r.point.Some?
  {
    match step
    case StageStep(id, autoRun) =>
      var (b1, r) := CreateChild(b, mode, Waiting);
      b1.(entries := b1.entries + [Stage(id, r)], autostart := if autoRun then b1.autostart + [id] else b1.autostart)
    case GroupStep =>
      var (b1, r) := CreateChild(b, mode, Divider);
      b1.(entries := b1.entries + [Extra(r)])
  }

  function AddSteps(b: Progress, mode: Mode, steps: seq<BuilderStep>): (r: Progress)
    requires mode.InteractiveMode? ==> b.point.Some?
    ensures mode.InteractiveMode? ==> r.point.Some?
  {
    if steps == [] then b else AddStep(AddSteps(b, mode, steps[..|steps| - 1]), mode, Last(steps))
  }

  /** `apply_auto_indent`: a trailing spacer, in interactive mode only. */
  function AutoIndent(b: Progress, mode: Mode): (r: Progress)
    requires mode.InteractiveMode? ==> b.point.Some?
    ensures mode.InteractiveMode? ==> r.point.Some?
  {
    if mode.PlainMode? then b
    else
      var (b1, r) := CreateChild(b, mode, Blank);
      b1.(entries := b1.entries + [Extra(r)])
  }

  function SealPoint(b: Progress): Layout {
    if b.point.Some? then b.layout.SetAnchor(b.point.value) else b.layout
  }

  /** All of `start` before the automatic runs. */
  function Build(l: Layout, mode: Mode, steps: seq<BuilderStep>, autoIndent: bool): (World, seq<string>) {
    var (l1, head, point) := CreateHead(l, mode);
    var b := AddSteps(Progress(l1, point, [], []), mode, steps);
    var b' := if autoIndent then AutoIndent(b, mode) else b;
    (World(SealPoint(b'), TaskValue(head, b'.entries, {}, {}, false)), b'.autostart)
  }

  function Start(l: Layout, mode: Mode, steps: seq<BuilderStep>, autoIndent: bool): World {
    var (w, autostart) := Build(l, mode, steps, autoIndent);
    ByIds(w, RunCalls(autostart))
  }

  // ---------------------------------------------------------------- what was built

  function DeclaredIds(steps: seq<BuilderStep>): seq<string> {
    if steps == [] then []
    else DeclaredIds(steps[..|steps| - 1]) + (if Last(steps).StageStep? then [Last(steps).id] else [])
  }

  lemma StageIdsSnoc(entries: seq<Entry>, e: Entry)
    ensures StageIds(entries + [e]) == StageIds(entries) + (if e.Stage? then [e.id] else [])
  {
    assert (entries + [e])[..|entries|] == entries;
  }

  lemma {:induction false} AddStepsIds(b: Progress, mode: Mode, steps: seq<BuilderStep>)
    requires b.entries == [] && b.autostart == []
    requires mode.InteractiveMode? ==> b.point.Some?
    ensures StageIds(AddSteps(b, mode, steps).entries) == DeclaredIds(steps)
    ensures forall id <- AddSteps(b, mode, steps).autostart :: id in DeclaredIds(steps)
  {
    if steps != [] {
      var front := steps[..|steps| - 1];
      AddStepsIds(b, mode, front);
      var b1 := AddSteps(b, mode, front);
      StageIdsSnoc(b1.entries, Last(AddSteps(b, mode, steps).entries));
    }
  }

  lemma BuildIds(l: Layout, mode: Mode, steps: seq<BuilderStep>, autoIndent: bool)
    ensures StageIds(Build(l, mode, steps, autoIndent).0.task.entries) == DeclaredIds(steps)
    ensures Fresh(Build(l, mode, steps, autoIndent).0.task)
  {
    var (l1, head, point) := CreateHead(l, mode);
    var b := AddSteps(Progress(l1, point, [], []), mode, steps);
    AddStepsIds(Progress(l1, point, [], []), mode, steps);
    if autoIndent && mode.InteractiveMode? {
      StageIdsSnoc(b.entries, Last(AutoIndent(b, mode).entries));
    }
  }

  /** `run` calls alone never settle a task and leave its sets empty. */
  lemma {:induction false} RunsKeepFresh(w0: World, ids: seq<string>)
    requires Fresh(w0.task)
    ensures Fresh(ByIds(w0, RunCalls(ids)).task)
    ensures StageIds(ByIds(w0, RunCalls(ids)).task.entries) == StageIds(w0.task.entries)
  {
    if ids != [] {
      var front := ids[..|ids| - 1];
      var w, c := ByIds(w0, RunCalls(front)), RunCall(Last(ids));
      RunsKeepFresh(w0, front);
      assert RunCalls(ids)[..|ids| - 1] == RunCalls(front);
      StageIdsMembers(w.task.entries, c.id);
      if FindStage(w.task.entries, c.id).Some? {
        MarkKnown(StageIds(w.task.entries), w, c);
      }
    }
  }

  /** A started task is fresh and has the declared stages in the declared order, in either mode. */
  lemma StartIsFresh(l: Layout, mode: Mode, steps: seq<BuilderStep>, autoIndent: bool)
    ensures Fresh(Start(l, mode, steps, autoIndent).task)
    ensures StageIds(Start(l, mode, steps, autoIndent).task.entries) == DeclaredIds(steps)
  {
    BuildIds(l, mode, steps, autoIndent);
    var (w, autostart) := Build(l, mode, steps, autoIndent);
    RunsKeepFresh(w, autostart);
  }

  // ---------------------------------------------------------------- the block that was built

  function NewRenderer(mode: Mode, status: Status, node: NodeId): Renderer {
    Renderer(status, if mode.InteractiveMode? then Interactive(node, []) else Plain)
  }

  /** What a declared step becomes: a waiting stage, or a divider. */
  function DeclaredEntry(step: BuilderStep, mode: Mode, node: NodeId): Entry {
    match step
    case StageStep(id, _) => Stage(id, NewRenderer(mode, Waiting, node))
    case GroupStep => Extra(NewRenderer(mode, Divider, node))
  }

  function AutoRunIds(steps: seq<BuilderStep>): seq<string> {
    if steps == [] then []
    else
      AutoRunIds(steps[..|steps| - 1]) +
      (if Last(steps).StageStep? && Last(steps).autoRun then [Last(steps).id] else [])
  }

  lemma {:induction false} AutoRunIdsMembers(steps: seq<BuilderStep>, id: string)
    ensures id in AutoRunIds(steps) <==> exists x <- steps :: x.StageStep? && x.id == id && x.autoRun
  {
    if steps != [] {
      AutoRunIdsMembers(steps[..|steps| - 1], id);
      assert steps == steps[..|steps| - 1] + [Last(steps)];
    }
  }

  /** The declared steps become entries one by one, on consecutive new nodes. */
  lemma {:induction false} StepsBecomeEntries(b: Progress, mode: Mode, steps: seq<BuilderStep>)
    requires b.entries == [] && b.autostart == []
    requires mode.InteractiveMode? ==> b.point.Some?
    ensures var r := AddSteps(b, mode, steps);
            && |r.entries| == |steps|
            && (forall i | 0 <= i < |steps| :: r.entries[i] == DeclaredEntry(steps[i], mode, b.layout.next + i))
            && r.autostart == AutoRunIds(steps)
            && (if mode.InteractiveMode? then r.layout.next == b.layout.next + |steps|
                else r.layout == b.layout && r.point == b.point)
  {
    if steps != [] {
      StepsBecomeEntries(b, mode, steps[..|steps| - 1]);
      hide InsertAfter;
    }
  }

  /** A built block: a titled head on the first new node, one entry per declared step on the nodes after
      it, and behind them a blank spacer exactly when it is asked for in interactive mode. In plain mode
      the layout is not touched. */
  lemma BlockIsAsDeclared(l: Layout, mode: Mode, steps: seq<BuilderStep>, autoIndent: bool)
    ensures var (w, autostart) := Build(l, mode, steps, autoIndent);
            var spacer := autoIndent && mode.InteractiveMode?;
            && w.task.renderer == NewRenderer(mode, Titled, l.next)
            && |w.task.entries| == |steps| + (if spacer then 1 else 0)
            && (forall i | 0 <= i < |steps| :: w.task.entries[i] == DeclaredEntry(steps[i], mode, l.next + 1 + i))
            && (spacer ==> w.task.entries[|steps|] == Extra(NewRenderer(mode, Blank, l.next + 1 + |steps|)))
            && autostart == AutoRunIds(steps)
            && (mode.PlainMode? ==> w.layout == l)
  {
    hide InsertAfter, AutoRunIds, DeclaredEntry, AddSteps, AutoIndent, CreateChild, NewRenderer;
    var (l1, head, point) := CreateHead(l, mode);
    var b := Progress(l1, point, [], []);
    HeadIsTitled(l, mode);
    StepsAfterHead(l, mode, steps);
    hide CreateHead;
    SpacerIsLast(AddSteps(b, mode, steps), mode);
  }

  lemma HeadIsTitled(l: Layout, mode: Mode)
    ensures var (l1, head, point) := CreateHead(l, mode);
            && head == NewRenderer(mode, Titled, l.next)
            && (if mode.InteractiveMode? then l1.next == l.next + 1 && point.Some? else l1 == l && point == None)
  {
  }

  lemma StepsAfterHead(l: Layout, mode: Mode, steps: seq<BuilderStep>)
    ensures mode.InteractiveMode? ==> CreateHead(l, mode).2.Some?
    ensures var (l1, head, point) := CreateHead(l, mode);
            var r := AddSteps(Progress(l1, point, [], []), mode, steps);
            && |r.entries| == |steps|
            && (forall i | 0 <= i < |steps| :: r.entries[i] == DeclaredEntry(steps[i], mode, l.next + 1 + i))
            && r.autostart == AutoRunIds(steps)
            && (if mode.InteractiveMode? then r.layout.next == l.next + 1 + |steps| else r.layout == l && r.point == None)
  {
    hide InsertAfter, AutoRunIds, DeclaredEntry, AddSteps;
    var (l1, head, point) := CreateHead(l, mode);
    HeadIsTitled(l, mode);
    StepsBecomeEntries(Progress(l1, point, [], []), mode, steps);
    hide CreateHead;
    var built := AddSteps(Progress(l1, point, [], []), mode, steps);
    forall i | 0 <= i < |steps| ensures built.entries[i] == DeclaredEntry(steps[i], mode, l.next + 1 + i) {
      PlainHasNoNode(steps[i], l1.next + i, l.next + 1 + i);
    }
  }

  lemma PlainHasNoNode(step: BuilderStep, m: NodeId, n: NodeId)
    ensures DeclaredEntry(step, PlainMode, m) == DeclaredEntry(step, PlainMode, n)
  {
  }

  lemma SpacerIsLast(b: Progress, mode: Mode)
    requires mode.InteractiveMode? ==> b.point.Some?
    ensures mode.PlainMode? ==> AutoIndent(b, mode) == b
    ensures mode.InteractiveMode? ==>
              var r := AutoIndent(b, mode);
              r.entries == b.entries + [Extra(NewRenderer(mode, Blank, b.layout.next))] && r.autostart == b.autostart
  {
  }

  /** Runs on a fresh task touch no layout, and show exactly their stages as running. */
  lemma {:induction false} RunsShowRunning(w0: World, ids: seq<string>, id: string)
    requires Fresh(w0.task) && id in StageIds(w0.task.entries)
    ensures var w := ByIds(w0, RunCalls(ids));
            && w.layout == w0.layout && w.task.renderer == w0.task.renderer
            && StatusOf(w.task.entries, id) == if id in ids then Some(Running) else StatusOf(w0.task.entries, id)
  {
    if ids != [] {
      var front := ids[..|ids| - 1];
      var w, c := ByIds(w0, RunCalls(front)), RunCall(Last(ids));
      RunsShowRunning(w0, front, id);
      RunsKeepFresh(w0, front);
      assert RunCalls(ids)[..|ids| - 1] == RunCalls(front) && Last(RunCalls(ids)) == c;
      assert id in ids <==> id in front || id == Last(ids);
      hide ByIds, StatusOf;
      RunShowsRunning(w, c.id, id);
    }
  }

  lemma RunShowsRunning(w: World, ran: string, id: string)
    requires Fresh(w.task) && id in StageIds(w.task.entries)
    ensures var w' := ById(w, RunCall(ran)).0;
            && w'.layout == w.layout && w'.task.renderer == w.task.renderer
            && StatusOf(w'.task.entries, id) == if id == ran then Some(Running) else StatusOf(w.task.entries, id)
  {
    StageIdsMembers(w.task.entries, ran);
    StageIdsMembers(w.task.entries, id);
    if FindStage(w.task.entries, ran).Some? {
      var i := FindStage(w.task.entries, ran).value;
      MarkKnown(StageIds(w.task.entries), w, RunCall(ran));
      hide FindStage, StageIds, StatusOf, SettledIds;
      assert ran !in Mark(w, i, RunCall(ran)).task.finishedStages;
    }
  }

  lemma BuiltStagesWait(l: Layout, mode: Mode, steps: seq<BuilderStep>, autoIndent: bool, id: string)
    requires id in DeclaredIds(steps)
    ensures var (w, autostart) := Build(l, mode, steps, autoIndent);
            StatusOf(w.task.entries, id) == Some(Waiting) && autostart == AutoRunIds(steps)
  {
    var (w, autostart) := Build(l, mode, steps, autoIndent);
    BuildIds(l, mode, steps, autoIndent);
    BlockIsAsDeclared(l, mode, steps, autoIndent);
    StageIdsMembers(w.task.entries, id);
    hide Build, StageIds, DeclaredIds, AutoRunIds;
    var i := FindStage(w.task.entries, id).value;
    hide FindStage;
    if i < |steps| {
      assert w.task.entries[i] == DeclaredEntry(steps[i], mode, l.next + 1 + i);
    }
  }

  /** After `start` exactly the stages declared to run automatically are running, the others wait; the
      block is otherwise the one that was built. */
  lemma StartRunsAutoStages(l: Layout, mode: Mode, steps: seq<BuilderStep>, autoIndent: bool, id: string)
    requires id in DeclaredIds(steps)
    ensures var (w, built) := (Start(l, mode, steps, autoIndent), Build(l, mode, steps, autoIndent).0);
            && w.layout == built.layout && w.task.renderer == built.task.renderer
            && StatusOf(w.task.entries, id) ==
               Some(if exists x <- steps :: x.StageStep? && x.id == id && x.autoRun then Running else Waiting)
  {
    var (w, autostart) := Build(l, mode, steps, autoIndent);
    BuildIds(l, mode, steps, autoIndent);
    BuiltStagesWait(l, mode, steps, autoIndent, id);
    AutoRunIdsMembers(steps, id);
    hide Build, StageIds, DeclaredIds, Fresh, AutoRunIds, ByIds, StatusOf, FindStage, RunCalls;
    RunsShowRunning(w, autostart, id);
  }

  // ---------------------------------------------------------------- sequences

  datatype SequenceStep = NextStage | NextGroup

  function GeneratedId(n: nat): string {
    "stage_" + Decimal(n)
  }

  function CountStages(steps: seq<SequenceStep>): nat {
    if steps == [] then 0
    else CountStages(steps[..|steps| - 1]) + if Last(steps).NextStage? then 1 else 0
  }

  /** The builder steps of a sequence: ids are drawn from the stage counter, no stage runs by itself. */
  function SequenceSteps(steps: seq<SequenceStep>): seq<BuilderStep> {
    if steps == [] then []
    else
      var front := steps[..|steps| - 1];
      SequenceSteps(front) +
      [if Last(steps).NextStage? then StageStep(GeneratedId(CountStages(front)), false) else GroupStep]
  }

  function BuildSequence(l: Layout, mode: Mode, steps: seq<SequenceStep>, autoIndent: bool, autostart: bool): SequenceValue {
    NewSequence(Start(l, mode, SequenceSteps(steps), autoIndent), autostart)
  }

  /** A sequence has one step per declared one, in order: a stage that waits for its turn under the next
      generated id, or a group. */
  lemma {:induction false} SequenceStepsAreDeclared(steps: seq<SequenceStep>)
    ensures |SequenceSteps(steps)| == |steps|
    ensures forall i | 0 <= i < |steps| ::
              SequenceSteps(steps)[i] ==
              if steps[i].NextStage? then StageStep("stage_" + Decimal(CountStages(steps[..i])), false) else GroupStep
  {
    if steps != [] {
      var front := steps[..|steps| - 1];
      SequenceStepsAreDeclared(front);
      assert forall i | 0 <= i < |front| :: front[..i] == steps[..i];
    }
  }

  lemma {:induction false} GeneratedIds(steps: seq<SequenceStep>)
    ensures var ids := DeclaredIds(SequenceSteps(steps));
            |ids| == CountStages(steps) && forall i :: 0 <= i < |ids| ==> ids[i] == GeneratedId(i)
  {
    if steps != [] {
      GeneratedIds(steps[..|steps| - 1]);
      var all := SequenceSteps(steps);
      assert all[..|all| - 1] == SequenceSteps(steps[..|steps| - 1]);
    }
  }

  lemma GeneratedIdsDistinct(steps: seq<SequenceStep>)
    ensures NoDup(DeclaredIds(SequenceSteps(steps)))
  {
    GeneratedIds(steps);
    var ids := DeclaredIds(SequenceSteps(steps));
    forall i, j | 0 <= i < j < |ids| ensures ids[i] != ids[j] {
      if GeneratedId(i) == GeneratedId(j) {
        assert Decimal(i) == GeneratedId(i)[6..] == GeneratedId(j)[6..] == Decimal(j);
        DecimalInjective(i, j);
      }
    }
  }

  /** Every run of every sequence made by the builder, in either mode, is the linear automaton over
      as many stages as were declared, and while a stage is current all its lookups succeed. */
  lemma BuiltSequenceRefinesAutomaton(l: Layout, mode: Mode, steps: seq<SequenceStep>, autoIndent: bool,
                                      autostart: bool, ops: seq<SequenceOp>)
    ensures var w0 := Start(l, mode, SequenceSteps(steps), autoIndent);
            var s := ApplyAll(BuildSequence(l, mode, steps, autoIndent, autostart), ops);
            && |StageIds(w0.task.entries)| == CountStages(steps)
            && Follows(w0, autostart, s, ops)
            && Linear(CountStages(steps), Outcomes(CountStages(steps), ops))
            && (s.currentStage < CountStages(steps) ==>
                  forall id <- s.allIds :: FindStage(s.inner.task.entries, id).Some?)
  {
    var w0 := Start(l, mode, SequenceSteps(steps), autoIndent);
    StartIsFresh(l, mode, SequenceSteps(steps), autoIndent);
    GeneratedIds(steps);
    GeneratedIdsDistinct(steps);
    SequenceRefinesAutomaton(w0, autostart, ops);
    var s := ApplyAll(BuildSequence(l, mode, steps, autoIndent, autostart), ops);
    forall id <- s.allIds ensures s.currentStage < |s.allIds| ==> FindStage(s.inner.task.entries, id).Some? {
      var j :| 0 <= j < |s.allIds| && s.allIds[j] == id;
      LookupsSucceed(w0, autostart, ops, j);
    }
  }
}
