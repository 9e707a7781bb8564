/** The `TaskBuilder`, `TaskSequenceBuilder` and `TaskSequence` objects, proved against the functions
    of `Builders` and `SequenceValues`. In plain mode the layout is at hand but never touched. */
module TaskBuilders {
  import opened Sequences
  import opened Layouts
  import opened Results
  import opened TaskValues
  import opened SequenceValues
  import opened Builders
  import opened Tasks

  class TaskBuilder {
    const layout: TaskLayout
    const mode: Mode
    var steps: seq<BuilderStep>

    constructor (layout: TaskLayout, mode: Mode)
      ensures this.layout == layout && this.mode == mode && steps == []
    {
      this.layout, this.mode, this.steps := layout, mode, [];
    }

    method WithStage(id: string, autoRun: bool)
      modifies this
      ensures steps == old(steps) + [StageStep(id, autoRun)]
    {
      steps := steps + [StageStep(id, autoRun)];
    }

    method WithGroup()
      modifies this
      ensures steps == old(steps) + [GroupStep]
    {
      steps := steps + [GroupStep];
    }

    method CreateHeadRenderer() returns (head: Renderer, point: Option<NodeId>)
      requires layout.Valid()
      modifies layout
      ensures layout.Valid() && Placed(head, layout.order)
      ensures (layout.Value(), head, point) == CreateHead(old(layout.Value()), mode)
      ensures mode.InteractiveMode? ==> point.Some? && point.value in layout.order
    {
      if mode.PlainMode? {
        head, point := Renderer(Titled, Plain), None;
      } else {
        InsertKeepsWellFormed(layout.Value());
        var node := layout.Insert();
        head, point := Renderer(Titled, Interactive(node, [])), Some(node);
      }
    }

    /** A renderer below the insertion point, which moves to the new node. */
    method CreateChildRenderer(point: Option<NodeId>, status: Status) returns (r: Renderer, point': Option<NodeId>)
      requires layout.Valid()
      requires mode.InteractiveMode? ==> point.Some? && point.value in layout.order
      modifies layout
      ensures layout.Valid() && Placed(r, layout.order)
      ensures mode.InteractiveMode? ==> point'.Some? && point'.value in layout.order
      ensures forall n <- old(layout.order) :: n in layout.order
      ensures forall entries, autostart ::
                CreateChild(Progress(old(layout.Value()), point, entries, autostart), mode, status) ==
                (Progress(layout.Value(), point', entries, autostart), r)
    {
      if mode.PlainMode? {
        r, point' := Renderer(status, Plain), point;
      } else {
        InsertBelowKeepsWellFormed(layout.Value(), point.value);
        var node := layout.InsertBelow(point.value);
        r, point' := Renderer(status, Interactive(node, [])), Some(node);
      }
    }

    /** The loop over the declared steps. */
    method CreateChildren(declared: seq<BuilderStep>, start: Option<NodeId>)
      returns (entries: seq<Entry>, autostart: seq<string>, point: Option<NodeId>)
      requires layout.Valid()
      requires mode.InteractiveMode? ==> start.Some? && start.value in layout.order
      modifies layout
      ensures layout.Valid()
      ensures forall e <- entries :: Placed(e.renderer, layout.order)
      ensures forall n <- old(layout.order) :: n in layout.order
      ensures mode.InteractiveMode? ==> point.Some? && point.value in layout.order
      ensures Progress(layout.Value(), point, entries, autostart) ==
              AddSteps(Progress(old(layout.Value()), start, [], []), mode, declared)
    {
      hide UpTo, Beyond, InsertAfter, NoDup;
      entries, autostart, point := [], [], start;
      assert declared[..0] == [];
      for i := 0 to |declared|
        invariant layout.Valid()
        invariant forall e <- entries :: Placed(e.renderer, layout.order)
        invariant forall n <- old(layout.order) :: n in layout.order
        invariant mode.InteractiveMode? ==> point.Some? && point.value in layout.order
        invariant Progress(layout.Value(), point, entries, autostart) ==
                  AddSteps(Progress(old(layout.Value()), start, [], []), mode, declared[..i])
      {
        assert declared[..i + 1][..i] == declared[..i];
        match declared[i]
        case StageStep(id, autoRun) =>
          var r, point' := CreateChildRenderer(point, Waiting);
          entries, point := entries + [Stage(id, r)], point';
          if autoRun {
            autostart := autostart + [id];
          }
        case GroupStep =>
          var r, point' := CreateChildRenderer(point, Divider);
          entries, point := entries + [Extra(r)], point';
      }
      assert declared[..|declared|] == declared;
    }

    /** A trailing spacer, in interactive mode only. */
    method ApplyAutoIndent(entries: seq<Entry>, point: Option<NodeId>, ghost autostart: seq<string>)
      returns (entries': seq<Entry>, point': Option<NodeId>)
      requires layout.Valid() && forall e <- entries :: Placed(e.renderer, layout.order)
      requires mode.InteractiveMode? ==> point.Some? && point.value in layout.order
      modifies layout
      ensures layout.Valid() && forall e <- entries' :: Placed(e.renderer, layout.order)
      ensures forall n <- old(layout.order) :: n in layout.order
      ensures mode.InteractiveMode? ==> point'.Some? && point'.value in layout.order
      ensures Progress(layout.Value(), point', entries', autostart) ==
              AutoIndent(Progress(old(layout.Value()), point, entries, autostart), mode)
    {
      entries', point' := entries, point;
      if mode.InteractiveMode? {
        var r, spacer := CreateChildRenderer(point, Blank);
        entries', point' := entries + [Extra(r)], spacer;
      }
    }

    /** Head, children, trailing spacer, anchor. */
    method BuildBlock(declared: seq<BuilderStep>, autoIndent: bool) returns (task: Task, autostart: seq<string>)
      requires layout.Valid()
      modifies layout
      ensures fresh(task) && task.layout == layout && task.Valid()
      ensures (task.Value(), autostart) == Build(old(layout.Value()), mode, declared, autoIndent)
    {
      var head, start := CreateHeadRenderer();
      ghost var begun := Progress(layout.Value(), start, [], []);
      var entries, autostart', point := CreateChildren(declared, start);
      PlainHasNoPoint(begun, mode, declared);
      autostart := autostart';
      if autoIndent {
        entries, point := ApplyAutoIndent(entries, point, autostart);
      }
      if point.Some? && mode.InteractiveMode? {
        layout.SetAnchor(point.value);
      }
      task := new Task(layout, head, entries);
    }

    /** Builds the block, makes the task and runs the automatic stages. */
    method Start(autoIndent: bool) returns (task: Task)
      requires layout.Valid()
      modifies this, layout
      ensures fresh(task) && task.layout == layout && task.Valid()
      ensures task.Value() == Builders.Start(old(layout.Value()), mode, old(steps), autoIndent)
    {
      var declared := steps;
      steps := [];
      var built, autostart := BuildBlock(declared, autoIndent);
      task := built;
      ghost var before := task.Value();
      ghost var calls := RunCalls(autostart);
      for i := 0 to |autostart|
        invariant task.Valid() && task.Value() == ByIds(before, calls[..i])
      {
        assert calls[..i + 1][..i] == calls[..i];
        var updated := task.RunById(autostart[i]);
      }
      assert calls[..|calls|] == calls;
    }
  }

  lemma {:induction false} PlainHasNoPoint(b: Progress, mode: Mode, steps: seq<BuilderStep>)
    requires mode.InteractiveMode? ==> b.point.Some?
    ensures mode.PlainMode? ==> AddSteps(b, mode, steps).point == b.point
  {
    if steps != [] {
      PlainHasNoPoint(b, mode, steps[..|steps| - 1]);
    }
  }

  class TaskSequenceBuilder {
    const inner: TaskBuilder
    var stageCounter: nat
    ghost var declared: seq<SequenceStep>

    ghost predicate Valid()
      reads this, inner
    {
      stageCounter == CountStages(declared) && inner.steps == SequenceSteps(declared)
    }

    constructor (inner: TaskBuilder)
      requires inner.steps == []
      ensures Valid() && this.inner == inner && declared == []
    {
      this.inner, this.stageCounter, this.declared := inner, 0, [];
    }

    method WithStage()
      requires Valid()
      modifies this, inner
      ensures Valid() && declared == old(declared) + [NextStage]
    {
      var id := stageCounter;
      stageCounter := stageCounter + 1;
      inner.WithStage(GeneratedId(id), false);
      declared := declared + [NextStage];
      assert declared[..|declared| - 1] == old(declared);
    }

    method WithGroup()
      requires Valid()
      modifies this, inner
      ensures Valid() && declared == old(declared) + [NextGroup]
    {
      inner.WithGroup();
      declared := declared + [NextGroup];
      assert declared[..|declared| - 1] == old(declared);
    }

    /** `start` when `autostart`, `build` otherwise. */
    method Start(autoIndent: bool, autostart: bool) returns (s: TaskSequence)
      requires Valid() && inner.layout.Valid()
      modifies this, inner, inner.layout
      ensures fresh(s) && fresh(s.inner) && s.Valid() && s.inner.layout == inner.layout
      ensures s.Value() ==
              BuildSequence(old(inner.layout.Value()), inner.mode, old(declared), autoIndent, autostart)
    {
      var task := inner.Start(autoIndent);
      s := new TaskSequence(task);
      if autostart {
        s.ActivateCurrentStage();
      }
    }
  }

  class TaskSequence {
    const inner: Task
    var currentStage: nat
    const allIds: seq<string>

    ghost function Value(): SequenceValue
      reads this, inner, inner.layout
    {
      SequenceValue(inner.Value(), currentStage, allIds)
    }

    ghost predicate Valid()
      reads this, inner, inner.layout
    {
      inner.Valid()
    }

    constructor (task: Task)
      requires task.Valid()
      ensures Valid() && inner == task
      ensures Value() == NewSequence(task.Value(), false)
    {
      inner, currentStage := task, 0;
      var ids := task.CollectStageIds();
      allIds := ids;
    }

    method ActivateCurrentStage()
      requires Valid()
      modifies inner, inner.layout
      ensures Valid() && Value() == Activate(old(Value()))
    {
      if currentStage < |allIds| {
        var updated := inner.RunById(allIds[currentStage]);
      }
    }

    method Ok(msg: string)
      requires Valid()
      modifies this, inner, inner.layout
      ensures Valid() && Value() == SequenceValues.Ok(old(Value()), msg)
    {
      if currentStage < |allIds| {
        var updated := inner.OkById(allIds[currentStage], msg);
        currentStage := currentStage + 1;
        if currentStage < |allIds| {
          ActivateCurrentStage();
        } else {
          inner.SetCompleted("success");
        }
      }
    }

    method Skip(msg: string)
      requires Valid()
      modifies this, inner, inner.layout
      ensures Valid() && Value() == SequenceValues.Skip(old(Value()), msg)
    {
      if currentStage < |allIds| {
        var updated := inner.SkipById(allIds[currentStage], msg);
        currentStage := currentStage + 1;
        if currentStage < |allIds| {
          ActivateCurrentStage();
        } else {
          inner.SetCompleted("success");
        }
      }
    }

    method Fail()
      requires Valid()
      modifies this, inner, inner.layout
      ensures Valid() && Value() == SequenceValues.Fail(old(Value()))
    {
      if currentStage < |allIds| {
        var updated := inner.FailById(allIds[currentStage]);
        currentStage := currentStage + 1;
        if currentStage < |allIds| {
          SkipStages(currentStage, "skipped due to previous error");
        }
      }
    }

    /** The slice from `startFrom` is in bounds at every call. */
    method SkipStages(startFrom: nat, msg: string)
      requires Valid() && startFrom <= |allIds|
      modifies this, inner, inner.layout
      ensures Valid() && Value() == SequenceValues.SkipStages(old(Value()), startFrom, msg)
    {
      hide ById, StageIds, Placed, NoDup;
      var rest := allIds[startFrom..];
      ghost var calls := SkipCalls(rest, msg);
      for i := 0 to |rest|
        invariant Valid() && currentStage == old(currentStage)
        invariant inner.Value() == ByIds(old(inner.Value()), calls[..i])
      {
        assert calls[..i + 1][..i] == calls[..i];
        var updated := inner.SkipById(rest[i], msg);
      }
      assert calls[..|calls|] == calls;
      currentStage := |allIds|;
    }

    method Finish(msg: string)
      requires Valid()
      modifies this, inner, inner.layout
      ensures Valid() && Value() == SequenceValues.Finish(old(Value()), msg)
    {
      if currentStage < |allIds| {
        SkipStages(currentStage, "skipped");
      }
      inner.SetCompleted(msg);
    }
  }
}
