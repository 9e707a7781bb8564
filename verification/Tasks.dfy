/** The `Task` object. Its methods update its fields and the shared layout in place; each one is
    proved to do what the function of the same name in `TaskValues` says. */
module Tasks {
  import opened Sequences
  import opened Layouts
  import opened Results
  import opened TaskValues

  /** All nodes of a renderer are in the list. */
  predicate Placed(r: Renderer, order: seq<NodeId>) {
    forall n <- ClearedNodes(r) :: n in order
  }

  method InsertFailure(layout: TaskLayout, r: Renderer) returns (r': Renderer)
    requires layout.Valid() && Placed(r, layout.order)
    modifies layout
    ensures layout.Valid()
    ensures (layout.Value(), r') == FailInsert(old(layout.Value()), r)
    ensures Placed(r', layout.order)
    ensures forall n <- old(layout.order) :: n in layout.order
  {
    r' := r.(status := Failed);
    if r.strategy.Interactive? {
      assert r.strategy.node in ClearedNodes(r);
      InsertBelowKeepsWellFormed(layout.Value(), r.strategy.node);
      var report := layout.InsertBelow(r.strategy.node);
      r' := r'.(strategy := Interactive(r.strategy.node, r.strategy.inserted + [report]));
    }
  }

  /** `clear`: clears the node, then its reports, and returns what was cleared. */
  method ClearRenderer(layout: TaskLayout, r: Renderer) returns (cleared: seq<NodeId>)
    requires layout.Valid() && Placed(r, layout.order)
    modifies layout`hidden
    ensures layout.Valid()
    ensures cleared == ClearedNodes(r)
    ensures layout.Value() == old(layout.Value()).Hide(set n <- cleared)
  {
    cleared := [];
    if r.strategy.Interactive? {
      layout.FinishAndClear(r.strategy.node);
      cleared := [r.strategy.node];
      for i := 0 to |r.strategy.inserted|
        invariant layout.Valid()
        invariant cleared == [r.strategy.node] + r.strategy.inserted[..i]
        invariant layout.Value() == old(layout.Value()).Hide(set n <- cleared)
      {
        assert r.strategy.inserted[i] in ClearedNodes(r);
        layout.FinishAndClear(r.strategy.inserted[i]);
        cleared := cleared + [r.strategy.inserted[i]];
      }
    }
  }

  class Task {
    const layout: TaskLayout
    var renderer: Renderer
    var entries: seq<Entry>
    var finishedStages: set<string>
    var failedStages: set<string>
    var isFinished: bool

    ghost function Value(): World
      reads this, layout
    {
      World(layout.Value(), TaskValue(renderer, entries, finishedStages, failedStages, isFinished))
    }

    ghost predicate Valid()
      reads this, layout
    {
      && layout.Valid()
      && Placed(renderer, layout.order)
      && forall e <- entries :: Placed(e.renderer, layout.order)
    }

    constructor (layout: TaskLayout, renderer: Renderer, entries: seq<Entry>)
      requires layout.Valid() && Placed(renderer, layout.order)
      requires forall e <- entries :: Placed(e.renderer, layout.order)
      ensures Valid() && this.layout == layout
      ensures Value() == World(layout.Value(), TaskValue(renderer, entries, {}, {}, false))
    {
      this.layout, this.renderer, this.entries := layout, renderer, entries;
      finishedStages, failedStages, isFinished := {}, {}, false;
    }

    method ClearChildren()
      requires Valid()
      modifies this`entries, layout
      ensures Valid()
      ensures Value() == TaskValues.ClearChildren(old(Value()))
    {
      var nodesToClear: seq<NodeId> := [];
      assert entries[..0] == [];
      for i := 0 to |entries|
        invariant Valid() && entries == old(entries)
        invariant nodesToClear == AllClearedNodes(entries[..i])
        invariant layout.Value() == old(layout.Value()).Hide(set n <- nodesToClear)
      {
        assert entries[i] in entries;
        var cleared := ClearRenderer(layout, entries[i].renderer);
        assert entries[..i + 1][..i] == entries[..i];
        assert (set n <- nodesToClear + cleared) == (set n <- nodesToClear) + (set n <- cleared);
        nodesToClear := nodesToClear + cleared;
      }
      assert entries[..|entries|] == entries;
      if renderer.strategy.Interactive? {
        assert renderer.strategy.node in ClearedNodes(renderer);
        layout.UpdateAnchorIfIn(nodesToClear, renderer.strategy.node);
      }
      entries := [];
    }

    method SetCompleted(msg: string)
      requires Valid()
      modifies this, layout
      ensures Valid()
      ensures Value() == TaskValues.SetCompleted(old(Value()), msg)
    {
      if isFinished {
        return;
      }
      renderer := renderer.(status := Succeeded(msg));
      isFinished := true;
      ClearChildren();
    }

    method SetFailedAndInsert()
      requires Valid()
      modifies this, layout
      ensures Valid()
      ensures Value() == TaskValues.SetFailedAndInsert(old(Value()))
    {
      var r := InsertFailure(layout, renderer);
      renderer := r;
      isFinished := true;
    }

    method SetFailedAndFreeze()
      requires Valid()
      modifies this
      ensures Valid()
      ensures Value() == TaskValues.SetFailedAndFreeze(old(Value()))
    {
      renderer := renderer.(status := Failed);
      isFinished := true;
    }

    method SetFailedAndClear()
      requires Valid()
      modifies this, layout
      ensures Valid()
      ensures Value() == TaskValues.SetFailedAndClear(old(Value()))
    {
      SetFailedAndInsert();
      ClearChildren();
    }

    /** Every stage among the entries is in the finished set. */
    method AllStagesFinished() returns (all: bool)
      ensures all <==> AllFinished(entries, finishedStages)
    {
      for i := 0 to |entries|
        invariant forall e <- entries[..i] :: e.Stage? ==> e.id in finishedStages
      {
        if entries[i].Stage? && entries[i].id !in finishedStages {
          return false;
        }
      }
      return true;
    }

    method UpdateState() returns (updated: bool)
      requires Valid()
      modifies this, layout
      ensures Valid()
      ensures (Value(), updated) == TaskValues.UpdateState(old(Value()))
    {
      if isFinished {
        return false;
      }
      if failedStages != {} {
        SetFailedAndFreeze();
        return true;
      }
      var all := AllStagesFinished();
      if all {
        SetCompleted("success");
      }
      return true;
    }

    /** The first stage with this id. */
    method GetStage(id: string) returns (found: Option<nat>)
      ensures found == FindStage(entries, id)
    {
      assert entries[..0] == [];
      for i := 0 to |entries|
        invariant FindStage(entries[..i], id) == None
      {
        assert entries[..i + 1][..i] == entries[..i];
        if entries[i].Stage? && entries[i].id == id {
          FindStagePrefix(entries, i + 1, id);
          return Some(i);
        }
      }
      assert entries[..|entries|] == entries;
      return None;
    }

    method RunById(id: string) returns (updated: bool)
      requires Valid()
      modifies this, layout
      ensures Valid()
      ensures (Value(), updated) == ById(old(Value()), RunCall(id))
    {
      var found := GetStage(id);
      if found.None? {
        return false;
      }
      SetStage(found.value, entries[found.value].renderer.(status := Running));
      finishedStages := finishedStages - {id};
      failedStages := failedStages - {id};
      updated := UpdateState();
    }

    method OkById(id: string, msg: string) returns (updated: bool)
      requires Valid()
      modifies this, layout
      ensures Valid()
      ensures (Value(), updated) == ById(old(Value()), OkCall(id, msg))
    {
      var found := GetStage(id);
      if found.None? {
        return false;
      }
      SetStage(found.value, entries[found.value].renderer.(status := Succeeded(msg)));
      finishedStages := finishedStages + {id};
      failedStages := failedStages - {id};
      updated := UpdateState();
    }

    method FailById(id: string) returns (updated: bool)
      requires Valid()
      modifies this, layout
      ensures Valid()
      ensures (Value(), updated) == ById(old(Value()), FailCall(id))
    {
      var found := GetStage(id);
      if found.None? {
        return false;
      }
      assert entries[found.value] in entries;
      var r := InsertFailure(layout, entries[found.value].renderer);
      SetStage(found.value, r);
      finishedStages := finishedStages - {id};
      failedStages := failedStages + {id};
      updated := UpdateState();
    }

    method SkipById(id: string, msg: string) returns (updated: bool)
      requires Valid()
      modifies this, layout
      ensures Valid()
      ensures (Value(), updated) == ById(old(Value()), SkipCall(id, msg))
    {
      var found := GetStage(id);
      if found.None? {
        return false;
      }
      SetStage(found.value, entries[found.value].renderer.(status := Skipped(msg)));
      finishedStages := finishedStages + {id};
      failedStages := failedStages - {id};
      updated := UpdateState();
    }

    /** Replaces the renderer of one entry. */
    method SetStage(i: nat, r: Renderer)
      requires Valid() && i < |entries| && Placed(r, layout.order)
      modifies this`entries
      ensures Valid()
      ensures entries == old(entries)[i := old(entries)[i].(renderer := r)]
    {
      entries := entries[i := entries[i].(renderer := r)];
      forall e <- entries ensures Placed(e.renderer, layout.order) {
        if e != entries[i] {
          assert e in old(entries);
        }
      }
    }

    method CollectStageIds() returns (ids: seq<string>)
      ensures ids == StageIds(entries)
    {
      ids := [];
      assert entries[..0] == [];
      for i := 0 to |entries|
        invariant ids == StageIds(entries[..i])
      {
        assert entries[..i + 1][..i] == entries[..i];
        if entries[i].Stage? {
          ids := ids + [entries[i].id];
        }
      }
      assert entries[..|entries|] == entries;
    }

    method PerformOk(msg: string)
      requires Valid()
      modifies this, layout
      ensures Valid()
      ensures Value() == TaskValues.PerformOk(old(Value()), msg)
    {
      if isFinished {
        return;
      }
      var ids := CollectStageIds();
      if ids == [] {
        SetCompleted(msg);
      } else {
        ghost var calls := OkCalls(ids, msg);
        for i := 0 to |ids|
          invariant Valid()
          invariant Value() == ByIds(old(Value()), calls[..i])
        {
          assert calls[..i + 1][..i] == calls[..i];
          var updated := OkById(ids[i], msg);
        }
        assert calls[..|calls|] == calls;
      }
    }

    method PerformFail()
      requires Valid()
      modifies this, layout
      ensures Valid()
      ensures Value() == TaskValues.PerformFail(old(Value()))
    {
      if isFinished {
        return;
      }
      var ids := CollectStageIds();
      ghost var calls := FailCalls(ids);
      for i := 0 to |ids|
        invariant Valid()
        invariant Value() == ByIds(old(Value()), calls[..i])
      {
        assert calls[..i + 1][..i] == calls[..i];
        var updated := FailById(ids[i]);
      }
      assert calls[..|calls|] == calls;
      SetFailedAndClear();
    }

    method PerformRun()
      requires Valid()
      modifies this, layout
      ensures Valid()
      ensures Value() == TaskValues.PerformRun(old(Value()))
    {
      if isFinished {
        return;
      }
      var ids := CollectStageIds();
      ghost var calls := RunCalls(ids);
      for i := 0 to |ids|
        invariant Valid()
        invariant Value() == ByIds(old(Value()), calls[..i])
      {
        assert calls[..i + 1][..i] == calls[..i];
        var updated := RunById(ids[i]);
      }
      assert calls[..|calls|] == calls;
    }

    method PerformSkip(msg: string)
      requires Valid()
      modifies this, layout
      ensures Valid()
      ensures Value() == TaskValues.PerformSkip(old(Value()), msg)
    {
      if isFinished {
        return;
      }
      var ids := CollectStageIds();
      ghost var calls := SkipCalls(ids, msg);
      for i := 0 to |ids|
        invariant Valid()
        invariant Value() == ByIds(old(Value()), calls[..i])
      {
        assert calls[..i + 1][..i] == calls[..i];
        var updated := SkipById(ids[i], msg);
      }
      assert calls[..|calls|] == calls;
    }
  }

  /** A stage found in a prefix of the entries is the one found in all of them. */
  lemma {:induction false} FindStagePrefix(entries: seq<Entry>, n: nat, id: string)
    requires n <= |entries| && FindStage(entries[..n], id).Some?
    ensures FindStage(entries, id) == FindStage(entries[..n], id)
  {
    if n == |entries| {
      assert entries[..n] == entries;
    } else {
      assert entries[..|entries| - 1][..n] == entries[..n];
      FindStagePrefix(entries[..|entries| - 1], n, id);
    }
  }
}
