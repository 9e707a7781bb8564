/** What each operation of a task does to the display: which reports it inserts, what it hides, and when
    it leaves the layout alone. */
module TaskEffects {
  import opened Sequences
  import opened Layouts
  import opened Results
  import opened TaskValues
  import opened SequenceValues

  /** A failed stage gets one report right below its node, and shows the failure. */
  lemma FailedStageIsReported(w: World, id: string)
    requires FindStage(w.task.entries, id).Some?
    ensures var i := FindStage(w.task.entries, id).value;
            var w' := ById(w, FailCall(id)).0;
            var strategy := w.task.entries[i].renderer.strategy;
            && w'.layout == (if strategy.Interactive? then w.layout.InsertBelow(strategy.node) else w.layout)
            && w'.task.entries == w.task.entries[i := Stage(id, Renderer(Failed,
                 if strategy.Interactive? then Interactive(strategy.node, strategy.inserted + [w.layout.next]) else Plain))]
  {
    hide InsertAfter;
    var i := FindStage(w.task.entries, id).value;
    assert id in Mark(w, i, FailCall(id)).task.failedStages;
  }

  /** What a stage shows after a call other than a failure. */
  function StatusAfter(c: Call): Status
    requires !c.FailCall?
  {
    match c
    case RunCall(_) => Running
    case OkCall(_, msg) => Succeeded(msg)
    case SkipCall(_, msg) => Status.Skipped(msg)
  }

  /** The task completes with this call: it is the last stage that was not done. */
  predicate Completes(w: World, c: Call) {
    && !w.task.isFinished && (c.OkCall? || c.SkipCall?) && FindStage(w.task.entries, c.id).Some?
    && w.task.failedStages <= {c.id}
    && forall e <- w.task.entries :: e.Stage? ==> e.id in w.task.finishedStages || e.id == c.id
  }

  /** A call on an unknown id does nothing. */
  lemma UnknownIdDoesNothing(w: World, c: Call)
    requires FindStage(w.task.entries, c.id).None?
    ensures ById(w, c) == (w, false)
  {
  }

  lemma MarkCompletes(w: World, c: Call, i: nat)
    requires FindStage(w.task.entries, c.id) == Some(i) && !c.FailCall?
    ensures var t := Mark(w, i, c).task;
            !w.task.isFinished && t.failedStages == {} && AllFinished(t.entries, t.finishedStages) <==> Completes(w, c)
  {
    var t := Mark(w, i, c).task;
    assert forall e <- t.entries :: e == t.entries[i] || e in w.task.entries;
    forall e <- w.task.entries ensures e == w.task.entries[i] || e in t.entries {
      var k :| 0 <= k < |w.task.entries| && w.task.entries[k] == e;
      assert t.entries[k] == e || k == i;
    }
    assert t.entries[i] in t.entries && t.entries[i].Stage? && t.entries[i].id == c.id;
    if c.RunCall? {
      assert c.id !in t.finishedStages;
    }
  }

  /** A run, and an `ok` or `skip` that completes nothing, leave the layout as it is and change the status
      of their stage alone. */
  lemma QuietCallShowsStatus(w: World, c: Call)
    requires FindStage(w.task.entries, c.id).Some? && !c.FailCall? && !Completes(w, c)
    ensures var i := FindStage(w.task.entries, c.id).value;
            var w' := ById(w, c).0;
            && w'.layout == w.layout
            && w'.task.entries ==
               w.task.entries[i := w.task.entries[i].(renderer := w.task.entries[i].renderer.(status := StatusAfter(c)))]
  {
    var i := FindStage(w.task.entries, c.id).value;
    MarkCompletes(w, c, i);
    hide AllFinished, FindStage, ClearChildren, Completes;
  }

  /** Any series of runs touches no layout, and shows as running exactly the stages it names. */
  lemma {:induction false} RunsAreShown(w: World, ids: seq<string>, id: string)
    requires FindStage(w.task.entries, id).Some?
    ensures var w' := ByIds(w, RunCalls(ids));
            && w'.layout == w.layout && FindStage(w'.task.entries, id).Some?
            && StatusOf(w'.task.entries, id) == if id in ids then Some(Running) else StatusOf(w.task.entries, id)
  {
    if ids != [] {
      var front := ids[..|ids| - 1];
      RunsAreShown(w, front, id);
      assert RunCalls(ids)[..|ids| - 1] == RunCalls(front) && Last(RunCalls(ids)) == RunCall(Last(ids));
      assert id in ids <==> id in front || id == Last(ids);
      hide ById, StatusOf, FindStage;
      RunIsShown(ByIds(w, RunCalls(front)), Last(ids), id);
    }
  }

  lemma RunIsShown(w: World, ran: string, id: string)
    requires FindStage(w.task.entries, id).Some?
    ensures var w' := ById(w, RunCall(ran)).0;
            && w'.layout == w.layout && FindStage(w'.task.entries, id).Some?
            && StatusOf(w'.task.entries, id) == if id == ran then Some(Running) else StatusOf(w.task.entries, id)
  {
    if FindStage(w.task.entries, ran).None? {
      UnknownIdDoesNothing(w, RunCall(ran));
    } else {
      var i := FindStage(w.task.entries, ran).value;
      QuietCallShowsStatus(w, RunCall(ran));
      MarkedStatus(w, i, RunCall(ran), id);
      FindStageUpdate(w.task.entries, i, w.task.entries[i].renderer.(status := Running), id);
    }
  }

  /** After `perform_run` on an unfinished task every stage is running, and nothing visible has moved. */
  lemma BulkRunIsShown(w: World, id: string)
    requires !w.task.isFinished && id in StageIds(w.task.entries)
    ensures PerformRun(w).layout == w.layout && StatusOf(PerformRun(w).task.entries, id) == Some(Running)
  {
    StageIdsMembers(w.task.entries, id);
    RunsAreShown(w, StageIds(w.task.entries), id);
  }

  /** The call that completes a task hides every bar of every entry, with its reports, and nothing else;
      an anchor among them moves to the head, which shows success. */
  lemma CompletingCallClears(w: World, c: Call)
    requires Completes(w, c)
    ensures var w' := ById(w, c).0;
            && w'.layout.order == w.layout.order && w'.layout.next == w.layout.next
            && w'.layout.hidden == w.layout.hidden + (set n <- AllClearedNodes(w.task.entries))
            && w'.task.entries == [] && w'.task.isFinished
            && w'.task.renderer == w.task.renderer.(status := Succeeded("success"))
            && (w.task.renderer.strategy.Interactive? && w.layout.anchor.Some? ==>
                  w'.layout.anchor == Some(if w.layout.anchor.value in AllClearedNodes(w.task.entries)
                                           then w.task.renderer.strategy.node else w.layout.anchor.value))
  {
    var i := FindStage(w.task.entries, c.id).value;
    MarkCompletes(w, c, i);
    ClearedNodesUpdate(w.task.entries, i, Event(w.layout, w.task.entries[i].renderer, c).1);
    hide AllFinished, FindStage, Completes, AllClearedNodes;
  }

  lemma ClearedNodesSnoc(entries: seq<Entry>, e: Entry)
    ensures AllClearedNodes(entries + [e]) == AllClearedNodes(entries) + ClearedNodes(e.renderer)
  {
    assert (entries + [e])[..|entries|] == entries;
  }

  /** A change of status does not change what is to be cleared. */
  lemma {:induction false} ClearedNodesUpdate(entries: seq<Entry>, i: nat, r: Renderer)
    requires i < |entries| && r.strategy == entries[i].renderer.strategy
    ensures AllClearedNodes(entries[i := entries[i].(renderer := r)]) == AllClearedNodes(entries)
  {
    hide AllClearedNodes;
    var n := |entries| - 1;
    var front, e := entries[..n], entries[n];
    assert entries == front + [e];
    ClearedNodesSnoc(front, e);
    if i < n {
      ClearedNodesUpdate(front, i, r);
      var front' := front[i := front[i].(renderer := r)];
      assert entries[i := entries[i].(renderer := r)] == front' + [e];
      ClearedNodesSnoc(front', e);
    } else {
      assert entries[n := e.(renderer := r)] == front + [e.(renderer := r)];
      ClearedNodesSnoc(front, e.(renderer := r));
    }
  }

  /** The nodes to clear are exactly those of the entries: their bars and their reports. */
  lemma {:induction false} ClearedNodesMembers(entries: seq<Entry>, n: NodeId)
    ensures n in AllClearedNodes(entries) <==>
              exists e <- entries :: e.renderer.strategy.Interactive? &&
                                     (n == e.renderer.strategy.node || n in e.renderer.strategy.inserted)
  {
    if entries != [] {
      ClearedNodesMembers(entries[..|entries| - 1], n);
      assert entries == entries[..|entries| - 1] + [Last(entries)];
    }
  }

  /** A bulk failure ends with one report right below the head, everything else of the task hidden. */
  lemma BulkFailureIsReported(w: World)
    requires !w.task.isFinished && w.task.renderer.strategy.Interactive?
    ensures var w1 := ByIds(w, FailCalls(StageIds(w.task.entries)));
            var w' := PerformFail(w);
            && w1.task.renderer.strategy == w.task.renderer.strategy
            && w'.layout.order == InsertAfter(w1.layout.order, w.task.renderer.strategy.node, w1.layout.next)
            && w'.layout.hidden == w1.layout.hidden + (set n <- AllClearedNodes(w1.task.entries))
            && w'.task.renderer ==
               Renderer(Failed, Interactive(w.task.renderer.strategy.node,
                                            w.task.renderer.strategy.inserted + [w1.layout.next]))
            && w'.task.entries == []
  {
    hide InsertAfter, ByIds, AllClearedNodes, StageIds;
    CallsKeepHeadStrategy(w, FailCalls(StageIds(w.task.entries)));
  }

  lemma CallKeepsHeadStrategy(w: World, c: Call)
    ensures ById(w, c).0.task.renderer.strategy == w.task.renderer.strategy
  {
    hide InsertAfter, FindStage, AllFinished, AllClearedNodes;
  }

  lemma {:induction false} CallsKeepHeadStrategy(w: World, calls: seq<Call>)
    ensures ByIds(w, calls).task.renderer.strategy == w.task.renderer.strategy
  {
    hide ById;
    if calls != [] {
      CallsKeepHeadStrategy(w, calls[..|calls| - 1]);
      CallKeepsHeadStrategy(ByIds(w, calls[..|calls| - 1]), Last(calls));
    }
  }

  /** Skips on a finished task leave the layout as it is. */
  lemma {:induction false} LateSkipsAreQuiet(w: World, calls: seq<Call>)
    requires w.task.isFinished && forall c <- calls :: c.SkipCall?
    ensures ByIds(w, calls).layout == w.layout && ByIds(w, calls).task.isFinished
  {
    if calls != [] {
      var front := calls[..|calls| - 1];
      assert forall c <- front :: c in calls;
      assert Last(calls) in calls;
      LateSkipsAreQuiet(w, front);
      var w1 := ByIds(w, front);
      if FindStage(w1.task.entries, Last(calls).id).Some? {
        QuietCallShowsStatus(w1, Last(calls));
      }
    }
  }

  /** A failed sequence reports below its current stage, and nowhere else. */
  lemma FailedSequenceIsReported(s: SequenceValue)
    requires s.currentStage < |s.allIds| && FindStage(s.inner.task.entries, s.allIds[s.currentStage]).Some?
    ensures var r := s.inner.task.entries[FindStage(s.inner.task.entries, s.allIds[s.currentStage]).value].renderer;
            Fail(s).inner.layout ==
            if r.strategy.Interactive? then s.inner.layout.InsertBelow(r.strategy.node) else s.inner.layout
  {
    var c := FailCall(s.allIds[s.currentStage]);
    FailedStageIsReported(s.inner, c.id);
    FailureFinishes(s.inner, c.id);
    hide InsertAfter, ById, FindStage;
    if s.currentStage + 1 < |s.allIds| {
      LateSkipsAreQuiet(ById(s.inner, c).0, SkipCalls(s.allIds[s.currentStage + 1..], "skipped due to previous error"));
    }
  }

  lemma FailureFinishes(w: World, id: string)
    requires FindStage(w.task.entries, id).Some?
    ensures ById(w, FailCall(id)).0.task.isFinished
  {
    hide InsertAfter;
    var i := FindStage(w.task.entries, id).value;
    assert id in Mark(w, i, FailCall(id)).task.failedStages;
  }
}
