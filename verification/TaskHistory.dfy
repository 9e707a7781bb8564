/** What a task's history of calls determines: its two sets are the last writes per stage, and its
    verdict is given by the first call that fails a known stage or completes the last one. */
module TaskHistory {
  import opened Sequences
  import opened Layouts
  import opened Results
  import opened TaskValues

  predicate Fresh(t: TaskValue) {
    t.finishedStages == {} && t.failedStages == {} && !t.isFinished
  }

  /** The latest call on `id`. */
  function LastWrite(calls: seq<Call>, id: string): Option<Call> {
    if calls == [] then None
    else if Last(calls).id == id then Some(Last(calls))
    else LastWrite(calls[..|calls| - 1], id)
  }

  predicate IsDone(write: Option<Call>) {
    write.Some? && (write.value.OkCall? || write.value.SkipCall?)
  }

  function IdSet(ids: seq<string>): set<string> {
    set id <- ids
  }

  function DoneBy(ids: seq<string>, calls: seq<Call>): set<string> {
    set id <- ids | IsDone(LastWrite(calls, id))
  }

  function FailedBy(ids: seq<string>, calls: seq<Call>): set<string> {
    set id <- ids | LastWrite(calls, id).Some? && LastWrite(calls, id).value.FailCall?
  }

  /** The last call fails a known stage, or leaves every stage done. */
  predicate Settles(ids: seq<string>, calls: seq<Call>) {
    && calls != []
    && Last(calls).id in ids
    && (Last(calls).FailCall? || forall id <- ids :: IsDone(LastWrite(calls, id)))
  }

  /** The length of the shortest history that settles, if any prefix does. */
  function SettledAt(ids: seq<string>, calls: seq<Call>): (r: Option<nat>)
    ensures r.Some? ==> 0 < r.value <= |calls| && Settles(ids, calls[..r.value])
    ensures forall m: nat :: m <= |calls| && (r.None? || m < r.value) ==> !Settles(ids, calls[..m])
  {
    if calls == [] then None
    else
      var n := |calls| - 1;
      var front := SettledAt(ids, calls[..n]);
      assert calls[..n + 1] == calls;
      assert forall m: nat :: m <= n ==> calls[..n][..m] == calls[..m];
      if front.Some? then front
      else if Settles(ids, calls) then Some(n + 1)
      else None
  }

  /** The task `w` is what the history `calls` makes of the fresh task `w0`. */
  ghost predicate Tracks(w0: World, w: World, calls: seq<Call>) {
    var ids, t := StageIds(w0.task.entries), w.task;
    match SettledAt(ids, calls)
    case None =>
      && !t.isFinished
      && t.renderer.status == w0.task.renderer.status
      && StageIds(t.entries) == ids
      && t.finishedStages == DoneBy(ids, calls)
      && t.failedStages == FailedBy(ids, calls) == {}
    case Some(m) =>
      && t.isFinished
      && if calls[m - 1].FailCall? then
           && t.renderer.status == Failed
           && StageIds(t.entries) == ids
           && t.finishedStages == DoneBy(ids, calls)
           && t.failedStages == FailedBy(ids, calls)
         else
           && t.renderer.status == Succeeded("success")
           && t.entries == []
           && t.finishedStages == DoneBy(ids, calls[..m]) == IdSet(ids)
           && t.failedStages == {}
  }

  lemma DoneBySnoc(ids: seq<string>, calls: seq<Call>, c: Call)
    ensures DoneBy(ids, calls + [c]) ==
            if c.id !in ids then DoneBy(ids, calls)
            else if c.OkCall? || c.SkipCall? then DoneBy(ids, calls) + {c.id}
            else DoneBy(ids, calls) - {c.id}
    ensures FailedBy(ids, calls + [c]) ==
            if c.id !in ids then FailedBy(ids, calls)
            else if c.FailCall? then FailedBy(ids, calls) + {c.id}
            else FailedBy(ids, calls) - {c.id}
    ensures forall id :: LastWrite(calls + [c], id) == if c.id == id then Some(c) else LastWrite(calls, id)
  {
    assert (calls + [c])[..|calls|] == calls;
  }

  lemma SettledAtSnoc(ids: seq<string>, calls: seq<Call>, c: Call)
    ensures SettledAt(ids, calls + [c]) ==
            if SettledAt(ids, calls).Some? then SettledAt(ids, calls)
            else if Settles(ids, calls + [c]) then Some(|calls| + 1)
            else None
  {
    assert (calls + [c])[..|calls|] == calls;
  }

  /** A call on an id that is not among the entries. */
  lemma UnknownCallTracks(w0: World, w: World, calls: seq<Call>, c: Call)
    requires Tracks(w0, w, calls) && FindStage(w.task.entries, c.id).None?
    ensures Tracks(w0, w, calls + [c])
  {
    var ids, settled := StageIds(w0.task.entries), SettledAt(StageIds(w0.task.entries), calls);
    DoneBySnoc(ids, calls, c);
    SettledAtSnoc(ids, calls, c);
    StageIdsMembers(w.task.entries, c.id);
    assert Last(calls + [c]) == c;
    hide SettledAt, StageIds, DoneBy, FailedBy, LastWrite, FindStage;
    if settled.Some? {
      assert (calls + [c])[..settled.value] == calls[..settled.value];
      assert (calls + [c])[settled.value - 1] == calls[settled.value - 1];
    }
  }

  /** A call on a stage of a task that is finished already, so that its entries are still there. */
  lemma LateCallTracks(w0: World, w: World, calls: seq<Call>, c: Call)
    requires Tracks(w0, w, calls) && FindStage(w.task.entries, c.id).Some? && w.task.isFinished
    ensures Tracks(w0, ById(w, c).0, calls + [c]) && !ById(w, c).1
  {
    var ids, settled := StageIds(w0.task.entries), SettledAt(StageIds(w0.task.entries), calls);
    DoneBySnoc(ids, calls, c);
    SettledAtSnoc(ids, calls, c);
    StageIdsMembers(w.task.entries, c.id);
    var i := FindStage(w.task.entries, c.id).value;
    StageIdsUpdate(w.task.entries, i, Event(w.layout, w.task.entries[i].renderer, c).1);
    hide SettledAt, StageIds, DoneBy, FailedBy, LastWrite;
    assert (calls + [c])[..settled.value] == calls[..settled.value];
    assert (calls + [c])[settled.value - 1] == calls[settled.value - 1];
  }

  /** A call on a stage of an unfinished task. */
  lemma LiveCallTracks(w0: World, w: World, calls: seq<Call>, c: Call)
    requires Tracks(w0, w, calls) && FindStage(w.task.entries, c.id).Some? && !w.task.isFinished
    ensures Tracks(w0, ById(w, c).0, calls + [c]) && ById(w, c).1
  {
    var ids, t := StageIds(w0.task.entries), w.task;
    DoneBySnoc(ids, calls, c);
    SettledAtSnoc(ids, calls, c);
    StageIdsMembers(t.entries, c.id);
    var i := FindStage(t.entries, c.id).value;
    var marked := Mark(w, i, c);
    StageIdsUpdate(t.entries, i, Event(w.layout, t.entries[i].renderer, c).1);
    AllFinishedIds(marked.task.entries, marked.task.finishedStages);
    assert (calls + [c])[|calls|] == c && Last(calls + [c]) == c;
    assert (calls + [c])[..|calls| + 1] == calls + [c];
    hide SettledAt, StageIds, LastWrite;
  }

  /** One more call, and what it returns. */
  lemma CallTracks(w0: World, w: World, calls: seq<Call>, c: Call)
    requires Tracks(w0, w, calls)
    ensures Tracks(w0, ById(w, c).0, calls + [c])
    ensures ById(w, c).1 <==>
            c.id in StageIds(w0.task.entries) && SettledAt(StageIds(w0.task.entries), calls).None?
  {
    StageIdsMembers(w.task.entries, c.id);
    hide StageIds, SettledAt, FindStage, DoneBy, FailedBy;
    if FindStage(w.task.entries, c.id).None? {
      UnknownCallTracks(w0, w, calls, c);
    } else if w.task.isFinished {
      LateCallTracks(w0, w, calls, c);
    } else {
      LiveCallTracks(w0, w, calls, c);
    }
  }

  lemma FreshTracks(w0: World)
    requires Fresh(w0.task)
    ensures Tracks(w0, w0, [])
  {
  }

  /** The two sets and the verdict of a task after any history of calls. */
  lemma {:induction false} HistoryDeterminesTask(w0: World, calls: seq<Call>)
    requires Fresh(w0.task)
    ensures Tracks(w0, ByIds(w0, calls), calls)
  {
    hide Tracks, Fresh, ById, StageIds, SettledAt;
    if calls == [] {
      FreshTracks(w0);
    } else {
      var front := calls[..|calls| - 1];
      HistoryDeterminesTask(w0, front);
      CallTracks(w0, ByIds(w0, front), front, Last(calls));
      assert calls == front + [Last(calls)];
    }
  }

  lemma {:induction false} ByIdsConcat(w: World, calls: seq<Call>, more: seq<Call>)
    ensures ByIds(w, calls + more) == ByIds(ByIds(w, calls), more)
  {
    if more == [] {
      assert calls + more == calls;
    } else {
      ByIdsConcat(w, calls, more[..|more| - 1]);
      assert (calls + more)[..|calls + more| - 1] == calls + more[..|more| - 1];
    }
  }

  /** A settled history stays settled at the same call. */
  lemma SettledPrefix(ids: seq<string>, calls: seq<Call>, more: seq<Call>)
    requires SettledAt(ids, calls).Some?
    ensures SettledAt(ids, calls + more) == SettledAt(ids, calls)
  {
    hide SettledAt, Settles;
    var m, longer := SettledAt(ids, calls).value, SettledAt(ids, calls + more);
    assert forall n: nat | n <= |calls| :: (calls + more)[..n] == calls[..n];
    assert (calls + more)[..m] == calls[..m];
  }

  /** The verdict is latched: no later call changes it or brings cleared entries back. */
  lemma VerdictIsLatched(w0: World, calls: seq<Call>, more: seq<Call>)
    requires Fresh(w0.task) && ByIds(w0, calls).task.isFinished
    ensures ByIds(w0, calls + more).task.isFinished
    ensures ByIds(w0, calls + more).task.renderer.status == ByIds(w0, calls).task.renderer.status
    ensures ByIds(w0, calls).task.entries == [] ==> ByIds(w0, calls + more) == ByIds(w0, calls)
  {
    var ids := StageIds(w0.task.entries);
    HistoryDeterminesTask(w0, calls);
    HistoryDeterminesTask(w0, calls + more);
    SettledPrefix(ids, calls, more);
    var m := SettledAt(ids, calls).value;
    assert (calls + more)[m - 1] == calls[m - 1];
    ByIdsConcat(w0, calls, more);
    if ByIds(w0, calls).task.entries == [] {
      NoStageNoEffect(ByIds(w0, calls), more);
    }
  }

  lemma {:induction false} NoStageNoEffect(w: World, calls: seq<Call>)
    requires w.task.entries == []
    ensures ByIds(w, calls) == w
  {
    if calls != [] {
      NoStageNoEffect(w, calls[..|calls| - 1]);
    }
  }

  /** Without a settling call, some stage is not done. */
  lemma {:induction false} UnsettledLacksAStage(ids: seq<string>, calls: seq<Call>)
    requires ids != [] && SettledAt(ids, calls).None?
    ensures exists id <- ids :: !IsDone(LastWrite(calls, id))
  {
    if calls == [] {
      assert ids[0] in ids && !IsDone(LastWrite(calls, ids[0]));
    } else if Last(calls).id !in ids {
      var front := calls[..|calls| - 1];
      UnsettledLacksAStage(ids, front);
      var id :| id in ids && !IsDone(LastWrite(front, id));
      assert LastWrite(calls, id) == LastWrite(front, id);
    } else {
      assert calls[..|calls|] == calls;
    }
  }

  /** After any history: the sets are disjoint and within the original ids; an unfinished task has no
      failed stage and, if it has stages, one that is not done. */
  lemma SetsAreSound(w0: World, calls: seq<Call>)
    requires Fresh(w0.task)
    ensures var ids, t := StageIds(w0.task.entries), ByIds(w0, calls).task;
            && t.finishedStages !! t.failedStages
            && t.finishedStages + t.failedStages <= IdSet(ids)
            && (!t.isFinished ==> t.failedStages == {} && (ids != [] ==> t.finishedStages != IdSet(ids)))
  {
    var ids, t := StageIds(w0.task.entries), ByIds(w0, calls).task;
    HistoryDeterminesTask(w0, calls);
    if !t.isFinished && ids != [] {
      UnsettledLacksAStage(ids, calls);
      var id :| id in ids && !IsDone(LastWrite(calls, id));
      assert id in IdSet(ids);
    }
  }

  // ---------------------------------------------------------------- bulk operations

  /** One call per stage, in order. */
  predicate IsBulk(bulk: seq<Call>, ids: seq<string>) {
    |bulk| == |ids| && forall i :: 0 <= i < |ids| ==> bulk[i].id == ids[i]
  }

  /** After a bulk every stage's last write is the bulk's. */
  lemma {:induction false} BulkWritesAll(calls: seq<Call>, bulk: seq<Call>, id: string)
    ensures (exists i :: 0 <= i < |bulk| && bulk[i].id == id) ==>
              LastWrite(calls + bulk, id).Some? && LastWrite(calls + bulk, id).value in bulk
    ensures !(exists i :: 0 <= i < |bulk| && bulk[i].id == id) ==>
              LastWrite(calls + bulk, id) == LastWrite(calls, id)
  {
    if bulk == [] {
      assert calls + bulk == calls;
    } else {
      var front := bulk[..|bulk| - 1];
      assert (calls + bulk)[..|calls + bulk| - 1] == calls + front;
      BulkWritesAll(calls, front, id);
      if i :| 0 <= i < |bulk| && bulk[i].id == id {
        if Last(bulk).id != id {
          assert front[i].id == id;
        }
      }
      assert Last(bulk) in bulk;
      assert forall c <- front :: c in bulk;
    }
  }

  lemma BulkWrites(ids: seq<string>, calls: seq<Call>, bulk: seq<Call>)
    requires IsBulk(bulk, ids)
    ensures forall id <- ids :: LastWrite(calls + bulk, id).Some? && LastWrite(calls + bulk, id).value in bulk
  {
    forall id <- ids ensures LastWrite(calls + bulk, id).Some? && LastWrite(calls + bulk, id).value in bulk {
      var i :| 0 <= i < |ids| && ids[i] == id;
      assert bulk[i].id == id;
      BulkWritesAll(calls, bulk, id);
    }
  }

  /** The call that settles an unsettled history extended by a bulk is one of the bulk. */
  lemma SettledInBulk(ids: seq<string>, calls: seq<Call>, bulk: seq<Call>)
    requires SettledAt(ids, calls).None? && SettledAt(ids, calls + bulk).Some?
    ensures SettledAt(ids, calls + bulk).value > |calls|
    ensures (calls + bulk)[SettledAt(ids, calls + bulk).value - 1] in bulk
  {
    hide SettledAt, Settles;
    var m := SettledAt(ids, calls + bulk).value;
    assert forall n: nat | n <= |calls| :: (calls + bulk)[..n] == calls[..n];
    assert (calls + bulk)[m - 1] == bulk[m - 1 - |calls|];
  }

  /** A bulk that marks every stage done settles the history by one of its own calls. */
  lemma DoneBulkSettles(ids: seq<string>, calls: seq<Call>, bulk: seq<Call>)
    requires SettledAt(ids, calls).None? && ids != [] && IsBulk(bulk, ids)
    requires forall c <- bulk :: c.OkCall? || c.SkipCall?
    ensures SettledAt(ids, calls + bulk).Some?
    ensures !(calls + bulk)[SettledAt(ids, calls + bulk).value - 1].FailCall?
  {
    BulkWrites(ids, calls, bulk);
    assert Last(calls + bulk) == Last(bulk) && Last(bulk).id == Last(ids);
    assert (calls + bulk)[..|calls + bulk|] == calls + bulk;
    assert Settles(ids, calls + bulk);
    hide SettledAt, LastWrite, IsBulk, Settles;
    SettledInBulk(ids, calls, bulk);
  }

  /** Marking every stage done settles the task as a success. */
  lemma DoneBulkSucceeds(w0: World, calls: seq<Call>, bulk: seq<Call>)
    requires Fresh(w0.task) && !ByIds(w0, calls).task.isFinished
    requires StageIds(w0.task.entries) != [] && IsBulk(bulk, StageIds(w0.task.entries))
    requires forall c <- bulk :: c.OkCall? || c.SkipCall?
    ensures var t := ByIds(ByIds(w0, calls), bulk).task;
            && t.isFinished && t.renderer.status == Succeeded("success") && t.entries == []
            && t.finishedStages == IdSet(StageIds(w0.task.entries)) && t.failedStages == {}
  {
    hide SettledAt, ByIds, DoneBy, FailedBy, IdSet, StageIds, IsBulk, Fresh;
    ByIdsConcat(w0, calls, bulk);
    HistoryDeterminesTask(w0, calls);
    HistoryDeterminesTask(w0, calls + bulk);
    DoneBulkSettles(StageIds(w0.task.entries), calls, bulk);
  }

  /** `perform_ok` ends finished and successful, from any reachable unfinished task. */
  lemma PerformOkSucceeds(w0: World, calls: seq<Call>, msg: string)
    requires Fresh(w0.task) && !ByIds(w0, calls).task.isFinished
    ensures var ids, t := StageIds(w0.task.entries), PerformOk(ByIds(w0, calls), msg).task;
            && t.isFinished && t.entries == []
            && t.renderer.status == Succeeded(if ids == [] then msg else "success")
            && t.finishedStages == IdSet(ids) && t.failedStages == {}
  {
    HistoryDeterminesTask(w0, calls);
    if StageIds(w0.task.entries) != [] {
      DoneBulkSucceeds(w0, calls, OkCalls(StageIds(w0.task.entries), msg));
    }
  }

  /** `perform_skip` finishes a reachable unfinished task, successfully, iff it has a stage. */
  lemma PerformSkipSucceeds(w0: World, calls: seq<Call>, msg: string)
    requires Fresh(w0.task) && !ByIds(w0, calls).task.isFinished
    ensures var ids, w := StageIds(w0.task.entries), PerformSkip(ByIds(w0, calls), msg);
            if ids == [] then w == ByIds(w0, calls)
            else w.task.isFinished && w.task.renderer.status == Succeeded("success") && w.task.entries == []
                 && w.task.finishedStages == IdSet(ids) && w.task.failedStages == {}
  {
    HistoryDeterminesTask(w0, calls);
    if StageIds(w0.task.entries) != [] {
      DoneBulkSucceeds(w0, calls, SkipCalls(StageIds(w0.task.entries), msg));
    }
  }

  lemma RunDoesNotSettle(ids: seq<string>, calls: seq<Call>)
    requires calls != [] && Last(calls).RunCall?
    ensures !Settles(ids, calls)
  {
    assert LastWrite(calls, Last(calls).id) == Some(Last(calls));
  }

  /** Running every stage settles nothing and leaves no stage done or failed. */
  lemma RunBulkUnsettled(ids: seq<string>, calls: seq<Call>, bulk: seq<Call>)
    requires SettledAt(ids, calls).None? && IsBulk(bulk, ids) && forall c <- bulk :: c.RunCall?
    ensures SettledAt(ids, calls + bulk).None?
    ensures DoneBy(ids, calls + bulk) == {} && FailedBy(ids, calls + bulk) == {}
  {
    BulkWrites(ids, calls, bulk);
    hide SettledAt, IsBulk, Settles, LastWrite;
    if SettledAt(ids, calls + bulk).Some? {
      SettledInBulk(ids, calls, bulk);
      RunDoesNotSettle(ids, (calls + bulk)[..SettledAt(ids, calls + bulk).value]);
    }
  }

  /** `perform_run` never finishes the task and empties the done set. */
  lemma PerformRunReopens(w0: World, calls: seq<Call>)
    requires Fresh(w0.task) && !ByIds(w0, calls).task.isFinished
    ensures var ids, t := StageIds(w0.task.entries), PerformRun(ByIds(w0, calls)).task;
            && !t.isFinished && StageIds(t.entries) == ids
            && t.finishedStages == {} && t.failedStages == {}
  {
    hide SettledAt, ByIds, DoneBy, FailedBy, IdSet, StageIds, Fresh;
    var ids := StageIds(w0.task.entries);
    ByIdsConcat(w0, calls, RunCalls(ids));
    HistoryDeterminesTask(w0, calls);
    HistoryDeterminesTask(w0, calls + RunCalls(ids));
    RunBulkUnsettled(ids, calls, RunCalls(ids));
  }

  /** A bulk that fails every stage settles the history by one of its own calls. */
  lemma FailBulkSettles(ids: seq<string>, calls: seq<Call>, bulk: seq<Call>)
    requires SettledAt(ids, calls).None? && ids != [] && IsBulk(bulk, ids) && forall c <- bulk :: c.FailCall?
    ensures SettledAt(ids, calls + bulk).Some?
    ensures (calls + bulk)[SettledAt(ids, calls + bulk).value - 1].FailCall?
  {
    assert Last(calls + bulk) == Last(bulk) && Last(bulk).id == Last(ids);
    assert Last(bulk) in bulk && Last(ids) in ids;
    hide SettledAt, LastWrite, IsBulk;
    assert (calls + bulk)[..|calls + bulk|] == calls + bulk;
    assert Settles(ids, calls + bulk);
    SettledInBulk(ids, calls, bulk);
  }

  lemma FailBulkWrites(ids: seq<string>, calls: seq<Call>, bulk: seq<Call>)
    requires IsBulk(bulk, ids) && forall c <- bulk :: c.FailCall?
    ensures DoneBy(ids, calls + bulk) == {} && FailedBy(ids, calls + bulk) == IdSet(ids)
  {
    BulkWrites(ids, calls, bulk);
    hide LastWrite, IsBulk;
  }

  /** Failing every stage settles the task as a failure, unless there is no stage. */
  lemma FailBulkFails(w0: World, calls: seq<Call>, bulk: seq<Call>)
    requires Fresh(w0.task) && !ByIds(w0, calls).task.isFinished
    requires IsBulk(bulk, StageIds(w0.task.entries)) && forall c <- bulk :: c.FailCall?
    ensures var ids, t := StageIds(w0.task.entries), ByIds(ByIds(w0, calls), bulk).task;
            && (t.isFinished <==> ids != [])
            && t.failedStages == IdSet(ids) && t.finishedStages == {}
            && StageIds(t.entries) == ids
  {
    var ids := StageIds(w0.task.entries);
    assert ids == [] ==> bulk == [];
    hide SettledAt, ByIds, DoneBy, FailedBy, IdSet, StageIds, Fresh, IsBulk;
    ByIdsConcat(w0, calls, bulk);
    HistoryDeterminesTask(w0, calls);
    HistoryDeterminesTask(w0, calls + bulk);
    FailBulkWrites(ids, calls, bulk);
    if ids == [] {
      assert calls + bulk == calls;
    } else {
      FailBulkSettles(ids, calls, bulk);
    }
  }

  /** `perform_fail` ends failed, with every stage in the failed set and no entries left. */
  lemma PerformFailFails(w0: World, calls: seq<Call>)
    requires Fresh(w0.task) && !ByIds(w0, calls).task.isFinished
    ensures var ids, t := StageIds(w0.task.entries), PerformFail(ByIds(w0, calls)).task;
            && t.isFinished && t.renderer.status == Failed && t.entries == []
            && t.failedStages == IdSet(ids) && t.finishedStages == {}
  {
    HistoryDeterminesTask(w0, calls);
    FailBulkFails(w0, calls, FailCalls(StageIds(w0.task.entries)));
  }
}
