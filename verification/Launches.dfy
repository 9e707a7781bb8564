/** Launching the daemon and waiting until it answers. */
module Launches {
  import opened Decimals
  import opened Kernels
  import opened LockFiles
  import opened Processes
  import opened Recovery
  import opened Results

  /** The last step that did not work. */
  datatype LaunchError = SpawnFailed | NeverAppeared

  const RETRIES := 40

  /** Milliseconds. */
  const DELAY := 50

  /** `OfflineHandle::launch`. `spawned` is the PID of the child, if the binary could be executed;
      `answers(n)` says whether the n-th attempt to connect succeeds.

      At most 40 attempts with 50 ms between any two, stopping at the first success; if all 40 fail, and
      only then, the child is killed: the signal was sent, unless the child had exited or an I/O error
      came first. A child that could be spawned but not bound is left alone. */
  method Launch(env: Environment, m: Machine, spawned: Option<Pid>, name: string, answers: nat -> bool, graceful: nat)
    returns (r: Result<(), LaunchError>, m': Machine, binds: seq<Result<Process, ProcessError>>, bound: Option<Process>,
             attempts: nat, sleeps: nat, slept: nat, kills: nat, ghost starts: seq<Machine>, ghost ends: seq<Machine>)
    requires Sound(m.os) && |m.past| == m.now
    ensures Sound(m'.os) && Later(m.os, m'.os) && m.now <= m'.now
    ensures bound.None? <==> r == Err(SpawnFailed)
    ensures if spawned.None? then binds == [] && m' == m
            else Attempts(env, m, spawned.value, name, binds, starts, ends)
    ensures bound == if binds != [] && binds[|binds| - 1].Ok? then Some(binds[|binds| - 1].value) else None
    ensures bound.None? ==> attempts == sleeps == kills == 0 && m'.log == m.log
    ensures bound.Some? ==>
              && bound.value.metadata.pid == spawned.value && NamesMatch(bound.value.metadata.name, name)
              && 1 <= attempts <= 40 && sleeps == attempts - 1
              && (forall n: nat | n < attempts - 1 :: !answers(n))
              && (r.Ok? <==> answers(attempts - 1))
              && (r.Ok? ==> bound.value.handle < |m'.os.instances|
                            && MetadataOf(m'.os, bound.value.handle) == bound.value.metadata)
              && (r.Err? <==> forall n: nat | n < 40 :: !answers(n))
    ensures slept == 50 * sleeps
    ensures kills == if r == Err(NeverAppeared) then 1 else 0
    ensures kills == 0 ==> m'.log == m.log
    ensures kills == 1 ==>
              && m.log <= m'.log && IsAttempt(m'.log[|m.log|..], Kill, bound.value.handle, graceful)
              && (Sent(Kill, bound.value.handle) in m'.log[|m.log|..] || Exited(m'.os, bound.value.handle)
                  || Faulted(env, m.now, m'.now))
  {
    hide Attempts, Holder, NamesMatch, Sound, IsAttempt;
    m', binds, bound, attempts, sleeps, slept, kills := m, [], None, 0, 0, 0, 0;
    starts, ends := [], [];
    if spawned.None? {
      r := Err(SpawnFailed);
      return;
    }
    var process, pauses, paused;
    process, m', binds, pauses, paused, starts, ends := BindAfterSpawn(env, m', spawned.value, name);
    assert binds != [] by {
      BoundAtLeastOnce(env, m, spawned.value, name, binds, starts, ends);
    }
    if process.Err? {
      r := Err(SpawnFailed);
      return;
    }
    bound := Some(process.value);
    var retries := RETRIES;
    while true
      invariant 1 <= retries <= RETRIES && attempts == sleeps == RETRIES - retries && slept == sleeps * DELAY
      invariant forall n: nat | n < attempts :: !answers(n)
      decreases retries
    {
      attempts := attempts + 1;
      if answers(attempts - 1) {
        r := Ok(());
        return;
      }
      retries := retries - 1;
      if retries == 0 {
        ghost var before := m'.now;
        var killed;
        killed, m' := SignalAndWait(env, m', process.value.handle, Kill, graceful);
        kills := kills + 1;
        match killed {
          case Ok(exited) =>
            assert killed == if exited then Ok(true) else Ok(false);
            AttemptSends(m'.log[|m.log|..], Kill, process.value.handle, graceful);
          case Err(_) =>
        }
        assert Faulted(env, before, m'.now) ==> Faulted(env, m.now, m'.now);
        r := Err(NeverAppeared);
        return;
      }
      sleeps, slept := sleeps + 1, slept + DELAY;
    }
  }

  lemma BoundAtLeastOnce(env: Environment, m: Machine, pid: Pid, name: string, binds: seq<Result<Process, ProcessError>>,
                         starts: seq<Machine>, ends: seq<Machine>)
    requires Attempts(env, m, pid, name, binds, starts, ends)
    ensures 1 <= |binds| <= 20
  {
  }

  /** The next `connect` finds the launched daemon once it has written its PID: connected exactly while
      its socket answers, and otherwise hung, as this very process, exactly until it is reaped. */
  lemma LaunchedIsFound(w: World, process: Process, newline: string, expected: string)
    requires Sound(w.os) && process.handle < |w.os.instances| && MetadataOf(w.os, process.handle) == process.metadata
    requires process.metadata.pid < U32_RANGE && NamesMatch(process.metadata.name, expected) && AllWhitespace(newline)
    requires w.files.lock == Some(Text(Decimal(process.metadata.pid) + newline))
    ensures Classify(w, expected) == IsConnected <==> w.serving
    ensures Classify(w, expected) == IsHung(process.handle) <==>
              !w.serving && !w.os.instances[process.handle].life.Gone?
  {
    var pid := process.metadata.pid;
    WrittenPidIsRead(pid, newline);
    if !w.os.instances[process.handle].life.Gone? {
      assert Holds(w.os, process.handle, pid) && Holds(w.os, Holder(w.os, pid).value, pid);
    }
  }
}
