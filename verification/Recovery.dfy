/** Connecting to the daemon, and the ladder back to a clean start: kill, clean, launch. */
module Recovery {
  import opened Decimals
  import opened Kernels
  import opened LockFiles
  import opened Processes
  import opened Results

  /** The daemon's artefacts in the runtime directory. */
  datatype Files = Files(lock: Option<Content>, socket: bool)

  datatype ConnectState =
    | Offline
    | Stale
    | Connected
    | Hung(process: Process)

  // ---------------------------------------------------------------- connect

  /** What shows that no daemon runs under a PID: at some moment nobody held it, or a reading was of
      another name or of a different process than the one before. */
  ghost predicate Refuted(past: seq<Os>, from: nat, pid: Pid, expected: string) {
    || (exists k: nat :: from <= k < |past| && Holder(past[k], pid).None?)
    || (exists actual: string :: Mismatched(past, from, pid, expected, actual))
  }

  /** What `connect` sees of the runtime directory, each at its own moment: whether the lock exists,
      whether the socket exists, whether the socket answers, and what the lock file contains. */
  datatype Sightings = Sightings(lock: bool, socket: bool, answers: bool, content: Content)

  /** All four at one moment. */
  predicate SeenAtOnce(seen: Sightings, files: Files, serving: bool) {
    && seen.lock == files.lock.Some? && seen.socket == files.socket && seen.answers == serving
    && (files.lock.Some? ==> seen.content == files.lock.value)
  }

  /** `ClientBuilder::connect`. */
  method Connect(env: Environment, m: Machine, seen: Sightings, expected: string)
    returns (r: Result<ConnectState, ProcessError>, m': Machine)
    requires Sound(m.os) && |m.past| == m.now
    ensures Sound(m'.os) && Later(m.os, m'.os) && m'.log == m.log && m.now <= m'.now == |m'.past|
    ensures r == Ok(Offline) <==> !seen.lock && !seen.socket
    ensures r == Ok(Connected) <==> seen.lock && seen.answers
    ensures r.Ok? && r.value.Hung? <==>
              && seen.lock && !seen.answers && ReadAsU32(seen.content).Some?
              && BindSucceeds(env, m, ReadAsU32(seen.content).value, expected)
    ensures r.Ok? && r.value.Hung? ==>
              var process := r.value.process;
              && ReadAsU32(seen.content) == Some(process.metadata.pid)
              && process.handle < |m'.os.instances| && MetadataOf(m'.os, process.handle) == process.metadata
              && NamesMatch(process.metadata.name, expected)
    ensures r.Err? ==> r.error == Io && Faulted(env, m.now, m'.now)
    ensures r == Ok(Stale) && seen.lock && ReadAsU32(seen.content).Some? ==>
              Refuted(m'.past, m.now, ReadAsU32(seen.content).value, expected)
    ensures Undisturbed(env, m.now) ==>
              && r.Ok? && m'.os == m.os
              && forall files, serving | SeenAtOnce(seen, files, serving) ::
                   KindOf(r.value) == Classify(World(files, serving, m.os), expected)
  {
    hide Sound, Holder, NamesMatch, BindSucceeds, Faulted, Still, ReadAsU32;
    m' := m;
    if !seen.lock {
      if seen.socket {
        return Ok(Stale), m';
      }
      return Ok(Offline), m';
    }
    if seen.answers {
      return Ok(Connected), m';
    }
    var daemonPid := ReadAsU32(seen.content);
    if daemonPid.None? {
      return Ok(Stale), m';
    }
    UndisturbedBind(env, m, daemonPid.value, expected);
    var bound;
    bound, m' := Bind(env, m, daemonPid.value, expected);
    match bound {
      case Ok(process) => r := Ok(Hung(process));
      case Err(NotRunning) => r := Ok(Stale);
      case Err(Reused) => r := Ok(Stale);
      case Err(Mismatch(_, _)) => r := Ok(Stale);
      case Err(Io) => r := Err(Io);
    }
  }

  /** The system stands still, and nothing fails, for the three actions of a bind. */
  ghost predicate Undisturbed(env: Environment, now: nat) {
    Still(env, now, now + 3) && !Faulted(env, now, now + 3)
  }

  /** What `connect` can tell apart when nothing interferes. */
  datatype Kind = IsConnected | IsOffline | IsStale | IsHung(i: InstanceId)

  function KindOf(s: ConnectState): Kind {
    match s
    case Offline => IsOffline
    case Stale => IsStale
    case Connected => IsConnected
    case Hung(process) => IsHung(process.handle)
  }

  datatype World = World(files: Files, serving: bool, os: Os)

  /** Which process the lock file names, if it runs under the daemon's name. */
  function Owner(w: World, expected: string): Option<InstanceId> {
    if w.files.lock.None? || ReadAsU32(w.files.lock.value).None? then None
    else
      var holder := Holder(w.os, ReadAsU32(w.files.lock.value).value);
      if holder.Some? && NamesMatch(w.os.instances[holder.value].name, expected) then holder else None
  }

  function Classify(w: World, expected: string): Kind {
    if w.files == Files(None, false) then IsOffline
    else if w.files.lock.Some? && w.serving then IsConnected
    else if Owner(w, expected).Some? then IsHung(Owner(w, expected).value)
    else IsStale
  }

  lemma UndisturbedBind(env: Environment, m: Machine, pid: Pid, expected: string)
    ensures Undisturbed(env, m.now) ==>
              && Kernels.Advance(env, m).os == m.os
              && (forall to: nat | to <= m.now + 3 :: !Faulted(env, m.now, to))
              && (BindSucceeds(env, m, pid, expected) <==>
                  Holder(m.os, pid).Some? && NamesMatch(m.os.instances[Holder(m.os, pid).value].name, expected))
  {
    hide Holder, NamesMatch;
    if !Undisturbed(env, m.now) {
      return;
    }
    var m1 := Kernels.Advance(env, m);
    var m2 := Kernels.Advance(env, m1);
    var m3 := Kernels.Advance(env, m2);
    assert env(m.now).steps == [] && env(m1.now).steps == [] && env(m2.now).steps == [];
    assert m1.os == m.os && m2.os == m.os && m3.os == m.os;
    assert !env(m.now).ioError && !env(m1.now).ioError && !env(m2.now).ioError;
  }

  // ---------------------------------------------------------------- clean

  /** Which of the two deletions the file system refuses. */
  datatype Refusals = Refusals(socket: bool, lock: bool)

  function Cleaned(files: Files, refusals: Refusals): (bool, Files) {
    if files.socket && refusals.socket then (false, files)
    else if refusals.lock then (false, files.(socket := false))
    else (true, Files(None, false))
  }

  class RuntimeDir {
    var lock: Option<Content>
    var socket: bool

    constructor (lock: Option<Content>, socket: bool)
      ensures Contents() == Files(lock, socket)
    {
      this.lock := lock;
      this.socket := socket;
    }

    function Contents(): Files
      reads this
    {
      Files(lock, socket)
    }

    method RemoveSocket(refused: bool) returns (ok: bool)
      modifies this`socket
      ensures ok == !refused && socket == (old(socket) && refused)
    {
      ok := !refused;
      if ok {
        socket := false;
      }
    }

    method RemoveLock(refused: bool) returns (ok: bool)
      modifies this`lock
      ensures ok == !refused && lock == if refused then old(lock) else None
    {
      ok := !refused;
      if ok {
        lock := None;
      }
    }

    /** `StaleHandle::clean`: the socket first, and the lock only when the socket is gone. */
    method Clean(refusals: Refusals) returns (ok: bool)
      modifies this
      ensures (ok, Contents()) == Cleaned(old(Contents()), refusals)
      ensures ok ==> Contents() == Files(None, false)
      ensures lock != old(lock) ==> lock == None && !socket
    {
      if socket {
        var removed := RemoveSocket(refusals.socket);
        if !removed {
          return false;
        }
      }
      ok := RemoveLock(refusals.lock);
    }
  }

  /** The socket is left exactly when it was there and is refused, and then the lock is not tried; the lock
      is gone exactly after a success. */
  lemma CleanedExactly(files: Files, refusals: Refusals)
    ensures var (ok, files') := Cleaned(files, refusals);
            && (files'.socket <==> files.socket && refusals.socket)
            && (ok <==> !(files.socket && refusals.socket) && !refusals.lock)
            && files'.lock == if ok then None else files.lock
  {
  }

  function CleanAll(files: Files, series: seq<Refusals>): Files
    decreases |series|
  {
    if series == [] then files else Cleaned(CleanAll(files, series[..|series| - 1]), series[|series| - 1]).1
  }

  predicate SomeSucceeded(files: Files, series: seq<Refusals>)
    decreases |series|
  {
    && series != []
    && (SomeSucceeded(files, series[..|series| - 1]) ||
        Cleaned(CleanAll(files, series[..|series| - 1]), series[|series| - 1]).0)
  }

  /** Nothing appears, and the lock outlives the socket. */
  predicate Shrunk(files: Files, files': Files) {
    && (files'.lock == files.lock || files'.lock.None?)
    && (files'.socket ==> files.socket)
    && (files'.lock != files.lock ==> !files'.socket)
  }

  /** Over any series of cleanups with any refusals, and any connects in between: artefacts only
      shrink, the lock is never deleted while the socket is there, a success at any point leaves
      nothing for good, and where a lock was, nothing is left only after a success. */
  lemma {:induction false} CleanupsShrink(files: Files, series: seq<Refusals>)
    ensures Shrunk(files, CleanAll(files, series))
    ensures SomeSucceeded(files, series) ==> CleanAll(files, series) == Files(None, false)
    ensures files.lock.Some? ==> (CleanAll(files, series) == Files(None, false) <==> SomeSucceeded(files, series))
    decreases |series|
  {
    if series != [] {
      CleanupsShrink(files, series[..|series| - 1]);
    }
  }

  // ---------------------------------------------------------------- the ladder

  function Rank(k: Kind): nat {
    match k
    case IsConnected => 0
    case IsOffline => 1
    case IsStale => 2
    case IsHung(_) => 3
  }

  /** Cleanups never make the next `connect` worse, unless a daemon is connected that loses its lock;
      and a success makes it Offline whatever else runs. */
  lemma CleanupsLowerTheRank(w: World, series: seq<Refusals>, expected: string)
    ensures var w' := w.(files := CleanAll(w.files, series));
            && (!Classify(w, expected).IsConnected? ==> Rank(Classify(w', expected)) <= Rank(Classify(w, expected)))
            && (SomeSucceeded(w.files, series) ==> Classify(w', expected) == IsOffline)
  {
    CleanupsShrink(w.files, series);
  }

  /** The bound instance ended, and nothing else happened. */
  predicate OnlyEnded(os: Os, os': Os, i: InstanceId) {
    i < |os.instances| && exists life :: life in {Zombie, Gone} && os' == Os(os.instances[i := os.instances[i].(life := life)])
  }

  /** After a successful kill `connect` agrees that only artefacts are left if and only if the killed
      process has been reaped: until then its PID is held under its name, and it is reported as hung. */
  lemma KilledIsStaleOnceReaped(w: World, os': Os, expected: string)
    requires Sound(w.os) && Classify(w, expected).IsHung? && OnlyEnded(w.os, os', Classify(w, expected).i)
    ensures var i := Classify(w, expected).i;
            var after := Classify(w.(os := os'), expected);
            && i < |os'.instances|
            && (os'.instances[i].life.Gone? ==> after == IsStale)
            && (os'.instances[i].life.Zombie? ==> after == IsHung(i))
            && (Rank(after) < Rank(Classify(w, expected)) <==> os'.instances[i].life.Gone?)
  {
    var i := Classify(w, expected).i;
    var pid := ReadAsU32(w.files.lock.value).value;
    assert Holds(w.os, i, pid);
    if os'.instances[i].life.Gone? {
      forall k: nat ensures !Holds(os', k, pid) {
        if k != i && Holds(os', k, pid) {
          assert Holds(w.os, k, pid);
        }
      }
    } else {
      assert Holds(os', i, pid);
      assert Holds(os', Holder(os', pid).value, pid);
      assert Holds(w.os, Holder(os', pid).value, pid);
    }
  }

  /** One successful action of the handle that `connect` returns, undisturbed: the killed instance ends
      and is reaped; a cleanup succeeds, and nothing answers on a socket that is gone; the launched
      daemon runs under the expected name, has written its lock and serves. */
  ghost predicate Climbs(w: World, w': World, expected: string) {
    match Classify(w, expected)
    case IsHung(i) =>
      && w'.files == w.files && w'.serving == w.serving
      && i < |w.os.instances| && w'.os == Os(w.os.instances[i := w.os.instances[i].(life := Gone)])
    case IsStale =>
      && w'.os == w.os && !w'.serving
      && exists refusals :: Cleaned(w.files, refusals) == (true, w'.files)
    case IsOffline =>
      && w'.serving && w'.files.socket && exists launch :: Launches(w, w', launch, expected)
    case IsConnected => false
  }

  ghost predicate Launches(w: World, w': World, launch: OsStep, expected: string) {
    && launch.Spawn? && launch.pid < U32_RANGE && NamesMatch(launch.name, expected)
    && StepEnabled(w.os, launch) && w'.os == StepOs(w.os, launch)
    && w'.files.lock == Some(Text(Decimal(launch.pid)))
  }

  /** Each successful action puts `connect` exactly one rank further down. */
  lemma ClimbLowersTheRank(w: World, w': World, expected: string)
    requires Sound(w.os) && Climbs(w, w', expected)
    ensures Sound(w'.os) && Rank(Classify(w', expected)) == Rank(Classify(w, expected)) - 1
  {
    match Classify(w, expected)
    case IsHung(i) =>
      assert OnlyEnded(w.os, w'.os, i) by {
        assert w'.os == Os(w.os.instances[i := w.os.instances[i].(life := Gone)]);
      }
      KilledIsStaleOnceReaped(w, w'.os, expected);
      forall j: nat, k: nat, pid | Holds(w'.os, j, pid) && Holds(w'.os, k, pid) ensures j == k {
        assert Holds(w.os, j, pid) && Holds(w.os, k, pid);
      }
    case IsStale =>
    case IsOffline =>
      var launch :| Launches(w, w', launch, expected);
      StepKeepsSound(w.os, launch);
    case IsConnected =>
  }

  /** There is a PID for one more process. */
  ghost predicate FreePid(os: Os) {
    exists pid: nat :: pid < U32_RANGE && Holder(os, pid).None?
  }

  function NewestStart(instances: seq<Instance>): (t: nat)
    ensures forall p <- instances :: p.startTime <= t
  {
    if instances == [] then 0
    else
      var t := NewestStart(instances[1..]);
      assert forall p <- instances :: p == instances[0] || p in instances[1..];
      if instances[0].startTime > t then instances[0].startTime else t
  }

  /** What a client does next succeeds when nothing interferes, but for a launch without a free PID. */
  function Climb(w: World, pid: Pid, expected: string): World {
    match Classify(w, expected)
    case IsHung(i) =>
      if i < |w.os.instances| then w.(os := Os(w.os.instances[i := w.os.instances[i].(life := Gone)])) else w
    case IsStale => World(Cleaned(w.files, Refusals(false, false)).1, false, w.os)
    case IsOffline =>
      World(Files(Some(Text(Decimal(pid))), true), true,
            StepOs(w.os, Spawn(pid, expected, NewestStart(w.os.instances) + 1)))
    case IsConnected => w
  }

  lemma ClimbSucceeds(w: World, pid: Pid, expected: string)
    requires !Classify(w, expected).IsConnected?
    requires Classify(w, expected).IsOffline? ==> pid < U32_RANGE && Holder(w.os, pid).None?
    ensures Climbs(w, Climb(w, pid, expected), expected)
  {
    match Classify(w, expected)
    case IsHung(i) =>
    case IsStale => assert Cleaned(w.files, Refusals(false, false)) == (true, Files(None, false));
    case IsOffline => assert Launches(w, Climb(w, pid, expected), Spawn(pid, expected, NewestStart(w.os.instances) + 1), expected);
    case IsConnected =>
  }

  /** The ladder goes on exactly until a daemon is connected, or no PID is left to launch one. */
  lemma LadderEndsExactly(w: World, expected: string)
    ensures (exists w': World :: Climbs(w, w', expected)) <==>
            !Classify(w, expected).IsConnected? && (Classify(w, expected).IsOffline? ==> FreePid(w.os))
  {
    if !Classify(w, expected).IsConnected? && (Classify(w, expected).IsOffline? ==> FreePid(w.os)) {
      var pid: nat := 0;
      if Classify(w, expected).IsOffline? {
        pid :| pid < U32_RANGE && Holder(w.os, pid).None?;
      }
      ClimbSucceeds(w, pid, expected);
    }
    if w': World :| Climbs(w, w', expected) {
      if Classify(w, expected).IsOffline? {
        var launch :| Launches(w, w', launch, expected);
        assert launch.pid < U32_RANGE && Holder(w.os, launch.pid).None?;
      }
    }
  }

  /** Successful actions one after another. */
  ghost predicate Ladder(ws: seq<World>, expected: string) {
    ws != [] && forall k | 0 <= k < |ws| - 1 :: Climbs(ws[k], ws[k + 1], expected)
  }

  /** No ladder from a sound world has more than three steps: each goes down exactly one rank. */
  lemma {:induction false} LadderIsShort(ws: seq<World>, expected: string)
    requires Ladder(ws, expected) && Sound(ws[0].os)
    ensures Sound(ws[|ws| - 1].os)
    ensures |ws| - 1 == Rank(Classify(ws[0], expected)) - Rank(Classify(ws[|ws| - 1], expected)) <= 3
    decreases |ws|
  {
    hide Climbs, Classify, Sound;
    if |ws| > 1 {
      var n := |ws| - 1;
      assert Climbs(ws[n - 1], ws[n], expected);
      assert forall k | 0 <= k < n - 1 :: Climbs(ws[..n][k], ws[..n][k + 1], expected);
      LadderIsShort(ws[..n], expected);
      ClimbLowersTheRank(ws[n - 1], ws[n], expected);
    }
  }

  /** From every sound world with a free PID, or with a daemon to kill, at most three successful actions
      end with a connected daemon. */
  lemma {:induction false} LadderReachesConnected(w: World, expected: string) returns (ws: seq<World>)
    requires Sound(w.os)
    requires FreePid(w.os) || Classify(w, expected).IsHung? || Classify(w, expected).IsConnected?
    ensures Ladder(ws, expected) && ws[0] == w && |ws| <= 4
    ensures Classify(ws[|ws| - 1], expected) == IsConnected
    decreases Rank(Classify(w, expected))
  {
    if Classify(w, expected).IsConnected? {
      return [w];
    }
    var pid: nat := 0;
    if FreePid(w.os) {
      pid :| pid < U32_RANGE && Holder(w.os, pid).None?;
    }
    var w1 := Climb(w, pid, expected);
    ClimbSucceeds(w, pid, expected);
    ClimbLowersTheRank(w, w1, expected);
    if Classify(w, expected).IsHung? {
      KillFreesPid(w, w1, expected);
    }
    var rest := LadderReachesConnected(w1, expected);
    ws := [w] + rest;
    assert forall k | 0 <= k < |ws| - 1 :: Climbs(ws[k], ws[k + 1], expected) by {
      forall k | 0 <= k < |ws| - 1 ensures Climbs(ws[k], ws[k + 1], expected) {
        if k > 0 {
          assert Climbs(rest[k - 1], rest[k], expected);
        }
      }
    }
    LadderIsShort(ws, expected);
  }

  lemma KillFreesPid(w: World, w1: World, expected: string)
    requires Sound(w.os) && Classify(w, expected).IsHung? && Climbs(w, w1, expected)
    ensures FreePid(w1.os)
  {
    var i := Classify(w, expected).i;
    var pid := ReadAsU32(w.files.lock.value).value;
    assert Holds(w.os, i, pid);
    forall k: nat ensures !Holds(w1.os, k, pid) {
      if k != i && Holds(w1.os, k, pid) {
        assert Holds(w.os, k, pid);
      }
    }
    assert Holder(w1.os, pid).None?;
  }

  /** After a cleanup, complete or not, of artefacts that no running daemon owns. */
  lemma CleanedAgrees(w: World, refusals: Refusals, expected: string)
    requires !Classify(w, expected).IsConnected? && !Classify(w, expected).IsHung?
    ensures var (ok, files) := Cleaned(w.files, refusals);
            Rank(Classify(w.(files := files), expected)) <= Rank(if ok then IsOffline else IsStale)
  {
  }

  lemma EmptyIsOffline(expected: string)
    ensures forall serves, os :: Classify(World(Files(None, false), serves, os), expected) == IsOffline
  {
  }

  lemma UnownedIsNotHung(w: World, pid: Pid, expected: string)
    requires w.files.lock.Some? && ReadAsU32(w.files.lock.value) == Some(pid) && Holder(w.os, pid).None? && !w.serving
    ensures Classify(w, expected) == IsStale
  {
  }

  /** The ladder as a client climbs it: connect, kill what is hung, clean what is stale.

      On the way up from a hung daemon nothing is deleted before the bound process has exited, whatever
      the system does meanwhile. Each step that succeeds goes down one rank, and the next `connect` is
      on no higher one: always after a cleanup, and otherwise when nothing interfered and a killed
      process has been reaped. */
  method Recover(env: Environment, m: Machine, dir: RuntimeDir, serving: bool, expected: string,
                 graceful: nat, force: nat, refusals: Refusals)
    returns (found: Result<ConnectState, ProcessError>, reached: Kind, m': Machine)
    requires Sound(m.os) && |m.past| == m.now
    modifies dir
    ensures Sound(m'.os) && Later(m.os, m'.os)
    ensures found.Ok? && reached != KindOf(found.value) ==> Rank(reached) < Rank(KindOf(found.value))
    ensures found.Ok? && found.value.Hung? && (reached != KindOf(found.value) || dir.Contents() != old(dir.Contents())) ==>
              Exited(m'.os, found.value.process.handle)
    ensures dir.Contents() != old(dir.Contents()) ==> found.Ok? && (found.value.Stale? || found.value.Hung?)
    ensures found.Ok? && (found.value.Stale? || (found.value.Hung? && reached != KindOf(found.value))) ==>
              (reached == IsOffline, dir.Contents()) == Cleaned(old(dir.Contents()), refusals)
    ensures found.Ok? && reached == IsOffline ==>
              forall serves, os :: Classify(World(dir.Contents(), serves, os), expected) == IsOffline
    ensures found.Ok? && (if found.value.Hung? then Holder(m'.os, found.value.process.metadata.pid).None?
                          else Undisturbed(env, m.now)) ==>
              Rank(Classify(World(dir.Contents(), serving, m'.os), expected)) <= Rank(reached)
    ensures found.Ok? && found.value.Hung? ==>
              m.log <= m'.log && Escalation(m'.log[|m.log|..], found.value.process.handle, graceful)
    ensures !(found.Ok? && found.value.Hung?) ==> m'.log == m.log
  {
    hide Sound, Holder, Escalation, Classify, BindSucceeds, NamesMatch, ReadAsU32, Refuted, Undisturbed;
    EmptyIsOffline(expected);
    var seen := Sightings(dir.lock.Some?, dir.socket, serving, if dir.lock.Some? then dir.lock.value else Unreadable);
    ghost var files := dir.Contents();
    found, m' := Connect(env, m, seen, expected);
    if found.Err? {
      return found, IsStale, m';
    }
    assert SeenAtOnce(seen, files, serving);
    reached := KindOf(found.value);
    if found.value.Hung? {
      var killed;
      killed, m' := KillProcess(env, m', found.value.process.handle, graceful, force);
      if killed.Err? {
        return;
      }
      reached := IsStale;
      if Holder(m'.os, found.value.process.metadata.pid).None? {
        UnownedIsNotHung(World(files, serving, m'.os), found.value.process.metadata.pid, expected);
      }
    }
    if reached.IsStale? {
      if !Classify(World(files, serving, m'.os), expected).IsConnected? && !Classify(World(files, serving, m'.os), expected).IsHung? {
        CleanedAgrees(World(files, serving, m'.os), refusals, expected);
      }
      var ok := dir.Clean(refusals);
      if ok {
        reached := IsOffline;
      }
    }
  }
}
