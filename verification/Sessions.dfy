/** Many client sessions against one daemon that follows the request contract: a commit or an `up` is
    accepted only on the current revision of the workspace, and every accepted commit and every
    registration issues a revision that the workspace never had before.

    A step is one request together with what the network does to it; steps of different sessions
    interleave freely. The log records what happened at the daemon and which replies arrived. */
module Sessions {
  import opened Results

  type Workspace = string
  type Revision = string
  type Manifest = string
  type SessionId = nat

  // ---------------------------------------------------------------- the daemon's contract

  datatype Stored = Stored(revision: Revision, manifest: Option<Manifest>)

  datatype Daemon = Daemon(stored: map<Workspace, Stored>, issued: set<(Workspace, Revision)>)

  datatype SyncState = Unspecified | InSync | OutOfSync | Unregistered

  datatype HandshakeReply = HandshakeReply(state: SyncState, revision: Revision)

  predicate Fresh(d: Daemon, ws: Workspace, novel: Revision) {
    (ws, novel) !in d.issued
  }

  function Store(d: Daemon, ws: Workspace, stored: Stored): Daemon {
    Daemon(d.stored[ws := stored], d.issued + {(ws, stored.revision)})
  }

  function DaemonHandshake(d: Daemon, ws: Workspace, manifest: Manifest, novel: Revision): (HandshakeReply, Daemon) {
    if ws !in d.stored then (HandshakeReply(Unregistered, novel), Store(d, ws, Stored(novel, None)))
    else
      (HandshakeReply(if d.stored[ws].manifest == Some(manifest) then InSync else OutOfSync, d.stored[ws].revision), d)
  }

  predicate Accepts(d: Daemon, ws: Workspace, expected: Revision) {
    ws in d.stored && d.stored[ws].revision == expected
  }

  function DaemonCommit(d: Daemon, ws: Workspace, expected: Revision, manifest: Manifest, novel: Revision)
    : (Result<Revision, ClientError>, Daemon)
  {
    if Accepts(d, ws, expected) then (Ok(novel), Store(d, ws, Stored(novel, Some(manifest))))
    else (Err(WrongRevision), d)
  }

  // ---------------------------------------------------------------- the client's handles

  datatype ClientError = WrongRevision | Protocol | Contract

  datatype Session =
    | Ready(workspace: Workspace, revision: Revision)
    | Uncommitted(workspace: Workspace, revision: Revision, toCommit: Manifest)

  /** What becomes of a request: it may get lost, its reply may get lost, or the reply may carry a
      state that the client does not know. */
  datatype Fate = Delivered | RequestLost | ReplyLost | Garbled

  function Received<T>(fate: Fate, reply: Result<T, ClientError>): Result<T, ClientError> {
    if fate.RequestLost? || fate.ReplyLost? then Err(Protocol) else reply
  }

  /** `ConnectedHandle::handshake` once the reply is there. */
  function Open(ws: Workspace, manifest: Manifest, reply: HandshakeReply): Result<Session, ClientError> {
    match reply.state
    case OutOfSync => Ok(Uncommitted(ws, reply.revision, manifest))
    case Unregistered => Ok(Uncommitted(ws, reply.revision, manifest))
    case InSync => Ok(Ready(ws, reply.revision))
    case Unspecified => Err(Contract)
  }

  function Garble(fate: Fate, reply: HandshakeReply): HandshakeReply {
    if fate.Garbled? then reply.(state := Unspecified) else reply
  }

  /** One commit of a handle: what the caller gets, the session it is left with, and the daemon. */
  function Attempt(h: Session, d: Daemon, novel: Revision, fate: Fate): (Result<Revision, ClientError>, Session, Daemon)
    requires h.Uncommitted?
  {
    var (reply, d') := if fate.RequestLost? then (Err(Protocol), d)
                       else DaemonCommit(d, h.workspace, h.revision, h.toCommit, novel);
    var received := Received(fate, reply);
    (received, if received.Ok? then Ready(h.workspace, received.value) else h, d')
  }

  /** A discarded commit leaves the revision the session had. */
  function Abandon(h: Session): Session
    requires h.Uncommitted?
  {
    Ready(h.workspace, h.revision)
  }

  // ---------------------------------------------------------------- the handles as objects

  class ControlHandle {
    const workspaceId: Workspace
    var expectedRevision: Revision

    constructor (workspaceId: Workspace, expectedRevision: Revision)
      ensures this.workspaceId == workspaceId && this.expectedRevision == expectedRevision
    {
      this.workspaceId := workspaceId;
      this.expectedRevision := expectedRevision;
    }

    function View(): Session
      reads this
    {
      Ready(workspaceId, expectedRevision)
    }

    method SetRevision(revision: Revision)
      modifies this
      ensures expectedRevision == revision
    {
      expectedRevision := revision;
    }
  }

  class UncommittedHandle {
    const controller: ControlHandle
    const toCommit: Manifest

    constructor (controller: ControlHandle, toCommit: Manifest)
      ensures this.controller == controller && this.toCommit == toCommit
    {
      this.controller := controller;
      this.toCommit := toCommit;
    }

    function View(): Session
      reads controller
    {
      Uncommitted(controller.workspaceId, controller.expectedRevision, toCommit)
    }

    /** On success the controller carries the new revision; on failure, whatever the daemon did, the
        handle is exactly what it was. */
    method InnerCommit(d: Daemon, novel: Revision, fate: Fate) returns (r: Result<(), ClientError>, d': Daemon)
      modifies controller
      ensures d' == Attempt(old(View()), d, novel, fate).2
      ensures r.Ok? <==> Attempt(old(View()), d, novel, fate).0.Ok?
      ensures r.Err? ==> Attempt(old(View()), d, novel, fate).0 == Err(r.error)
      ensures r.Ok? <==> (fate.Delivered? || fate.Garbled?) &&
                         Accepts(d, controller.workspaceId, old(controller.expectedRevision))
      ensures r.Ok? ==> controller.expectedRevision == novel && Accepts(d', controller.workspaceId, novel)
      ensures r.Err? ==> View() == old(View())
    {
      d' := d;
      var reply := Err(Protocol);
      if !fate.RequestLost? {
        var answer := DaemonCommit(d, controller.workspaceId, controller.expectedRevision, toCommit, novel);
        reply := answer.0;
        d' := answer.1;
      }
      var received := Received(fate, reply);
      if received.Err? {
        return Err(received.error), d';
      }
      controller.SetRevision(received.value);
      r := Ok(());
    }

    /** `commit`: the control handle on success, this very handle back on failure. */
    method Commit(d: Daemon, novel: Revision, fate: Fate)
      returns (committed: Option<ControlHandle>, failed: Option<UncommittedHandle>, d': Daemon)
      modifies controller
      ensures committed.Some? <==> failed.None?
      ensures committed.Some? <==> (fate.Delivered? || fate.Garbled?) &&
                                   Accepts(d, controller.workspaceId, old(controller.expectedRevision))
      ensures committed.Some? ==>
                && committed.value == controller
                && committed.value.View() == Ready(controller.workspaceId, novel)
                && d'.stored == d.stored[controller.workspaceId := Stored(novel, Some(toCommit))]
      ensures failed.Some? ==> failed.value == this && View() == old(View())
      ensures var (_, session, daemon) := Attempt(old(View()), d, novel, fate);
              && d' == daemon
              && (if committed.Some? then committed.value.View() else View()) == session
    {
      var r;
      r, d' := InnerCommit(d, novel, fate);
      if r.Ok? {
        return Some(controller), None, d';
      }
      return None, Some(this), d';
    }

    /** `discard`: the controller as it is, without asking the daemon. */
    method Discard() returns (control: ControlHandle)
      ensures control == controller && control.View() == Abandon(View())
    {
      control := controller;
    }
  }

  // ---------------------------------------------------------------- runs

  datatype Event =
    | Registered(workspace: Workspace, stored: Stored)
    | Shook(session: SessionId, workspace: Workspace, stored: Stored, offered: Manifest)
    | Committed(session: SessionId, workspace: Workspace, replaced: Stored, stored: Stored, delivered: bool)
    | Discarded(session: SessionId)
    | Ran(session: SessionId, workspace: Workspace, stored: Stored)

  datatype World = World(daemon: Daemon, sessions: map<SessionId, Session>, log: seq<Event>)

  datatype Step =
    | Handshake(s: SessionId, ws: Workspace, manifest: Manifest, novel: Revision, fate: Fate)
    | Recheck(s: SessionId, manifest: Manifest, novel: Revision, fate: Fate)
    | Commit(s: SessionId, novel: Revision, fate: Fate)
    | Discard(s: SessionId)
    | Up(s: SessionId, fate: Fate)

  const START := World(Daemon(map[], {}), map[], [])

  /** The handles' types decide which requests a session can make; the daemon picks fresh revisions. */
  predicate Possible(w: World, step: Step) {
    match step
    case Handshake(s, ws, _, novel, _) => s !in w.sessions && Fresh(w.daemon, ws, novel)
    case Recheck(s, _, novel, _) => s in w.sessions && w.sessions[s].Ready? && Fresh(w.daemon, w.sessions[s].workspace, novel)
    case Commit(s, novel, _) => s in w.sessions && w.sessions[s].Uncommitted? && Fresh(w.daemon, w.sessions[s].workspace, novel)
    case Discard(s) => s in w.sessions && w.sessions[s].Uncommitted?
    case Up(s, _) => s in w.sessions && w.sessions[s].Ready?
  }

  /** The request consumes the handle: a failure leaves no session. */
  function Shake(w: World, s: SessionId, ws: Workspace, manifest: Manifest, novel: Revision, fate: Fate): World {
    var closed := w.sessions - {s};
    if fate.RequestLost? then w.(sessions := closed)
    else
      var (reply, daemon) := DaemonHandshake(w.daemon, ws, manifest, novel);
      var log := if ws in w.daemon.stored then w.log else w.log + [Registered(ws, daemon.stored[ws])];
      match Received(fate, Open(ws, manifest, Garble(fate, reply)))
      case Err(_) => World(daemon, closed, log)
      case Ok(session) => World(daemon, closed[s := session], log + [Shook(s, ws, daemon.stored[ws], manifest)])
  }

  function Next(w: World, step: Step): World
    requires Possible(w, step)
  {
    match step
    case Handshake(s, ws, manifest, novel, fate) => Shake(w, s, ws, manifest, novel, fate)
    case Recheck(s, manifest, novel, fate) => Shake(w, s, w.sessions[s].workspace, manifest, novel, fate)
    case Commit(s, novel, fate) =>
      var h := w.sessions[s];
      var (received, session, daemon) := Attempt(h, w.daemon, novel, fate);
      World(daemon, w.sessions[s := session],
            if fate.RequestLost? || !Accepts(w.daemon, h.workspace, h.revision) then w.log
            else
              w.log + [Committed(s, h.workspace, w.daemon.stored[h.workspace], daemon.stored[h.workspace], received.Ok?)])
    case Discard(s) =>
      w.(sessions := w.sessions[s := Abandon(w.sessions[s])],
         log := w.log + [Discarded(s)])
    case Up(s, fate) =>
      var h := w.sessions[s];
      if fate.RequestLost? || !Accepts(w.daemon, h.workspace, h.revision) then w
      else w.(log := w.log + [Ran(s, h.workspace, w.daemon.stored[h.workspace])])
  }

  predicate Legal(w: World, steps: seq<Step>)
    decreases |steps|
  {
    steps == [] || (Possible(w, steps[0]) && Legal(Next(w, steps[0]), steps[1..]))
  }

  function Run(w: World, steps: seq<Step>): World
    requires Legal(w, steps)
    decreases |steps|
  {
    if steps == [] then w else Run(Next(w, steps[0]), steps[1..])
  }

  // ---------------------------------------------------------------- what a log says

  /** What a session last saw of its workspace, what it offered, and whether it gave that up. */
  datatype Sight = Sight(workspace: Workspace, stored: Stored, offered: Manifest, discarded: bool)

  function SightOf(log: seq<Event>, s: SessionId): Option<Sight> {
    if log == [] then None
    else
      var before := SightOf(log[..|log| - 1], s);
      match log[|log| - 1]
      case Shook(t, ws, stored, offered) => if t == s then Some(Sight(ws, stored, offered, false)) else before
      case Committed(t, _, _, stored, delivered) =>
        if t == s && delivered && before.Some? then Some(before.value.(stored := stored)) else before
      case Discarded(t) => if t == s && before.Some? then Some(before.value.(discarded := true)) else before
      case _ => before
  }

  /** The state of a workspace after the registration and the commits of the log. */
  function StateAt(log: seq<Event>, ws: Workspace): Option<Stored> {
    if log == [] then None
    else
      match log[|log| - 1]
      case Registered(v, stored) => if v == ws then Some(stored) else StateAt(log[..|log| - 1], ws)
      case Committed(_, v, _, stored, _) => if v == ws then Some(stored) else StateAt(log[..|log| - 1], ws)
      case _ => StateAt(log[..|log| - 1], ws)
  }

  /** An accepted request acts on exactly the state that its session last saw, which is the state that
      the commits before it left; a commit installs what the session offered; and unless the session
      discarded its changes, `up` runs on what it offered. */
  ghost predicate Faithful(before: seq<Event>, e: Event) {
    var sight := if e.Registered? then None else SightOf(before, e.session);
    match e
    case Committed(_, ws, replaced, stored, _) =>
      && StateAt(before, ws) == Some(replaced)
      && sight.Some? && sight.value.workspace == ws && sight.value.stored == replaced
      && stored.manifest == Some(sight.value.offered)
    case Ran(_, ws, stored) =>
      && StateAt(before, ws) == Some(stored)
      && sight.Some? && sight.value.workspace == ws && sight.value.stored == stored
      && (!sight.value.discarded ==> stored.manifest == Some(sight.value.offered))
    case _ => true
  }

  ghost predicate AllFaithful(log: seq<Event>) {
    forall k | 0 <= k < |log| :: Faithful(log[..k], log[k])
  }

  /** No revision is replaced twice. */
  ghost predicate ReplacedOnce(log: seq<Event>) {
    forall i, k | 0 <= i < k < |log| && log[i].Committed? && log[k].Committed? && log[i].workspace == log[k].workspace ::
      log[i].replaced.revision != log[k].replaced.revision
  }

  // ---------------------------------------------------------------- the invariant

  /** A session's revision names the state it last saw. */
  ghost predicate SessionInv(d: Daemon, log: seq<Event>, s: SessionId, h: Session) {
    var sight := SightOf(log, s);
    && sight.Some? && sight.value.workspace == h.workspace && sight.value.stored.revision == h.revision
    && (h.workspace, h.revision) in d.issued
    && (Accepts(d, h.workspace, h.revision) ==> d.stored[h.workspace] == sight.value.stored)
    && (h.Uncommitted? ==> h.toCommit == sight.value.offered && !sight.value.discarded)
    && (h.Ready? && !sight.value.discarded ==> sight.value.stored.manifest == Some(sight.value.offered))
  }

  ghost predicate SessionsInv(d: Daemon, log: seq<Event>, sessions: map<SessionId, Session>) {
    forall s | s in sessions :: SessionInv(d, log, s, sessions[s])
  }

  /** The log tells the daemon's state, and replaced revisions are past. */
  ghost predicate DaemonInv(d: Daemon, log: seq<Event>) {
    && (forall ws :: StateAt(log, ws) == if ws in d.stored then Some(d.stored[ws]) else None)
    && (forall ws | ws in d.stored :: (ws, d.stored[ws].revision) in d.issued)
    && (forall e <- log | e.Committed? ::
          && (e.workspace, e.replaced.revision) in d.issued
          && e.workspace in d.stored && d.stored[e.workspace].revision != e.replaced.revision)
  }

  ghost predicate LogInv(log: seq<Event>) {
    AllFaithful(log) && ReplacedOnce(log)
  }

  ghost predicate Inv(w: World) {
    DaemonInv(w.daemon, w.log) && SessionsInv(w.daemon, w.log, w.sessions) && LogInv(w.log)
  }

  lemma AppendReads(log: seq<Event>, e: Event)
    ensures (log + [e])[..|log + [e]| - 1] == log && (log + [e])[|log + [e]| - 1] == e
  {
  }

  lemma AppendKeepsLogInv(log: seq<Event>, e: Event)
    requires LogInv(log) && Faithful(log, e)
    requires e.Committed? ==>
               forall p <- log | p.Committed? && p.workspace == e.workspace :: p.replaced.revision != e.replaced.revision
    ensures LogInv(log + [e])
  {
    hide Faithful;
    var longer := log + [e];
    forall k | 0 <= k < |longer| ensures Faithful(longer[..k], longer[k]) {
      assert longer[..k] == log[..k];
      assert log[..|log|] == log;
    }
    forall i, k | 0 <= i < k < |longer| && longer[i].Committed? && longer[k].Committed? &&
                  longer[i].workspace == longer[k].workspace
      ensures longer[i].replaced.revision != longer[k].replaced.revision
    {
      assert longer[i] in log;
    }
  }

  /** The daemon `d'` is `d`, or `d` with a new state under a new revision. */
  ghost predicate Moves(d: Daemon, d': Daemon, e: Event) {
    if e.Registered? || e.Committed? then (e.workspace, e.stored.revision) !in d.issued && d' == Store(d, e.workspace, e.stored)
    else d' == d
  }

  lemma EventKeepsDaemonInv(d: Daemon, d': Daemon, log: seq<Event>, e: Event)
    requires DaemonInv(d, log) && Moves(d, d', e)
    requires e.Committed? ==> e.workspace in d.stored && d.stored[e.workspace] == e.replaced
    ensures DaemonInv(d', log + [e])
  {
    AppendReads(log, e);
    forall ws ensures StateAt(log + [e], ws) == if ws in d'.stored then Some(d'.stored[ws]) else None {
      assert StateAt(log, ws) == if ws in d.stored then Some(d.stored[ws]) else None;
    }
  }

  lemma EventKeepsOtherSession(d: Daemon, d': Daemon, log: seq<Event>, e: Event, t: SessionId, h: Session)
    requires SessionInv(d, log, t, h) && Moves(d, d', e)
    requires e.Registered? || e.session != t
    ensures SessionInv(d', log + [e], t, h)
  {
    AppendReads(log, e);
  }

  lemma RegisterKeepsInv(w: World, ws: Workspace, stored: Stored)
    requires Inv(w) && ws !in w.daemon.stored && (ws, stored.revision) !in w.daemon.issued
    ensures Inv(World(Store(w.daemon, ws, stored), w.sessions, w.log + [Registered(ws, stored)]))
  {
    hide SessionInv, LogInv, DaemonInv;
    var e := Registered(ws, stored);
    var d' := Store(w.daemon, ws, stored);
    EventKeepsDaemonInv(w.daemon, d', w.log, e);
    AppendKeepsLogInv(w.log, e);
    forall t | t in w.sessions ensures SessionInv(d', w.log + [e], t, w.sessions[t]) {
      EventKeepsOtherSession(w.daemon, d', w.log, e, t, w.sessions[t]);
    }
  }

  /** One session acts: its handle changes to `h`, the others and what they rest on do not. */
  lemma ActKeepsInv(w: World, d': Daemon, e: Event, s: SessionId, h: Session)
    requires Inv(w) && !e.Registered? && e.session == s && Moves(w.daemon, d', e)
    requires e.Committed? ==> e.workspace in w.daemon.stored && w.daemon.stored[e.workspace] == e.replaced
    requires Faithful(w.log, e)
    requires SessionInv(d', w.log + [e], s, h)
    ensures Inv(World(d', w.sessions[s := h], w.log + [e]))
  {
    hide SessionInv, LogInv, Faithful;
    EventKeepsDaemonInv(w.daemon, d', w.log, e);
    AppendKeepsLogInv(w.log, e);
    var sessions := w.sessions[s := h];
    forall t | t in sessions ensures SessionInv(d', w.log + [e], t, sessions[t]) {
      if t != s {
        EventKeepsOtherSession(w.daemon, d', w.log, e, t, w.sessions[t]);
      }
    }
  }

  lemma CloseKeepsInv(w: World, s: SessionId)
    requires Inv(w)
    ensures Inv(w.(sessions := w.sessions - {s}))
  {
  }

  /** The daemon knows the workspace by now; the reply may still get lost. */
  lemma ReplyKeepsInv(w: World, s: SessionId, ws: Workspace, manifest: Manifest, state: SyncState)
    requires Inv(w) && ws in w.daemon.stored
    requires var reply := HandshakeReply(state, w.daemon.stored[ws].revision);
             Open(ws, manifest, reply).Ok? && (state.InSync? ==> w.daemon.stored[ws].manifest == Some(manifest))
    ensures var reply := HandshakeReply(state, w.daemon.stored[ws].revision);
            Inv(World(w.daemon, w.sessions[s := Open(ws, manifest, reply).value],
                      w.log + [Shook(s, ws, w.daemon.stored[ws], manifest)]))
  {
    var reply := HandshakeReply(state, w.daemon.stored[ws].revision);
    var e := Shook(s, ws, w.daemon.stored[ws], manifest);
    AppendReads(w.log, e);
    ActKeepsInv(w, w.daemon, e, s, Open(ws, manifest, reply).value);
  }

  lemma ShakeKeepsInv(w: World, s: SessionId, ws: Workspace, manifest: Manifest, novel: Revision, fate: Fate)
    requires Inv(w) && Fresh(w.daemon, ws, novel)
    ensures Inv(Shake(w, s, ws, manifest, novel, fate))
  {
    hide DaemonInv, SessionsInv, LogInv;
    CloseKeepsInv(w, s);
    var closed := w.(sessions := w.sessions - {s});
    if !fate.RequestLost? {
      var (reply, daemon) := DaemonHandshake(w.daemon, ws, manifest, novel);
      var known := closed;
      if ws !in w.daemon.stored {
        RegisterKeepsInv(closed, ws, Stored(novel, None));
        known := World(daemon, closed.sessions, w.log + [Registered(ws, Stored(novel, None))]);
      }
      if Received(fate, Open(ws, manifest, Garble(fate, reply))).Ok? {
        ReplyKeepsInv(known, s, ws, manifest, reply.state);
      }
    }
  }

  lemma CommitKeepsInv(w: World, s: SessionId, novel: Revision, fate: Fate)
    requires Inv(w) && Possible(w, Commit(s, novel, fate))
    ensures Inv(Next(w, Commit(s, novel, fate)))
  {
    var h := w.sessions[s];
    assert SessionInv(w.daemon, w.log, s, h);
    if !fate.RequestLost? && Accepts(w.daemon, h.workspace, h.revision) {
      var stored := Stored(novel, Some(h.toCommit));
      var received := Received(fate, Ok(novel));
      var e := Committed(s, h.workspace, w.daemon.stored[h.workspace], stored, received.Ok?);
      var session := if received.Ok? then Ready(h.workspace, novel) else h;
      AppendReads(w.log, e);
      ActKeepsInv(w, Store(w.daemon, h.workspace, stored), e, s, session);
    } else {
      assert w.sessions[s := h] == w.sessions;
    }
  }

  /** A session's handle and the daemon after a commit in a run are those of the handle object. */
  lemma CommitIsAttempt(w: World, s: SessionId, novel: Revision, fate: Fate)
    requires Possible(w, Commit(s, novel, fate))
    ensures var (received, session, daemon) := Attempt(w.sessions[s], w.daemon, novel, fate);
            var w' := Next(w, Commit(s, novel, fate));
            && w'.daemon == daemon && w'.sessions == w.sessions[s := session]
            && (received.Err? ==> w'.sessions == w.sessions)
  {
    assert w.sessions[s := w.sessions[s]] == w.sessions;
  }

  /** Only a state the client does not know is refused. */
  lemma HandshakeRefusesOnlyUnspecified(ws: Workspace, manifest: Manifest, reply: HandshakeReply)
    ensures Open(ws, manifest, reply).Err? <==> reply.state.Unspecified?
  {
  }

  /** A delivered handshake opens a session on any workspace, also on one the daemon did not know: with
      something to commit, the offered manifest, exactly when the daemon's differs. */
  lemma DeliveredHandshakeOpens(w: World, s: SessionId, ws: Workspace, manifest: Manifest, novel: Revision)
    requires Fresh(w.daemon, ws, novel)
    ensures var w' := Shake(w, s, ws, manifest, novel, Delivered);
            && s in w'.sessions && w'.sessions[s].workspace == ws && Accepts(w'.daemon, ws, w'.sessions[s].revision)
            && (w'.sessions[s].Ready? <==> ws in w.daemon.stored && w.daemon.stored[ws].manifest == Some(manifest))
            && (w'.sessions[s].Uncommitted? ==> w'.sessions[s].toCommit == manifest)
            && (ws !in w.daemon.stored ==> w'.sessions[s] == Uncommitted(ws, novel, manifest))
  {
    var reply := DaemonHandshake(w.daemon, ws, manifest, novel).0;
    HandshakeRefusesOnlyUnspecified(ws, manifest, reply);
  }

  // ---------------------------------------------------------------- what each step does

  /** The other sessions keep their handles. */
  predicate OthersKept(w: World, w': World, s: SessionId) {
    w'.sessions - {s} == w.sessions - {s}
  }

  /** What opening a session on `ws` does: it is there exactly when the request was answered in full, on
      the daemon's revision, ready exactly when the daemon already has the offered manifest; and only a
      workspace the daemon does not know changes it, by a registration, if the request arrives. */
  ghost predicate Opens(w: World, w': World, s: SessionId, ws: Workspace, manifest: Manifest, novel: Revision, fate: Fate) {
    && OthersKept(w, w', s)
    && (s in w'.sessions <==> fate.Delivered?)
    && (fate.Delivered? ==>
          && w'.sessions[s].workspace == ws && Accepts(w'.daemon, ws, w'.sessions[s].revision)
          && (w'.sessions[s].Ready? <==> w'.daemon.stored[ws].manifest == Some(manifest))
          && (w'.sessions[s].Uncommitted? ==> w'.sessions[s].toCommit == manifest))
    && (fate.RequestLost? || ws in w.daemon.stored ==> w'.daemon == w.daemon)
    && (!fate.RequestLost? && ws !in w.daemon.stored ==>
          w'.daemon.stored == w.daemon.stored[ws := Stored(novel, None)])
  }

  lemma ShakeOpens(w: World, s: SessionId, ws: Workspace, manifest: Manifest, novel: Revision, fate: Fate)
    requires Fresh(w.daemon, ws, novel)
    ensures Opens(w, Shake(w, s, ws, manifest, novel, fate), s, ws, manifest, novel, fate)
  {
    if fate.Delivered? {
      DeliveredHandshakeOpens(w, s, ws, manifest, novel);
    }
  }

  lemma HandshakeStep(w: World, s: SessionId, ws: Workspace, manifest: Manifest, novel: Revision, fate: Fate)
    requires Possible(w, Handshake(s, ws, manifest, novel, fate))
    ensures Opens(w, Next(w, Handshake(s, ws, manifest, novel, fate)), s, ws, manifest, novel, fate)
  {
    hide Opens, Shake;
    ShakeOpens(w, s, ws, manifest, novel, fate);
  }

  /** A recheck asks the daemon again, for the workspace of the session it consumes. */
  lemma RecheckStep(w: World, s: SessionId, manifest: Manifest, novel: Revision, fate: Fate)
    requires Possible(w, Recheck(s, manifest, novel, fate))
    ensures Opens(w, Next(w, Recheck(s, manifest, novel, fate)), s, w.sessions[s].workspace, manifest, novel, fate)
  {
    hide Opens, Shake;
    ShakeOpens(w, s, w.sessions[s].workspace, manifest, novel, fate);
  }

  /** A commit that arrives on the current revision installs the offered manifest under the new revision;
      the session moves on to it exactly when it hears so, and any other commit changes nothing. */
  lemma CommitStep(w: World, s: SessionId, novel: Revision, fate: Fate)
    requires Possible(w, Commit(s, novel, fate))
    ensures var h, w' := w.sessions[s], Next(w, Commit(s, novel, fate));
            && OthersKept(w, w', s)
            && if fate.RequestLost? || h.workspace !in w.daemon.stored || w.daemon.stored[h.workspace].revision != h.revision
               then w' == w
               else
                 && w'.daemon.stored == w.daemon.stored[h.workspace := Stored(novel, Some(h.toCommit))]
                 && s in w'.sessions
                 && w'.sessions[s] == (if fate.ReplyLost? then h else Ready(h.workspace, novel))
                 && w'.log == w.log + [Committed(s, h.workspace, w.daemon.stored[h.workspace],
                                                 Stored(novel, Some(h.toCommit)), !fate.ReplyLost?)]
  {
    assert w.sessions[s := w.sessions[s]] == w.sessions;
  }

  /** A discard turns the handle into one that is ready on the same revision, and asks nobody. */
  lemma DiscardStep(w: World, s: SessionId)
    requires Possible(w, Discard(s))
    ensures var w' := Next(w, Discard(s));
            && OthersKept(w, w', s) && w'.daemon == w.daemon
            && s in w'.sessions && w'.sessions[s].Ready?
            && w'.sessions[s].workspace == w.sessions[s].workspace && w'.sessions[s].revision == w.sessions[s].revision
            && w'.log == w.log + [Discarded(s)]
  {
  }

  /** An `up` runs on what the daemon has exactly when it arrives on the current revision; it changes
      neither sessions nor daemon. */
  lemma UpStep(w: World, s: SessionId, fate: Fate)
    requires Possible(w, Up(s, fate))
    ensures var h, w' := w.sessions[s], Next(w, Up(s, fate));
            && w'.sessions == w.sessions && w'.daemon == w.daemon
            && w'.log == w.log +
                 if !fate.RequestLost? && h.workspace in w.daemon.stored && w.daemon.stored[h.workspace].revision == h.revision
                 then [Ran(s, h.workspace, w.daemon.stored[h.workspace])] else []
  {
  }

  lemma DiscardKeepsInv(w: World, s: SessionId)
    requires Inv(w) && Possible(w, Discard(s))
    ensures Inv(Next(w, Discard(s)))
  {
    var h := w.sessions[s];
    assert SessionInv(w.daemon, w.log, s, h);
    AppendReads(w.log, Discarded(s));
    hide DaemonInv, LogInv, SessionsInv, StateAt;
    ActKeepsInv(w, w.daemon, Discarded(s), s, Abandon(h));
  }

  lemma UpKeepsInv(w: World, s: SessionId, fate: Fate)
    requires Inv(w) && Possible(w, Up(s, fate))
    ensures Inv(Next(w, Up(s, fate)))
  {
    var h := w.sessions[s];
    assert SessionInv(w.daemon, w.log, s, h);
    if !fate.RequestLost? && Accepts(w.daemon, h.workspace, h.revision) {
      var e := Ran(s, h.workspace, w.daemon.stored[h.workspace]);
      AppendReads(w.log, e);
      assert Faithful(w.log, e);
      hide LogInv, SessionsInv, StateAt, Faithful;
      ActKeepsInv(w, w.daemon, e, s, h);
      assert w.sessions[s := h] == w.sessions;
    }
  }

  lemma StepKeepsInv(w: World, step: Step)
    requires Inv(w) && Possible(w, step)
    ensures Inv(Next(w, step))
  {
    hide Inv;
    match step
    case Handshake(s, ws, manifest, novel, fate) => ShakeKeepsInv(w, s, ws, manifest, novel, fate);
    case Recheck(s, manifest, novel, fate) => ShakeKeepsInv(w, s, w.sessions[s].workspace, manifest, novel, fate);
    case Commit(s, novel, fate) => CommitKeepsInv(w, s, novel, fate);
    case Discard(s) => DiscardKeepsInv(w, s);
    case Up(s, fate) => UpKeepsInv(w, s, fate);
  }

  lemma {:induction false} RunKeepsInv(w: World, steps: seq<Step>)
    requires Inv(w) && Legal(w, steps)
    ensures Inv(Run(w, steps))
    decreases |steps|
  {
    hide Inv;
    if steps != [] {
      StepKeepsInv(w, steps[0]);
      RunKeepsInv(Next(w, steps[0]), steps[1..]);
    }
  }

  /** No update is lost: in every run of any number of sessions, with requests and replies lost at any
      point, each accepted commit replaced exactly the state its session last saw and installed what
      the session offered, and each accepted `up` ran on the state its session last saw. */
  lemma NoUpdateIsLost(steps: seq<Step>, k: nat)
    requires Legal(START, steps) && k < |Run(START, steps).log|
    ensures var log := Run(START, steps).log; Faithful(log[..k], log[k])
  {
    RunKeepsInv(START, steps);
  }

  /** The commits of a workspace form a chain without branches, so a commit whose reply got lost is
      never applied a second time, however often it is sent again. */
  lemma CommitsFormAChain(steps: seq<Step>, i: nat, k: nat)
    requires Legal(START, steps) && i < k < |Run(START, steps).log|
    requires var log := Run(START, steps).log;
             log[i].Committed? && log[k].Committed? && log[i].workspace == log[k].workspace
    ensures var log := Run(START, steps).log;
            && log[i].replaced.revision != log[k].replaced.revision
            && StateAt(log[..k], log[k].workspace) == Some(log[k].replaced)
  {
    RunKeepsInv(START, steps);
    var log := Run(START, steps).log;
    assert Faithful(log[..k], log[k]);
  }
  /** A request that reaches the daemon is accepted if and only if the workspace is still in the state
      that the session last saw. */
  lemma AcceptedIffUnchanged(steps: seq<Step>, s: SessionId)
    requires Legal(START, steps) && s in Run(START, steps).sessions
    ensures var w := Run(START, steps);
            var h := w.sessions[s];
            && SightOf(w.log, s).Some?
            && (Accepts(w.daemon, h.workspace, h.revision) <==>
                StateAt(w.log, h.workspace) == Some(SightOf(w.log, s).value.stored))
  {
    RunKeepsInv(START, steps);
    var w := Run(START, steps);
    var h := w.sessions[s];
    assert SessionInv(w.daemon, w.log, s, h);
    assert StateAt(w.log, h.workspace) ==
           if h.workspace in w.daemon.stored then Some(w.daemon.stored[h.workspace]) else None;
  }
}
