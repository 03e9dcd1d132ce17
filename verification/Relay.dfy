/** The relay of one SMB share over a socket: an accept loop, sessions with their pumps, and shutdown, as
    steps of concurrent threads.  Connections are numbered as they are made. */
module Relay {
  import opened Options

  const MaxSessions := 16
  const MaxConnections := 32

  datatype ServePc =
    | Accepting
    | Accepted(c: nat)      // not yet admitted
    | Slotted(c: nat)       // holds a session slot
    | Refusing              // the connection was refused after the slot was taken
    | Admitted(c: nat)      // tracked, its session not yet started
    | Stopped

  datatype SessionPc =
    | Dialing | Dialled | Copying | ShuttingConn | ShuttingPeer | Waiting
    | ClosingPeer | ForgettingConn | ClosingConn | Releasing | Leaving | Ended

  datatype Pump = NotStarted | Running | Finished

  datatype Session = Session(c: nat, peer: nat, pump: Pump, pc: SessionPc)

  /** close() marks, cancels and closes under the lock, then waits for every thread. */
  datatype ClosePc = NotCalled | Marked | Cancelled | Closing(rest: set<nat>) | Awaiting | Returned

  datatype State = State(closed: bool, cancelled: bool, listening: bool, tracked: set<nat>, open: set<nat>, slots: int, running: int,
                         serve: ServePc, sessions: seq<Session>, closer: ClosePc, next: nat)

  datatype Action =
    | Accept | AcceptFails | TakeSlot | Full | TrackConn | GiveSlot | Spawn
    | Dial(i: nat, ok: bool) | TrackPeer(i: nat) | CopyEnds(i: nat) | Shut(i: nat) | PumpEnds(i: nat) | Forget(i: nat) | Close(i: nat)
    | Release(i: nat) | Leave(i: nat)
    | Mark | Cancel | CloseListener | CloseTracked(c: nat) | Unlock | Return

  predicate Locked(s: State) { s.closer.Marked? || s.closer.Cancelled? || s.closer.Closing? }

  function Initial(): State { State(false, false, true, {}, {}, 0, 1, Accepting, [], NotCalled, 0) }

  // ---- Steps --------------------------------------------------------------

  ghost predicate ServeStep(s: State, a: Action, s': State) {
    match a
    case Accept => s.serve == Accepting && s.listening && s' == s.(serve := Accepted(s.next), open := s.open + {s.next}, next := s.next + 1)
    case AcceptFails => s.serve == Accepting && s' == s.(serve := Stopped, running := s.running - 1)
    case TakeSlot => s.serve.Accepted? && s.slots < MaxSessions && s' == s.(serve := Slotted(s.serve.c), slots := s.slots + 1)
    case Full => s.serve.Accepted? && s.slots >= MaxSessions && s' == s.(serve := Accepting, open := s.open - {s.serve.c})
    case TrackConn =>
      && s.serve.Slotted? && !Locked(s)
      && s' == if s.closed then s.(serve := Refusing, open := s.open - {s.serve.c})
               else s.(serve := Admitted(s.serve.c), tracked := s.tracked + {s.serve.c})
    case GiveSlot => s.serve == Refusing && s' == s.(serve := Accepting, slots := s.slots - 1)
    case Spawn =>
      && s.serve.Admitted?
      && s' == s.(serve := Accepting, running := s.running + 1, sessions := s.sessions + [Session(s.serve.c, s.serve.c, NotStarted, Dialing)])
    case _ => false
  }

  function With(s: State, i: nat, t: Session): State requires i < |s.sessions| { s.(sessions := s.sessions[i := t]) }

  /** What session `t` at index `i` does. */
  ghost predicate SessionStep(s: State, a: Action, i: nat, s': State) requires i < |s.sessions| {
    var t := s.sessions[i];
    match a
    case Dial(_, ok) =>
      && t.pc == Dialing
      && s' == if ok then With(s, i, t.(peer := s.next, pc := Dialled)).(open := s.open + {s.next}, next := s.next + 1)
               else With(s, i, t.(pc := ForgettingConn))
    case TrackPeer(_) =>
      && t.pc == Dialled && !Locked(s)
      && s' == if s.closed then With(s, i, t.(pc := ForgettingConn)).(open := s.open - {t.peer})
               else With(s, i, t.(pc := Copying, pump := Running)).(tracked := s.tracked + {t.peer})
    case CopyEnds(_) => t.pc == Copying && s' == With(s, i, t.(pc := ShuttingConn))
    case Shut(_) =>
      if t.pc == ShuttingConn then s' == With(s, i, t.(pc := ShuttingPeer)).(open := s.open - {t.c})
      else t.pc == ShuttingPeer && s' == With(s, i, t.(pc := Waiting)).(open := s.open - {t.peer})
    case PumpEnds(_) => t.pump == Running && s' == With(s, i, t.(pump := Finished)).(open := s.open - {t.peer})
    case Forget(_) =>
      && !Locked(s)
      && if t.pc == Waiting then t.pump == Finished && s' == With(s, i, t.(pc := ClosingPeer)).(tracked := s.tracked - {t.peer})
         else t.pc == ForgettingConn && s' == With(s, i, t.(pc := ClosingConn)).(tracked := s.tracked - {t.c})
    case Close(_) =>
      if t.pc == ClosingPeer then s' == With(s, i, t.(pc := ForgettingConn)).(open := s.open - {t.peer})
      else t.pc == ClosingConn && s' == With(s, i, t.(pc := Releasing)).(open := s.open - {t.c})
    case Release(_) => t.pc == Releasing && s' == With(s, i, t.(pc := Leaving)).(slots := s.slots - 1)
    case Leave(_) => t.pc == Leaving && s' == With(s, i, t.(pc := Ended)).(running := s.running - 1)
    case _ => false
  }

  ghost predicate CloseStep(s: State, a: Action, s': State) {
    match a
    case Mark => s.closer == NotCalled && s' == s.(closed := true, closer := Marked)
    case Cancel => s.closer == Marked && s' == s.(cancelled := true, closer := Cancelled)
    case CloseListener => s.closer == Cancelled && s' == s.(listening := false, closer := Closing(s.tracked))
    case CloseTracked(c) => s.closer.Closing? && c in s.closer.rest && s' == s.(open := s.open - {c}, closer := Closing(s.closer.rest - {c}))
    case Unlock => s.closer == Closing({}) && s' == s.(closer := Awaiting)
    case Return => s.closer == Awaiting && s.running == 0 && s' == s.(closer := Returned)
    case _ => false
  }

  predicate OfSession(a: Action) {
    a.Dial? || a.TrackPeer? || a.CopyEnds? || a.Shut? || a.PumpEnds? || a.Forget? || a.Close? || a.Release? || a.Leave?
  }

  ghost predicate Next(s: State, a: Action, s': State) {
    if OfSession(a) then a.i < |s.sessions| && SessionStep(s, a, a.i, s') else ServeStep(s, a, s') || CloseStep(s, a, s')
  }

  // ---- Counting -----------------------------------------------------------

  predicate HoldsSlot(t: Session) { t.pc != Leaving && t.pc != Ended }

  function Holding(ts: seq<Session>): nat {
    if ts == [] then 0 else Holding(ts[..|ts| - 1]) + if HoldsSlot(ts[|ts| - 1]) then 1 else 0
  }

  function Alive(ts: seq<Session>): nat {
    if ts == [] then 0 else Alive(ts[..|ts| - 1]) + if ts[|ts| - 1].pc != Ended then 1 else 0
  }

  /** Steps a session can still take. */
  function Left(t: Session): nat {
    (match t.pc
     case Ended => 0 case Leaving => 1 case Releasing => 2 case ClosingConn => 3 case ForgettingConn => 4 case ClosingPeer => 5
     case Waiting => 7 case ShuttingPeer => 8 case ShuttingConn => 9 case Copying => 10 case Dialled => 12 case Dialing => 13)
    + if t.pump == Running then 1 else 0
  }

  function AllLeft(ts: seq<Session>): nat {
    if ts == [] then 0 else AllLeft(ts[..|ts| - 1]) + Left(ts[|ts| - 1])
  }

  lemma {:induction false} CountsUpdate(ts: seq<Session>, i: nat, t: Session)
    requires i < |ts|
    ensures Holding(ts[i := t]) == Holding(ts) - (if HoldsSlot(ts[i]) then 1 else 0) + if HoldsSlot(t) then 1 else 0
    ensures Alive(ts[i := t]) == Alive(ts) - (if ts[i].pc != Ended then 1 else 0) + if t.pc != Ended then 1 else 0
    ensures AllLeft(ts[i := t]) == AllLeft(ts) - Left(ts[i]) + Left(t)
  {
    var last := |ts| - 1;
    if i < last {
      CountsUpdate(ts[..last], i, t);
      assert ts[i := t][..last] == ts[..last][i := t];
    } else {
      assert ts[i := t][..last] == ts[..last];
    }
  }

  lemma {:induction false} NoneAlive(ts: seq<Session>)
    requires Alive(ts) == 0
    ensures forall i :: 0 <= i < |ts| ==> ts[i].pc == Ended
    ensures Holding(ts) == 0
  {
    if ts != [] { NoneAlive(ts[..|ts| - 1]); }
  }

  lemma CountsAppend(ts: seq<Session>, t: Session)
    ensures Holding(ts + [t]) == Holding(ts) + if HoldsSlot(t) then 1 else 0
    ensures Alive(ts + [t]) == Alive(ts) + if t.pc != Ended then 1 else 0
    ensures AllLeft(ts + [t]) == AllLeft(ts) + Left(t)
  {
    assert (ts + [t])[..|ts|] == ts;
  }

  // ---- Invariant ----------------------------------------------------------

  predicate ConnTracked(t: Session) { t.pc !in {ClosingConn, Releasing, Leaving, Ended} }
  predicate PeerTracked(t: Session) { t.pc in {Copying, ShuttingConn, ShuttingPeer, Waiting} }
  predicate ConnOpen(t: Session) { t.pc !in {Releasing, Leaving, Ended} }
  predicate PeerOpen(t: Session) { t.pc in {Dialled, Copying, ShuttingConn, ShuttingPeer, Waiting, ClosingPeer} }

  function ServeSlots(s: State): nat { if s.serve.Slotted? || s.serve.Refusing? || s.serve.Admitted? then 1 else 0 }

  ghost predicate CountsOk(s: State) {
    && s.slots == Holding(s.sessions) + ServeSlots(s) && s.slots <= MaxSessions
    && s.running == Alive(s.sessions) + if s.serve == Stopped then 0 else 1
  }

  predicate HasConn(p: ServePc) { p.Accepted? || p.Slotted? || p.Admitted? }

  predicate Shared(c: nat, t: Session) { t.c == c || t.peer == c }

  /** Sessions and the accept loop work on different connections. */
  ghost predicate Distinct(s: State) {
    && (forall i :: 0 <= i < |s.sessions| ==> s.sessions[i].c < s.next && s.sessions[i].peer < s.next)
    && (forall i, j :: 0 <= i < |s.sessions| && 0 <= j < |s.sessions| && i != j ==>
          !Shared(s.sessions[i].c, s.sessions[j]) && !Shared(s.sessions[i].peer, s.sessions[j]))
    && (HasConn(s.serve) ==>
          s.serve.c < s.next && forall i :: 0 <= i < |s.sessions| ==> !Shared(s.serve.c, s.sessions[i]))
    && (forall i :: 0 <= i < |s.sessions| && PeerOpen(s.sessions[i]) ==> s.sessions[i].peer != s.sessions[i].c)
  }

  ghost predicate TracksSession(s: State, t: Session) {
    (ConnTracked(t) ==> t.c in s.tracked) && (PeerTracked(t) ==> t.peer in s.tracked)
  }

  ghost predicate TracksLive(s: State) {
    && (forall i :: 0 <= i < |s.sessions| ==> TracksSession(s, s.sessions[i]))
    && (s.serve.Admitted? ==> s.serve.c in s.tracked)
  }

  predicate Owns(t: Session, c: nat) { (t.c == c && ConnOpen(t)) || (t.peer == c && PeerOpen(t)) }

  predicate TrackedFor(t: Session, c: nat) { (t.c == c && ConnTracked(t)) || (t.peer == c && PeerTracked(t)) }

  /** Every open connection has a thread that will close it. */
  ghost predicate OpenOwned(s: State) {
    forall c :: c in s.open ==>
      (HasConn(s.serve) && s.serve.c == c)
      || exists i :: 0 <= i < |s.sessions| && Owns(s.sessions[i], c)
  }

  ghost predicate TrackedOwned(s: State) {
    forall c :: c in s.tracked ==>
      (s.serve.Admitted? && s.serve.c == c) || exists i :: 0 <= i < |s.sessions| && TrackedFor(s.sessions[i], c)
  }

  /** The pump runs only while its session copies or waits for it. */
  ghost predicate PumpsOk(s: State) {
    forall i :: 0 <= i < |s.sessions| ==> PumpOk(s.sessions[i])
  }

  predicate PumpOk(t: Session) {
    && (t.pc in {Dialing, Dialled} ==> t.pump == NotStarted)
    && (t.pc in {Copying, ShuttingConn, ShuttingPeer, Waiting} ==> t.pump != NotStarted)
    && (t.pump == Running ==> t.pc in {Copying, ShuttingConn, ShuttingPeer, Waiting})
  }

  ghost predicate CloserOk(s: State) {
    && (s.closed <==> s.closer != NotCalled)
    && (s.listening <==> s.closer in {NotCalled, Marked, Cancelled})
    && (s.cancelled <==> s.closer !in {NotCalled, Marked})
    && (s.closer.Closing? ==> forall c :: c in s.tracked && c in s.open ==> c in s.closer.rest)
    && (s.closer == Awaiting || s.closer == Returned ==> forall c :: c in s.tracked ==> c !in s.open)
    && (s.closer == Returned ==> s.running == 0)
  }

  ghost predicate Inv(s: State) {
    CountsOk(s) && Distinct(s) && TracksLive(s) && OpenOwned(s) && TrackedOwned(s) && PumpsOk(s) && CloserOk(s)
  }

  lemma InitialInv()
    ensures Inv(Initial())
  {
    hide CountsOk, CloserOk, Distinct, TracksLive, OpenOwned, TrackedOwned, PumpsOk, Initial;
    InitialCounts();
    InitialSessions();
  }

  lemma InitialCounts()
    ensures CountsOk(Initial())
  {
    NoSessions();
    hide Holding, Alive;
  }

  lemma InitialSessions()
    ensures var s := Initial(); CloserOk(s) && Distinct(s) && TracksLive(s) && OpenOwned(s) && TrackedOwned(s) && PumpsOk(s)
  {
  }

  lemma NoSessions()
    ensures Holding([]) == 0 && Alive([]) == 0
  {
  }

  lemma CountsSession(s: State, a: Action, s': State)
    requires CountsOk(s) && OfSession(a) && a.i < |s.sessions| && SessionStep(s, a, a.i, s')
    ensures CountsOk(s')
  {
    hide SessionStep;
    StepOne(s, a, s');
    CountsUpdate(s.sessions, a.i, s'.sessions[a.i]);
    CountsStep(s, a, s');
  }

  lemma CountsStep(s: State, a: Action, s': State)
    requires OfSession(a) && a.i < |s.sessions| && SessionStep(s, a, a.i, s')
    ensures a.i < |s'.sessions| && s'.serve == s.serve
    ensures var t, t' := s.sessions[a.i], s'.sessions[a.i];
            && s'.slots == s.slots - (if HoldsSlot(t) && !HoldsSlot(t') then 1 else 0) && (HoldsSlot(t') ==> HoldsSlot(t))
            && s'.running == s.running - (if t.pc != Ended && t'.pc == Ended then 1 else 0) && (t'.pc != Ended ==> t.pc != Ended)
  {
  }

  /** Shutdown touches no session and no slot. */
  lemma CloseAside(s: State, a: Action, s': State)
    requires CloseStep(s, a, s')
    ensures s'.sessions == s.sessions && s'.serve == s.serve && s'.slots == s.slots && s'.running == s.running && s'.next == s.next
  {
  }

  lemma CountsServe(s: State, a: Action, s': State)
    requires CountsOk(s) && (ServeStep(s, a, s') || CloseStep(s, a, s'))
    ensures CountsOk(s')
  {
    hide CloseStep, ServeStep, CountsOk;
    if CloseStep(s, a, s') { CountsClose(s, a, s'); } else { CountsAccept(s, a, s'); }
  }

  lemma CountsClose(s: State, a: Action, s': State)
    requires CountsOk(s) && CloseStep(s, a, s')
    ensures CountsOk(s')
  {
    CloseAside(s, a, s');
    hide CloseStep, Holding, Alive;
  }

  lemma CountsAccept(s: State, a: Action, s': State)
    requires CountsOk(s) && ServeStep(s, a, s')
    ensures CountsOk(s')
  {
    hide Left, Holding, Alive;
    if a.Spawn? { CountsAppend(s.sessions, Session(s.serve.c, s.serve.c, NotStarted, Dialing)); }
  }

  /** A session step changes one session, and gives it at most a fresh peer. */
  ghost predicate OneSession(s: State, i: nat, s': State) requires i < |s.sessions| {
    && |s'.sessions| == |s.sessions| && s'.sessions == s.sessions[i := s'.sessions[i]] && s'.serve == s.serve
    && s'.sessions[i].c == s.sessions[i].c
    && ((s'.sessions[i].peer == s.sessions[i].peer && s'.next == s.next) || (s'.sessions[i].peer == s.next && s'.next == s.next + 1))
    && s'.closer == s.closer && s'.closed == s.closed && s'.cancelled == s.cancelled && s'.listening == s.listening
    && (PeerOpen(s'.sessions[i]) ==> s'.sessions[i].peer == s.next || (PeerOpen(s.sessions[i]) && s'.sessions[i].peer == s.sessions[i].peer))
  }

  lemma StepOne(s: State, a: Action, s': State)
    requires OfSession(a) && a.i < |s.sessions| && SessionStep(s, a, a.i, s')
    ensures OneSession(s, a.i, s')
  {
  }

  lemma DistinctSession(s: State, a: Action, s': State)
    requires Distinct(s) && OfSession(a) && a.i < |s.sessions| && OneSession(s, a.i, s')
    ensures Distinct(s')
  {
    hide PeerOpen;
    var i := a.i;
    forall j | 0 <= j < |s.sessions| && j != i
      ensures s'.sessions[j] == s.sessions[j]
      ensures !Shared(s'.sessions[i].c, s.sessions[j]) && !Shared(s'.sessions[i].peer, s.sessions[j])
      ensures !Shared(s.sessions[j].c, s'.sessions[i]) && !Shared(s.sessions[j].peer, s'.sessions[i])
    {
      assert !Shared(s.sessions[i].c, s.sessions[j]) && !Shared(s.sessions[i].peer, s.sessions[j]);
    }
  }

  lemma DistinctServe(s: State, a: Action, s': State)
    requires Distinct(s) && (ServeStep(s, a, s') || CloseStep(s, a, s'))
    ensures Distinct(s')
  {
    hide CloseStep, PeerOpen;
    if CloseStep(s, a, s') {
      CloseAside(s, a, s');
    } else if a.Spawn? {
      DistinctSpawn(s, s');
    }
  }

  lemma DistinctSpawn(s: State, s': State)
    requires Distinct(s) && ServeStep(s, Spawn, s')
    ensures Distinct(s')
  {
  }

  lemma LiveSession(s: State, a: Action, s': State)
    requires TracksLive(s) && Distinct(s) && OfSession(a) && a.i < |s.sessions| && SessionStep(s, a, a.i, s')
    ensures TracksLive(s')
  {
    hide SessionStep, ConnTracked, PeerTracked, PeerOpen;
    StepOne(s, a, s');
    assert TracksSession(s, s.sessions[a.i]);
    LiveStep(s, a, s');
    forall j | 0 <= j < |s.sessions| && j != a.i ensures TracksSession(s', s'.sessions[j]) {
      assert TracksSession(s, s.sessions[j]) && !Shared(s.sessions[j].c, s.sessions[a.i]) && !Shared(s.sessions[j].peer, s.sessions[a.i]);
    }
  }

  /** A session forgets only its own connections, and not before it is done with them. */
  lemma LiveStep(s: State, a: Action, s': State)
    requires OfSession(a) && a.i < |s.sessions| && SessionStep(s, a, a.i, s') && TracksSession(s, s.sessions[a.i])
    requires PeerOpen(s.sessions[a.i]) ==> s.sessions[a.i].peer != s.sessions[a.i].c
    ensures a.i < |s'.sessions| && TracksSession(s', s'.sessions[a.i])
    ensures forall x :: x in s.tracked && !Shared(x, s.sessions[a.i]) ==> x in s'.tracked
  {
  }

  lemma LiveServe(s: State, a: Action, s': State)
    requires TracksLive(s) && Distinct(s) && (ServeStep(s, a, s') || CloseStep(s, a, s'))
    ensures TracksLive(s')
  {
  }

  lemma OpenSession(s: State, a: Action, s': State)
    requires OpenOwned(s) && Distinct(s) && OfSession(a) && a.i < |s.sessions| && SessionStep(s, a, a.i, s')
    ensures OpenOwned(s')
  {
    StepOne(s, a, s');
    forall c | c in s'.open && !(HasConn(s.serve) && s.serve.c == c)
      ensures exists j :: 0 <= j < |s'.sessions| && Owns(s'.sessions[j], c)
    {
      if c in s.open {
        var j :| 0 <= j < |s.sessions| && Owns(s.sessions[j], c);
        if j == a.i { OwnsKept(s, a, s', c); } else { assert s'.sessions[j] == s.sessions[j]; }
        assert Owns(s'.sessions[j], c);
      } else {
        assert Owns(s'.sessions[a.i], c);
      }
    }
  }

  /** A session gives up a connection only by closing it. */
  lemma OwnsKept(s: State, a: Action, s': State, c: nat)
    requires OfSession(a) && a.i < |s.sessions| && SessionStep(s, a, a.i, s')
    requires Owns(s.sessions[a.i], c) && c in s'.open
    ensures Owns(s'.sessions[a.i], c)
  {
  }

  lemma OpenServe(s: State, a: Action, s': State)
    requires OpenOwned(s) && Distinct(s) && (ServeStep(s, a, s') || CloseStep(s, a, s'))
    ensures OpenOwned(s')
  {
    forall c | c in s'.open && !(HasConn(s'.serve) && s'.serve.c == c)
      ensures exists j :: 0 <= j < |s'.sessions| && Owns(s'.sessions[j], c)
    {
      if HasConn(s.serve) && s.serve.c == c {
        assert a.Spawn?;
        assert Owns(s'.sessions[|s.sessions|], c);
      } else {
        var j :| 0 <= j < |s.sessions| && Owns(s.sessions[j], c);
        assert s'.sessions[j] == s.sessions[j];
      }
    }
  }

  lemma OwnedSession(s: State, a: Action, s': State)
    requires TrackedOwned(s) && Distinct(s) && OfSession(a) && a.i < |s.sessions| && SessionStep(s, a, a.i, s')
    ensures TrackedOwned(s')
  {
    StepOne(s, a, s');
    forall c | c in s'.tracked && !(s.serve.Admitted? && s.serve.c == c)
      ensures exists j :: 0 <= j < |s'.sessions| && TrackedFor(s'.sessions[j], c)
    {
      if c in s.tracked {
        var j :| 0 <= j < |s.sessions| && TrackedFor(s.sessions[j], c);
        if j == a.i { TrackedKept(s, a, s', c); } else { assert s'.sessions[j] == s.sessions[j]; }
        assert TrackedFor(s'.sessions[j], c);
      } else {
        assert TrackedFor(s'.sessions[a.i], c);
      }
    }
  }

  lemma TrackedKept(s: State, a: Action, s': State, c: nat)
    requires OfSession(a) && a.i < |s.sessions| && SessionStep(s, a, a.i, s')
    requires TrackedFor(s.sessions[a.i], c) && c in s'.tracked
    ensures TrackedFor(s'.sessions[a.i], c)
  {
  }

  lemma OwnedServe(s: State, a: Action, s': State)
    requires TrackedOwned(s) && Distinct(s) && (ServeStep(s, a, s') || CloseStep(s, a, s'))
    ensures TrackedOwned(s')
  {
    forall c | c in s'.tracked && !(s'.serve.Admitted? && s'.serve.c == c)
      ensures exists j :: 0 <= j < |s'.sessions| && TrackedFor(s'.sessions[j], c)
    {
      if s.serve.Admitted? && s.serve.c == c {
        assert a.Spawn?;
        assert TrackedFor(s'.sessions[|s.sessions|], c);
      } else {
        var j :| 0 <= j < |s.sessions| && TrackedFor(s.sessions[j], c);
        assert s'.sessions[j] == s.sessions[j];
      }
    }
  }

  lemma PumpsSession(s: State, a: Action, s': State)
    requires PumpsOk(s) && OfSession(a) && a.i < |s.sessions| && SessionStep(s, a, a.i, s')
    ensures PumpsOk(s')
  {
    hide SessionStep;
    StepOne(s, a, s');
    assert PumpOk(s.sessions[a.i]);
    PumpStep(s, a, s');
  }

  lemma PumpStep(s: State, a: Action, s': State)
    requires OfSession(a) && a.i < |s.sessions| && SessionStep(s, a, a.i, s') && PumpOk(s.sessions[a.i])
    ensures a.i < |s'.sessions| && PumpOk(s'.sessions[a.i])
  {
  }

  lemma PumpsServe(s: State, a: Action, s': State)
    requires PumpsOk(s) && (ServeStep(s, a, s') || CloseStep(s, a, s'))
    ensures PumpsOk(s')
  {
  }

  lemma TrackedOld(s: State)
    requires Distinct(s) && TrackedOwned(s)
    ensures forall c :: c in s.tracked ==> c < s.next
  {
    forall c | c in s.tracked && !(s.serve.Admitted? && s.serve.c == c) ensures c < s.next {
      var j :| 0 <= j < |s.sessions| && TrackedFor(s.sessions[j], c);
    }
  }

  lemma CloserSession(s: State, a: Action, s': State)
    requires CloserOk(s) && s.closer != Returned && (forall c :: c in s.tracked ==> c < s.next) && OfSession(a) && a.i < |s.sessions| && SessionStep(s, a, a.i, s')
    ensures CloserOk(s')
  {
  }

  lemma CloserServe(s: State, a: Action, s': State)
    requires CloserOk(s) && s.closer != Returned && (forall c :: c in s.tracked ==> c < s.next) && (ServeStep(s, a, s') || CloseStep(s, a, s'))
    ensures CloserOk(s')
  {
  }

  /** Once close has returned, no thread is left to take a step. */
  lemma QuietAfterReturn(s: State, a: Action, s': State)
    requires CountsOk(s) && PumpsOk(s) && CloserOk(s) && s.closer == Returned
    ensures !Next(s, a, s')
  {
    NoneAlive(s.sessions);
    assert forall i :: 0 <= i < |s.sessions| ==> PumpOk(s.sessions[i]);
  }

  lemma NextInv(s: State, a: Action, s': State)
    requires Inv(s) && Next(s, a, s')
    ensures Inv(s')
  {
    hide CountsOk, Distinct, TracksLive, OpenOwned, TrackedOwned, PumpsOk, CloserOk, SessionStep, ServeStep, CloseStep;
    TrackedOld(s);
    if s.closer == Returned { QuietAfterReturn(s, a, s'); }
    if OfSession(a) {
      StepOne(s, a, s');
      CountsSession(s, a, s');
      DistinctSession(s, a, s');
      LiveSession(s, a, s');
      OpenSession(s, a, s');
      OwnedSession(s, a, s');
      PumpsSession(s, a, s');
      CloserSession(s, a, s');
    } else {
      CountsServe(s, a, s');
      DistinctServe(s, a, s');
      LiveServe(s, a, s');
      OpenServe(s, a, s');
      OwnedServe(s, a, s');
      PumpsServe(s, a, s');
      CloserServe(s, a, s');
    }
  }

  // ---- Runs ---------------------------------------------------------------

  ghost predicate IsRun(ss: seq<State>, acts: seq<Action>) {
    && |ss| == |acts| + 1 && ss[0] == Initial()
    && forall i :: 0 <= i < |acts| ==> Next(ss[i], acts[i], ss[i + 1])
  }

  lemma {:induction false} RunInv(ss: seq<State>, acts: seq<Action>, n: nat)
    requires IsRun(ss, acts) && n < |ss|
    ensures Inv(ss[n])
  {
    hide Inv, Next;
    InitialInv();
    if n > 0 {
      RunInv(ss, acts, n - 1);
      NextInv(ss[n - 1], acts[n - 1], ss[n]);
    }
  }

  /** The connections some session or the accept loop keeps tracked. */
  function Kept(ts: seq<Session>): (cs: set<nat>)
    ensures forall i, c :: 0 <= i < |ts| && TrackedFor(ts[i], c) ==> c in cs
    ensures |cs| <= 2 * Holding(ts)
  {
    if ts == [] then {}
    else
      var t := ts[|ts| - 1];
      Kept(ts[..|ts| - 1]) + (if ConnTracked(t) then {t.c} else {}) + (if PeerTracked(t) then {t.peer} else {})
  }

  lemma SubsetSize(a: set<nat>, b: set<nat>)
    requires a <= b
    ensures |a| <= |b|
  {
    if a != {} {
      var x :| x in a;
      SubsetSize(a - {x}, b - {x});
    }
  }

  lemma Bounded(s: State)
    requires Inv(s)
    ensures 0 <= s.slots <= MaxSessions && |s.tracked| <= MaxConnections
  {
    hide Distinct, TracksLive, OpenOwned, PumpsOk, CloserOk;
    var own := Kept(s.sessions) + if s.serve.Admitted? then {s.serve.c} else {};
    forall c | c in s.tracked ensures c in own {
      if !(s.serve.Admitted? && s.serve.c == c) { var i :| 0 <= i < |s.sessions| && TrackedFor(s.sessions[i], c); }
    }
    SubsetSize(s.tracked, own);
  }

  /** Under every interleaving: the limits hold, and after close nothing new is ever tracked. */
  lemma RelayLimits(ss: seq<State>, acts: seq<Action>, n: nat)
    requires IsRun(ss, acts) && n < |ss|
    ensures 0 <= ss[n].slots <= MaxSessions && |ss[n].tracked| <= MaxConnections
    ensures n + 1 < |ss| && ss[n].closed ==> ss[n + 1].closed && ss[n + 1].tracked <= ss[n].tracked
  {
    RunInv(ss, acts, n);
    Bounded(ss[n]);
    if n + 1 < |ss| && ss[n].closed { TracksNothingNew(ss[n], acts[n], ss[n + 1]); }
  }

  lemma TracksNothingNew(s: State, a: Action, s': State)
    requires Next(s, a, s') && s.closed
    ensures s'.closed && s'.tracked <= s.tracked
  {
  }

  /** When close has returned every connection is closed, every session has ended and its slot is free. */
  lemma ShutdownIsComplete(ss: seq<State>, acts: seq<Action>, n: nat)
    requires IsRun(ss, acts) && n < |ss| && ss[n].closer == Returned
    ensures ss[n].open == {} && ss[n].tracked == {} && ss[n].slots == 0 && ss[n].serve == Stopped
    ensures forall i :: 0 <= i < |ss[n].sessions| ==> ss[n].sessions[i].pc == Ended && ss[n].sessions[i].pump != Running
    ensures n + 1 == |ss|
  {
    RunInv(ss, acts, n);
    var s := ss[n];
    NoneAlive(s.sessions);
    assert forall i :: 0 <= i < |s.sessions| ==> PumpOk(s.sessions[i]);
    if n + 1 < |ss| { QuietAfterReturn(s, acts[n], ss[n + 1]); }
  }

  // ---- Termination and progress -------------------------------------------

  function ServeLeft(p: ServePc): nat {
    match p
    case Stopped => 0 case Accepting => 1 case Refusing => 2 case Admitted(_) => 15 case Slotted(_) => 16 case Accepted(_) => 17
  }

  function CloserLeft(c: ClosePc): nat {
    match c
    case Returned => 0 case Awaiting => 1 case Closing(rest) => 2 + |rest|
    case _ => 0
  }

  function Work(s: State): nat { AllLeft(s.sessions) + ServeLeft(s.serve) + CloserLeft(s.closer) }

  /** Once the listener is closed every step, whoever takes it, uses up work. */
  lemma WorkDecreases(s: State, a: Action, s': State)
    requires Inv(s) && Next(s, a, s') && !s.listening
    ensures Work(s') < Work(s) && !s'.listening
  {
    hide CountsOk, Distinct, TracksLive, OpenOwned, TrackedOwned, PumpsOk;
    if OfSession(a) {
      StepOne(s, a, s');
      CountsUpdate(s.sessions, a.i, s'.sessions[a.i]);
      LeftDecreases(s, a, s');
    } else {
      if a.Spawn? { CountsAppend(s.sessions, Session(s.serve.c, s.serve.c, NotStarted, Dialing)); }
    }
  }

  lemma LeftDecreases(s: State, a: Action, s': State)
    requires OfSession(a) && a.i < |s.sessions| && SessionStep(s, a, a.i, s')
    ensures a.i < |s'.sessions| && Left(s'.sessions[a.i]) < Left(s.sessions[a.i])
  {
    StepOrder(s, a, s');
    hide SessionStep;
  }

  /** The order of a session's steps. */
  lemma StepOrder(s: State, a: Action, s': State)
    requires OfSession(a) && a.i < |s.sessions| && SessionStep(s, a, a.i, s')
    ensures a.i < |s'.sessions|
    ensures var t, t' := s.sessions[a.i], s'.sessions[a.i];
            || (t'.pc == t.pc && t.pump == Running && t'.pump == Finished)
            || (t.pc == Dialled && t'.pc == Copying)
            || (t'.pump == t.pump && (t.pc, t'.pc) in {
                  (Dialing, Dialled), (Dialing, ForgettingConn), (Dialled, ForgettingConn), (Copying, ShuttingConn),
                  (ShuttingConn, ShuttingPeer), (ShuttingPeer, Waiting), (Waiting, ClosingPeer), (ClosingPeer, ForgettingConn),
                  (ForgettingConn, ClosingConn), (ClosingConn, Releasing), (Releasing, Leaving), (Leaving, Ended)})
  {
  }

  /** At most as many steps follow the closing of the listener as there was work left. */
  lemma {:induction false} CloseTerminates(ss: seq<State>, acts: seq<Action>, n: nat)
    requires IsRun(ss, acts) && n < |ss| && !ss[n].listening
    ensures |acts| - n <= Work(ss[n])
    decreases |ss| - n
  {
    if n < |acts| {
      RunInv(ss, acts, n);
      WorkDecreases(ss[n], acts[n], ss[n + 1]);
      CloseTerminates(ss, acts, n + 1);
    }
  }

  /** Steps that no peer can hold up: a dial ends once cancelled, and a copy ends once both its connections are closed. */
  predicate Unblocked(s: State, a: Action) {
    match a
    case Accept => false
    case AcceptFails => !s.listening
    case Dial(_, ok) => !ok && s.cancelled
    case CopyEnds(i) => i < |s.sessions| && s.sessions[i].c !in s.open && s.sessions[i].peer !in s.open
    case PumpEnds(i) => i < |s.sessions| && s.sessions[i].c !in s.open && s.sessions[i].peer !in s.open
    case _ => true
  }

  lemma {:induction false} SomeAlive(ts: seq<Session>) returns (i: nat)
    requires Alive(ts) > 0
    ensures i < |ts| && ts[i].pc != Ended
  {
    i := |ts| - 1;
    if ts[i].pc == Ended { i := SomeAlive(ts[..i]); }
  }

  /** Until close returns there is always a step no peer can hold up. */
  lemma CloseProgresses(s: State) returns (a: Action, s': State)
    requires Inv(s) && !s.listening && s.closer != Returned
    ensures Unblocked(s, a) && Next(s, a, s')
  {
    hide Distinct, OpenOwned, TrackedOwned;
    if s.closer.Closing? {
      if s.closer.rest == {} { return Unlock, s.(closer := Awaiting); }
      var c :| c in s.closer.rest;
      return CloseTracked(c), s.(open := s.open - {c}, closer := Closing(s.closer.rest - {c}));
    }
    if s.running == 0 { return Return, s.(closer := Returned); }
    if s.serve != Stopped {
      a, s' := ServeProgresses(s);
    } else {
      var i := SomeAlive(s.sessions);
      a, s' := SessionProgresses(s, i);
    }
  }

  lemma ServeProgresses(s: State) returns (a: Action, s': State)
    requires s.serve != Stopped && !s.listening && s.closed && !Locked(s)
    ensures Unblocked(s, a) && !OfSession(a) && ServeStep(s, a, s')
  {
    match s.serve
    case Accepting => return AcceptFails, s.(serve := Stopped, running := s.running - 1);
    case Accepted(c) =>
      if s.slots < MaxSessions { return TakeSlot, s.(serve := Slotted(c), slots := s.slots + 1); }
      return Full, s.(serve := Accepting, open := s.open - {c});
    case Slotted(c) => return TrackConn, s.(serve := Refusing, open := s.open - {c});
    case Refusing => return GiveSlot, s.(serve := Accepting, slots := s.slots - 1);
    case Admitted(c) =>
      return Spawn, s.(serve := Accepting, running := s.running + 1, sessions := s.sessions + [Session(c, c, NotStarted, Dialing)]);
  }

  lemma SessionProgresses(s: State, i: nat) returns (a: Action, s': State)
    requires i < |s.sessions| && s.sessions[i].pc != Ended && PumpsOk(s) && TracksLive(s)
    requires s.closed && s.cancelled && !Locked(s) && forall c :: c in s.tracked ==> c !in s.open
    ensures Unblocked(s, a) && OfSession(a) && a.i == i && SessionStep(s, a, i, s')
  {
    var t := s.sessions[i];
    assert PumpOk(t) && TracksSession(s, t);
    match t.pc
    case Dialing => return Dial(i, false), With(s, i, t.(pc := ForgettingConn));
    case Dialled => return TrackPeer(i), With(s, i, t.(pc := ForgettingConn)).(open := s.open - {t.peer});
    case Copying => return CopyEnds(i), With(s, i, t.(pc := ShuttingConn));
    case ShuttingConn => return Shut(i), With(s, i, t.(pc := ShuttingPeer)).(open := s.open - {t.c});
    case ShuttingPeer => return Shut(i), With(s, i, t.(pc := Waiting)).(open := s.open - {t.peer});
    case Waiting =>
      if t.pump == Running { return PumpEnds(i), With(s, i, t.(pump := Finished)).(open := s.open - {t.peer}); }
      return Forget(i), With(s, i, t.(pc := ClosingPeer)).(tracked := s.tracked - {t.peer});
    case ClosingPeer => return Close(i), With(s, i, t.(pc := ForgettingConn)).(open := s.open - {t.peer});
    case ForgettingConn => return Forget(i), With(s, i, t.(pc := ClosingConn)).(tracked := s.tracked - {t.c});
    case ClosingConn => return Close(i), With(s, i, t.(pc := Releasing)).(open := s.open - {t.c});
    case Releasing => return Release(i), With(s, i, t.(pc := Leaving)).(slots := s.slots - 1);
    case Leaving => return Leave(i), With(s, i, t.(pc := Ended)).(running := s.running - 1);
    case Ended =>
  }

  // ---- Admission ------------------------------------------------------------

  /** A connection is turned away only while sixteen sessions hold slots, or once the relay is closed; otherwise the
      accept loop takes it on to a session of its own. */
  lemma RefusedOnlyWhenFull(ss: seq<State>, acts: seq<Action>, n: nat)
    requires IsRun(ss, acts) && n < |acts| && HasConn(ss[n].serve) && !HasConn(ss[n + 1].serve)
    ensures || (acts[n] == Full && Holding(ss[n].sessions) == MaxSessions)
            || (acts[n] == TrackConn && ss[n].closed)
            || (acts[n] == Spawn && ss[n].serve.c in ss[n].tracked
                && ss[n + 1].sessions == ss[n].sessions + [Session(ss[n].serve.c, ss[n].serve.c, NotStarted, Dialing)])
  {
    RunInv(ss, acts, n);
    var s, a, s' := ss[n], acts[n], ss[n + 1];
    assert Next(s, a, s');
    hide Distinct, OpenOwned, TrackedOwned, PumpsOk;
    if OfSession(a) {
      StepOne(s, a, s');
    } else if CloseStep(s, a, s') {
      CloseAside(s, a, s');
    }
  }

  /** While fewer than sixteen sessions hold slots and the relay is open, nothing but its own steps stands between an
      accepted connection and its session. */
  lemma AdmittedWhenRoom(s: State) returns (s1: State, s2: State, s3: State)
    requires Inv(s) && s.serve.Accepted? && !s.closed && Holding(s.sessions) < MaxSessions
    ensures Next(s, TakeSlot, s1) && Next(s1, TrackConn, s2) && Next(s2, Spawn, s3)
    ensures s3.sessions == s.sessions + [Session(s.serve.c, s.serve.c, NotStarted, Dialing)] && s.serve.c in s3.tracked
    ensures forall s' :: !Next(s, Full, s')
  {
    hide Distinct, TracksLive, OpenOwned, TrackedOwned, PumpsOk;
    s1 := s.(serve := Slotted(s.serve.c), slots := s.slots + 1);
    s2 := s1.(serve := Admitted(s.serve.c), tracked := s1.tracked + {s.serve.c});
    s3 := s2.(serve := Accepting, running := s2.running + 1, sessions := s2.sessions + [Session(s.serve.c, s.serve.c, NotStarted, Dialing)]);
  }
}
