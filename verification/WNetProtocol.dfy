/** Ownership of SMB connections: a durable record per endpoint, crossed with boots, logon sessions and
    the connections that are live.  A crash may happen between any two steps. Other software makes
    connections only between operations; a connection may go away at any time. */
module WNetProtocol {
  import opened Options
  import opened Text

  type Key = string
  type Token = string

  datatype Phase = Intent | Connected | Releasing

  /** `key` stands for the digest of the lower-case remote name. */
  datatype Rec = Rec(key: Key, token: Token, remote: string, user: string, port: nat,
                     boot: nat, logon: string, phase: Phase, connectedUser: string)

  /** A connection instance; `owner` is a ghost tag, the token whose add made it. */
  datatype Conn = Conn(user: string, serial: nat, owner: Option<Token>)

  datatype Endpoint = Endpoint(logon: string, key: Key)

  /** Where the running operation is. */
  datatype Pc =
    | Idle
    | Armed(rec: Rec)       // the intent is durable, the connection not yet added
    | Created(rec: Rec)     // the add succeeded
    | Cancelling(rec: Rec)  // "releasing" is durable
    | Restoring(rec: Rec)   // the cancel was refused: the connection is in use
    | Deleting(rec: Rec)    // cancelled, the record still there

  datatype World = World(boot: nat, logon: string, store: map<Key, Rec>, live: map<Endpoint, Conn>, next: nat, pc: Pc)

  datatype CancelOutcome = Cancelled | InUse | Failed(gone: bool)

  datatype Action =
    | Crash | Reboot | Relogon | Connect(e: Endpoint) | Disconnect(e: Endpoint)
    | PutIntent(rec: Rec, ok: bool) | AddConn(ok: bool, made: bool) | PutConnected(user: string, ok: bool) | GiveUp
    | PutReleasing(key: Key, ok: bool) | Cancel(how: CancelOutcome) | PutRestored(ok: bool) | Delete(ok: bool)
    | DeleteGone(key: Key, ok: bool)

  function Here(w: World, key: Key): Endpoint { Endpoint(w.logon, key) }

  /** A failed put leaves the old or the new record. */
  ghost predicate Put(w: World, rec: Rec, ok: bool, w': World, next: Pc) {
    && (w'.store == w.store[rec.key := rec] || (!ok && w'.store == w.store))
    && w' == w.(store := w'.store, pc := next)
  }

  ghost predicate Erase(w: World, key: Key, ok: bool, w': World) {
    && (w'.store == w.store - {key} || (!ok && w'.store == w.store))
    && w' == w.(store := w'.store, pc := Idle)
  }

  /** A connected record of this boot claims the endpoint for its user. */
  predicate Reserved(w: World, e: Endpoint, user: string) {
    && e.key in w.store && w.store[e.key].phase == Connected && w.store[e.key].boot == w.boot && w.store[e.key].logon == e.logon
    && EqualFold(user, w.store[e.key].connectedUser)
  }

  /** Other software does not connect as the user for whom a connected record claims the endpoint. */
  ghost predicate ConnectStep(w: World, e: Endpoint, w': World) {
    && w.pc == Idle && e !in w.live
    && e in w'.live && w'.live[e].owner == None && w'.live[e].serial == w.next && !Reserved(w, e, w'.live[e].user)
    && w' == w.(live := w.live[e := w'.live[e]], next := w.next + 1)
  }

  ghost predicate AddStep(w: World, ok: bool, made: bool, w': World) {
    && w.pc.Armed? && (ok ==> made)
    && var e := Here(w, w.pc.rec.key);
    && (if made
        then e in w'.live && w'.live[e].owner == Some(w.pc.rec.token) && w'.live[e].serial == w.next
             && w' == w.(live := w.live[e := w'.live[e]], next := w.next + 1, pc := if ok then Created(w.pc.rec) else Idle)
        else w' == w.(pc := Idle))
  }

  ghost predicate CancelStep(w: World, how: CancelOutcome, w': World) {
    && w.pc.Cancelling?
    && var e := Here(w, w.pc.rec.key);
    && match how
       case Cancelled => w' == w.(live := w.live - {e}, pc := Deleting(w.pc.rec))
       case InUse => w' == w.(pc := Restoring(w.pc.rec))
       case Failed(gone) => w' == w.(live := if gone then w.live - {e} else w.live, pc := Idle)
  }

  ghost predicate Next(w: World, a: Action, w': World) {
    match a
    case Crash => w' == w.(pc := Idle)
    case Reboot => w' == World(w.boot + 1, w'.logon, w.store, map[], w.next, Idle)
    case Relogon => w.pc == Idle && w' == w.(logon := w'.logon)
    case Connect(e) => ConnectStep(w, e, w')
    case Disconnect(e) => w' == w.(live := w.live - {e})
    case PutIntent(rec, ok) =>
      && w.pc == Idle && rec.key !in w.store && Here(w, rec.key) !in w.live
      && rec.boot == w.boot && rec.logon == w.logon && rec.phase == Intent
      && Put(w, rec, ok, w', if ok then Armed(rec) else Idle)
    case AddConn(ok, made) => AddStep(w, ok, made, w')
    case PutConnected(user, ok) =>
      && w.pc.Created? && Put(w, w.pc.rec.(phase := Connected, connectedUser := user), ok, w', Idle)
    case GiveUp => w.pc.Created? && w' == w.(pc := Idle)
    case PutReleasing(key, ok) =>
      && w.pc == Idle && key in w.store
      && var rec := w.store[key];
      && rec.key == key && rec.boot == w.boot && rec.logon == w.logon && rec.phase == Connected
      && Here(w, key) in w.live && EqualFold(w.live[Here(w, key)].user, rec.connectedUser)
      && Put(w, rec.(phase := Releasing), ok, w', if ok then Cancelling(rec) else Idle)
    case Cancel(how) => CancelStep(w, how, w')
    case PutRestored(ok) => w.pc.Restoring? && Put(w, w.pc.rec.(phase := Connected), ok, w', Idle)
    case Delete(ok) => w.pc.Deleting? && Erase(w, w.pc.rec.key, ok, w')
    case DeleteGone(key, ok) =>
      && w.pc == Idle && key in w.store
      && (w.store[key].boot != w.boot || (w.store[key].logon == w.logon && Here(w, key) !in w.live))
      && Erase(w, key, ok, w')
  }

  // ---- Invariant ----------------------------------------------------------

  /** A connection the agent made is recorded under its token, boot and session. */
  ghost predicate Tracked(w: World) {
    forall e :: e in w.live && w.live[e].owner.Some? ==>
      && e.key in w.store && w.store[e.key].token == w.live[e].owner.value
      && w.store[e.key].boot == w.boot && w.store[e.key].logon == e.logon
  }

  /** What is live where a connected record claims it for its user is the agent's. */
  ghost predicate ConnectedIsOwn(w: World) {
    forall e :: e in w.live && Reserved(w, e, w.live[e].user) ==> w.live[e].owner == Some(w.store[e.key].token)
  }

  /** What is live at the record's endpoint, if anything, came from its token's add. */
  ghost predicate OwnIfLive(w: World, rec: Rec) {
    Here(w, rec.key) in w.live ==> w.live[Here(w, rec.key)].owner == Some(rec.token)
  }

  ghost predicate PcOk(w: World) {
    w.pc != Idle ==>
      var rec := w.pc.rec;
      && rec.key in w.store && rec.boot == w.boot && rec.logon == w.logon
      && match w.pc
         case Armed(_) => w.store[rec.key] == rec && rec.phase == Intent && Here(w, rec.key) !in w.live
         case Created(_) => w.store[rec.key] == rec && OwnIfLive(w, rec)
         case Cancelling(_) => w.store[rec.key] == rec.(phase := Releasing) && OwnIfLive(w, rec)
         case Restoring(_) => w.store[rec.key] == rec.(phase := Releasing) && OwnIfLive(w, rec)
         case Deleting(_) => w.store[rec.key] == rec.(phase := Releasing) && Here(w, rec.key) !in w.live
         case Idle => true
  }

  ghost predicate Inv(w: World) {
    && (forall key :: key in w.store ==> w.store[key].key == key)
    && (forall e :: e in w.live ==> w.live[e].serial < w.next)
    && Tracked(w) && ConnectedIsOwn(w) && PcOk(w)
  }

  ghost predicate Init(w: World) {
    w.store == map[] && w.pc == Idle && forall e :: e in w.live ==> w.live[e].owner == None && w.live[e].serial < w.next
  }

  lemma NextInv(w: World, a: Action, w': World)
    requires Inv(w) && Next(w, a, w')
    ensures Inv(w')
  {
    hide Inv, Next;
    if a.AddConn? { AddKeeps(w, a, w'); }
    else if a.PutIntent? || a.PutConnected? || a.PutReleasing? || a.PutRestored? { PutStepKeeps(w, a, w'); }
    else if a.Connect? || a.Disconnect? { OthersKeep(w, a, w'); }
    else if a.Delete? || a.DeleteGone? { DeleteKeeps(w, a, w'); }
    else if a.Cancel? { CancelKeeps(w, a, w'); }
    else { EndKeeps(w, a, w'); }
  }

  lemma AddKeeps(w: World, a: Action, w': World)
    requires Inv(w) && Next(w, a, w') && a.AddConn?
    ensures Inv(w')
  {
  }

  lemma CancelKeeps(w: World, a: Action, w': World)
    requires Inv(w) && Next(w, a, w') && a.Cancel?
    ensures Inv(w')
  {
    FewerLive(w, w');
    hide Tracked, ConnectedIsOwn;
  }

  /** Connections that go away break no claim. */
  lemma FewerLive(w: World, w': World)
    requires Inv(w) && w'.store == w.store && w'.boot == w.boot && w'.next == w.next
    requires forall e :: e in w'.live ==> e in w.live && w'.live[e] == w.live[e]
    ensures Tracked(w') && ConnectedIsOwn(w') && forall e :: e in w'.live ==> w'.live[e].serial < w'.next
  {
    hide PcOk;
    forall e | e in w'.live ensures Reserved(w', e, w'.live[e].user) == Reserved(w, e, w.live[e].user) {}
  }

  lemma OthersKeep(w: World, a: Action, w': World)
    requires Inv(w) && Next(w, a, w') && (a.Connect? || a.Disconnect?)
    ensures Inv(w')
  {
  }

  lemma DeleteKeeps(w: World, a: Action, w': World)
    requires Inv(w) && Next(w, a, w') && (a.Delete? || a.DeleteGone?)
    ensures Inv(w')
  {
    hide EqualFold;
  }

  lemma EndKeeps(w: World, a: Action, w': World)
    requires Inv(w) && Next(w, a, w') && (a.Crash? || a.Reboot? || a.Relogon? || a.GiveUp?)
    ensures Inv(w')
  {
  }

  lemma PutStepKeeps(w: World, a: Action, w': World)
    requires Inv(w) && Next(w, a, w') && (a.PutIntent? || a.PutConnected? || a.PutReleasing? || a.PutRestored?)
    ensures Inv(w')
  {
    match a
    case PutIntent(rec, ok) => PutKeeps(w, rec, ok, w', if ok then Armed(rec) else Idle);
    case PutConnected(user, ok) => PutKeeps(w, w.pc.rec.(phase := Connected, connectedUser := user), ok, w', Idle);
    case PutReleasing(key, ok) => PutKeeps(w, w.store[key].(phase := Releasing), ok, w', if ok then Cancelling(w.store[key]) else Idle);
    case PutRestored(ok) => PutKeeps(w, w.pc.rec.(phase := Connected), ok, w', Idle);
  }

  /** A put keeps the claims if it keeps the owner of what is live, and claims "connected" only for an own connection. */
  lemma PutKeeps(w: World, rec: Rec, ok: bool, w': World, next: Pc)
    requires Inv(w) && Put(w, rec, ok, w', next)
    requires rec.boot == w.boot && rec.logon == w.logon
    requires rec.key in w.store ==> w.store[rec.key].token == rec.token && w.store[rec.key].boot == rec.boot && w.store[rec.key].logon == rec.logon
    requires rec.phase == Connected ==> OwnIfLive(w, rec)
    ensures Tracked(w') && ConnectedIsOwn(w')
    ensures forall key :: key in w'.store ==> w'.store[key].key == key
  {
  }

  // ---- Runs ---------------------------------------------------------------

  ghost predicate IsRun(ws: seq<World>, acts: seq<Action>) {
    && |ws| == |acts| + 1
    && forall i :: 0 <= i < |acts| ==> Next(ws[i], acts[i], ws[i + 1])
  }

  lemma {:induction false} RunInv(ws: seq<World>, acts: seq<Action>, n: nat)
    requires IsRun(ws, acts) && Init(ws[0]) && n < |ws|
    ensures Inv(ws[n])
  {
    if n > 0 {
      RunInv(ws, acts, n - 1);
      NextInv(ws[n - 1], acts[n - 1], ws[n]);
    }
  }

  /** Over any run with crashes, failed puts, refused cancels, logon changes and reboots: what is
      cancelled is a connection the same token's add made. */
  lemma NeverCancelsForeign(ws: seq<World>, acts: seq<Action>, n: nat)
    requires IsRun(ws, acts) && Init(ws[0]) && n < |acts| && acts[n].Cancel?
    ensures ws[n].pc.Cancelling? && OwnIfLive(ws[n], ws[n].pc.rec)
    ensures ws[n].pc.rec.boot == ws[n].boot && ws[n].pc.rec.logon == ws[n].logon
  {
    RunInv(ws, acts, n);
    assert Next(ws[n], acts[n], ws[n + 1]);
  }

  /** A step either keeps the instance at an endpoint, or is the add that made it. */
  lemma InstanceStep(w: World, a: Action, w': World, e: Endpoint)
    requires Inv(w) && Next(w, a, w') && e in w'.live && w'.live[e].owner.Some?
    ensures (e in w.live && w.live[e] == w'.live[e] && w.boot == w'.boot)
            || (a.AddConn? && w.pc.Armed? && e == Here(w, w.pc.rec.key) && w'.live[e].owner == Some(w.pc.rec.token)
                && w'.live[e].serial == w.next && w.boot == w'.boot && e.key in w.store && w.store[e.key] == w.pc.rec)
  {
    hide Tracked, ConnectedIsOwn;
  }

  /** The instance that carries a token was made by an add under that token, in this boot and session,
      with the token's intent durable before. */
  lemma {:induction false} InstanceHasItsAdd(ws: seq<World>, acts: seq<Action>, n: nat, e: Endpoint) returns (i: nat)
    requires IsRun(ws, acts) && Init(ws[0]) && n < |ws|
    requires e in ws[n].live && ws[n].live[e].owner.Some?
    ensures i < n && acts[i].AddConn? && ws[i].pc.Armed?
    ensures ws[i].pc.rec.token == ws[n].live[e].owner.value && e == Here(ws[i], ws[i].pc.rec.key) && ws[i].boot == ws[n].boot
    ensures e.key in ws[i].store && ws[i].store[e.key] == ws[i].pc.rec && ws[n].live[e].serial == ws[i].next
  {
    if n == 0 { assert false; }
    RunInv(ws, acts, n - 1);
    hide Inv, Next, Init;
    InstanceStep(ws[n - 1], acts[n - 1], ws[n], e);
    if e in ws[n - 1].live && ws[n - 1].live[e] == ws[n].live[e] && ws[n - 1].boot == ws[n].boot {
      i := InstanceHasItsAdd(ws, acts, n - 1, e);
    } else {
      i := n - 1;
    }
  }

  /** Every instance the agent cancels is the one its record's token added, in the same boot and session. */
  lemma CancelledInstanceHasItsAdd(ws: seq<World>, acts: seq<Action>, n: nat) returns (i: nat)
    requires IsRun(ws, acts) && Init(ws[0]) && n < |acts| && acts[n].Cancel?
    ensures ws[n].pc.Cancelling?
    ensures var rec := ws[n].pc.rec; var e := Here(ws[n], rec.key);
            e in ws[n].live ==>
              && i < n && acts[i].AddConn? && ws[i].pc.Armed? && ws[i].pc.rec.token == rec.token
              && e == Here(ws[i], ws[i].pc.rec.key) && ws[i].boot == ws[n].boot && ws[n].live[e].serial == ws[i].next
  {
    NeverCancelsForeign(ws, acts, n);
    var e := Here(ws[n], ws[n].pc.rec.key);
    if e in ws[n].live {
      i := InstanceHasItsAdd(ws, acts, n, e);
    } else {
      i := 0;
    }
  }

  /** While a connection the agent made is live in this boot, a record with its token exists. */
  lemma NoUntrackedConnection(ws: seq<World>, acts: seq<Action>, n: nat, e: Endpoint)
    requires IsRun(ws, acts) && Init(ws[0]) && n < |ws|
    requires e in ws[n].live && ws[n].live[e].owner.Some?
    ensures e.key in ws[n].store && ws[n].store[e.key].token == ws[n].live[e].owner.value
  {
    RunInv(ws, acts, n);
  }

  /** The reservation is exact: a connection that other software makes where it is reserved, and only there by
      NeverCancelsForeign, can be cancelled, namely by the next removal in that session. */
  lemma ReservationNeeded(w: World, e: Endpoint, user: string) returns (v: World, u: World, u': World)
    requires Inv(w) && w.pc == Idle && e !in w.live && Reserved(w, e, user)
    ensures v == w.(live := w.live[e := Conn(user, w.next, None)], next := w.next + 1) && !ConnectStep(w, e, v)
    ensures Next(v, Relogon, u) && u.live == v.live && u.logon == e.logon
    ensures Next(u, PutReleasing(e.key, true), u') && u'.pc.Cancelling? && u'.live[Here(u', e.key)].owner == None
    ensures Next(u', Cancel(Cancelled), u'.(live := u'.live - {e}, pc := Deleting(u'.pc.rec)))
  {
    hide Tracked, ConnectedIsOwn, PcOk, EqualFold;
    v := w.(live := w.live[e := Conn(user, w.next, None)], next := w.next + 1);
    u := v.(logon := e.logon);
    var rec := w.store[e.key];
    u' := u.(store := u.store[e.key := rec.(phase := Releasing)], pc := Cancelling(rec));
  }

  /** A connection of another user there, or of any user elsewhere, keeps the invariant. */
  lemma UnreservedIsSafe(w: World, e: Endpoint, user: string)
    requires Inv(w) && w.pc == Idle && e !in w.live && !Reserved(w, e, user)
    ensures Inv(w.(live := w.live[e := Conn(user, w.next, None)], next := w.next + 1))
  {
    hide Inv;
    NextInv(w, Connect(e), w.(live := w.live[e := Conn(user, w.next, None)], next := w.next + 1));
  }
}
