/** One operation of the SMB connection backend, run as steps of the ownership protocol. */
module WNetBackend {
  import opened Options
  import opened Writes
  import opened Text
  import opened P = WNetProtocol

  datatype Op = Add | Check | Remove | Unknown

  /** `password` never reaches a record. */
  datatype Request = Request(op: Op, key: Key, remote: string, user: string, password: string, token: Token, port: int)

  datatype AddOutcome = Added(user: string) | AddedThenLost | Refused(made: bool, user: string)

  /** What the native calls of one operation answer, in the order they may be made.  The server connects nobody
      without the user's password, `secret`. */
  datatype Native = Native(identityOk: bool, getOk: bool, queryOk: bool, intent: Write, secret: string, add: AddOutcome, againOk: bool,
                           settle: Write, releasing: Write, cancel: CancelOutcome, restore: Write, delete: Write)

  datatype Error =
    | InvalidRequest | IdentityFailed | LookupFailed | AlreadyRecorded | QueryFailed | Unowned | IntentFailed | AddFailed
    | CreatedUncertain | SettleFailed | Uncertain | DeleteFailed | IdentityChanged | Absent | ReleasingFailed
    | CancelFailed | BusyRestored | BusyNotRestored | UnknownOperation

  datatype Outcome = Done | Rejected(error: Error)

  // ---- Names --------------------------------------------------------------

  predicate HexDigit(c: char) { '0' <= c <= '9' || 'a' <= c <= 'f' || 'A' <= c <= 'F' }

  predicate IsToken(t: string) { |t| == 32 && forall i :: 0 <= i < |t| ==> HexDigit(t[i]) }

  /** `rec` may be stored under `key`. */
  predicate ValidRecord(key: Key, rec: Rec) {
    && key == rec.key && key == Lower(rec.remote) && IsToken(rec.token)
    && rec.remote != "" && rec.user != "" && (rec.port == 0 || rec.port == 445) && rec.logon != ""
    && (rec.phase == Intent || rec.connectedUser != "")
  }

  predicate ValidRequest(r: Request) {
    r.key == Lower(r.remote) && IsToken(r.token) && r.user != "" && (r.port == 0 || r.port == 445)
  }

  /** The first index past the last backslash. */
  function LeafStart(s: string): (i: nat)
    ensures i <= |s| && (i == 0 || s[i - 1] == '\\')
    ensures forall k :: i <= k < |s| ==> s[k] != '\\'
  {
    if s == "" then 0
    else if s[|s| - 1] == '\\' then |s|
    else LeafStart(s[..|s| - 1])
  }

  function ExpectedUser(expected: string, observed: string): (ok: bool) {
    if expected == "" || observed == "" then false
    else if '\\' in expected || '@' in expected then EqualFold(expected, observed)
    else EqualFold(expected, observed[LeafStart(observed)..])
  }

  lemma FoldKeepsQualifiers(a: string, b: string)
    requires EqualFold(a, b)
    ensures |a| == |b|
    ensures forall k :: 0 <= k < |b| ==> (a[k] == '\\' <==> b[k] == '\\') && (a[k] == '@' <==> b[k] == '@')
    ensures '\\' in b <==> '\\' in a
  {
    assert |Lower(a)| == |Lower(b)|;
    assert forall k :: 0 <= k < |b| ==> Lower(a)[k] == Lower(b)[k];
  }

  /** A name is accepted exactly when it is the expected one, or a plain expected name within some domain. */
  lemma ExpectedUserExact(expected: string, observed: string)
    ensures ExpectedUser(expected, observed)
            <==> expected != "" && (EqualFold(expected, observed)
                 || ('\\' !in expected && '@' !in expected
                     && exists i :: 0 < i <= |observed| && observed[i - 1] == '\\' && EqualFold(expected, observed[i..])))
  {
    var start := LeafStart(observed);
    assert observed[0..] == observed;
    if EqualFold(expected, observed) { FoldKeepsQualifiers(expected, observed); }
    forall i | 0 < i <= |observed| && observed[i - 1] == '\\' && EqualFold(expected, observed[i..]) && '\\' !in expected
      ensures i == start
    {
      FoldKeepsQualifiers(expected, observed[i..]);
      assert forall k :: i <= k < |observed| ==> observed[k] == observed[i..][k - i];
    }
  }

  // ---- What one operation does --------------------------------------------

  predicate Matches(rec: Rec, r: Request) {
    rec.key == r.key && rec.token == r.token && EqualFold(rec.remote, r.remote) && rec.user == r.user && rec.port == r.port
  }

  predicate Same(a: Rec, b: Rec) { a.(phase := b.phase, connectedUser := b.connectedUser) == b }

  /** Beyond an intent, a record names a user its own request expected. */
  predicate Claimed(rec: Rec) { rec.phase == Intent || ExpectedUser(rec.user, rec.connectedUser) }

  predicate Connects(w: World, key: Key) { Here(w, key) in w.live }

  /** The record is this request's, in this boot and session. */
  predicate Current(w: World, r: Request) {
    r.key in w.store && Matches(w.store[r.key], r) && w.store[r.key].boot == w.boot && w.store[r.key].logon == w.logon
  }

  predicate SameUser(w: World, rec: Rec) requires Connects(w, rec.key) { EqualFold(w.live[Here(w, rec.key)].user, rec.connectedUser) }

  predicate Reached(r: Request, n: Native) { ValidRequest(r) && n.identityOk && n.getOk }

  /** Nothing is live for the record, or it belongs to an earlier boot. */
  predicate Dead(w: World, r: Request) {
    && r.key in w.store && Matches(w.store[r.key], r)
    && (w.store[r.key].boot != w.boot || (w.store[r.key].logon == w.logon && !Connects(w, r.key)))
  }

  function Answer(n: Native, password: string): AddOutcome { if password == n.secret then n.add else Refused(false, "") }

  /** Everything an add needs beyond an endpoint without a record or a connection. */
  predicate AddGranted(w: World, r: Request, n: Native) {
    && Reached(r, n) && n.queryOk && r.remote != "" && w.logon != ""
    && n.intent == Written && Answer(n, r.password).Added? && n.againOk && ExpectedUser(r.user, n.add.user) && n.settle == Written
  }

  predicate AddSucceeds(w: World, r: Request, n: Native) {
    AddGranted(w, r, n) && r.key !in w.store && !Connects(w, r.key)
  }

  predicate Live(w: World, r: Request, n: Native) {
    && Reached(r, n) && Current(w, r) && n.queryOk && Connects(w, r.key)
    && w.store[r.key].phase == Connected && SameUser(w, w.store[r.key])
  }

  predicate RemoveSucceeds(w: World, r: Request, n: Native) {
    if Dead(w, r)
    then Reached(r, n) && (w.store[r.key].boot == w.boot ==> n.queryOk) && n.delete == Written
    else Live(w, r, n) && n.releasing == Written && n.cancel == Cancelled && n.delete == Written
  }

  /** Other endpoints, other records, the boot and the session stay. */
  ghost predicate Frame(w: World, w': World, key: Key) {
    && w'.boot == w.boot && w'.logon == w.logon
    && w'.store - {key} == w.store - {key} && w'.live - {Here(w, key)} == w.live - {Here(w, key)}
  }

  function Claim(w: World, r: Request): Rec
    requires r.port >= 0
  {
    Rec(r.key, r.token, r.remote, r.user, r.port, w.boot, w.logon, Intent, "")
  }

  lemma ClaimValid(w: World, r: Request)
    requires ValidRequest(r)
    ensures ValidRecord(r.key, Claim(w, r)) <==> r.remote != "" && w.logon != ""
  {
  }

  /** An invalid record is refused before anything is written. */
  predicate Stores(rec: Rec, how: Write) { ValidRecord(rec.key, rec) && how == Written }

  function After(w: World, rec: Rec, how: Write, next: Pc): (w': World)
    ensures P.Put(w, rec, Stores(rec, how), w', next)
  {
    w.(store := if !ValidRecord(rec.key, rec) || how == KeptOld then w.store else w.store[rec.key := rec], pc := next)
  }

  function Erased(w: World, key: Key, how: Write): (w': World)
    ensures P.Erase(w, key, how == Written, w')
  {
    w.(store := if how == KeptOld then w.store else w.store - {key}, pc := Idle)
  }

  function WithConnection(w: World, rec: Rec, user: string): (w': World) {
    w.(live := w.live[Here(w, rec.key) := Conn(user, w.next, Some(rec.token))], next := w.next + 1, pc := Created(rec))
  }

  class Backend {
    var w: World
    ghost var run: seq<World>
    ghost var acts: seq<Action>

    /** The history is a run of the protocol that ends here, and the store holds valid records. */
    ghost predicate Traced() reads this {
      && run != [] && run[|run| - 1] == w && P.IsRun(run, acts) && P.Init(run[0])
      && (forall key :: key in w.store ==> ValidRecord(key, w.store[key]) && Claimed(w.store[key]))
    }

    ghost predicate Idles() reads this { Traced() && w.pc == Idle }

    constructor (initial: World)
      requires P.Init(initial)
      ensures Idles() && w == initial
    {
      w := initial;
      run, acts := [initial], [];
    }

    lemma Holds()
      requires Traced()
      ensures P.Inv(w)
    {
      P.RunInv(run, acts, |run| - 1);
    }

    lemma LiveIsOwn(key: Key)
      requires Traced() && key in w.store && w.store[key].phase == Phase.Connected
      requires w.store[key].boot == w.boot && w.store[key].logon == w.logon
      requires Connects(w, key) && EqualFold(w.live[Here(w, key)].user, w.store[key].connectedUser)
      ensures w.live[Here(w, key)].owner == Some(w.store[key].token)
    {
      Holds();
      hide EqualFold;
      assert Reserved(w, Here(w, key), w.live[Here(w, key)].user);
    }

    method Step(ghost a: Action, w': World)
      requires Traced() && P.Next(w, a, w')
      requires forall key :: key in w'.store ==> ValidRecord(key, w'.store[key]) && Claimed(w'.store[key])
      modifies this
      ensures Traced() && w == w' && old(run) <= run && P.Inv(w)
    {
      w := w';
      run, acts := run + [w'], acts + [a];
      Holds();
    }

    /** Time, other software and crashes, between operations. */
    method Elapse(ghost a: Action, w': World)
      requires Idles() && P.Next(w, a, w') && (a.Crash? || a.Reboot? || a.Relogon? || a.Connect? || a.Disconnect?)
      modifies this
      ensures Idles() && w == w' && w.store == old(w.store) && old(run) <= run
    {
      Step(a, w');
    }

    /** Write a record, at one of the protocol's writes. */
    method Persist(rec: Rec, how: Write, ghost a: Action, next: Pc) returns (ok: bool)
      requires Traced() && P.Next(w, a, After(w, rec, how, if Stores(rec, how) then next else Idle))
      requires Claimed(rec)
      modifies this
      ensures Traced() && old(run) <= run
      ensures ok == Stores(rec, how) && w == After(old(w), rec, how, if ok then next else Idle)
    {
      ok := Stores(rec, how);
      Step(a, After(w, rec, how, if ok then next else Idle));
    }

    /** The native add; afterwards the connection it reported may be gone again. */
    method Connect(rec: Rec, add: AddOutcome) returns (ok: bool)
      requires Traced() && w.pc == Armed(rec)
      modifies this
      ensures Traced() && old(run) <= run
      ensures ok == !add.Refused? && w.pc == if ok then Created(rec) else Idle
      ensures w.store == old(w.store) && w.boot == old(w.boot) && w.logon == old(w.logon)
      ensures w.live - {Here(w, rec.key)} == old(w.live) - {Here(w, rec.key)}
      ensures ok ==> (Connects(w, rec.key) <==> add.Added?)
      ensures add.Added? ==> Connects(w, rec.key) && w.live[Here(w, rec.key)] == Conn(add.user, old(w.next), Some(rec.token))
    {
      hide P.Inv, P.Init, P.IsRun;
      var e := Here(w, rec.key);
      match add
      case Refused(made, user) =>
        Step(AddConn(false, made), if made then WithConnection(w, rec, user).(pc := Idle) else w.(pc := Idle));
        ok := false;
      case AddedThenLost =>
        Step(AddConn(true, true), WithConnection(w, rec, ""));
        Step(Disconnect(e), w.(live := w.live - {e}));
        ok := true;
      case Added(user) =>
        Step(AddConn(true, true), WithConnection(w, rec, user));
        ok := true;
    }

    /** After a successful add: keep the claim only if the connection made is the expected user's. */
    method Settle(rec: Rec, n: Native, user: string) returns (res: Outcome)
      requires Traced() && w.pc == Created(rec) && rec.key in w.store && w.store[rec.key] == rec
      requires rec.phase == Intent && ValidRecord(rec.key, rec) && user == rec.user
      modifies this
      ensures Idles() && old(run) <= run && w.live == old(w.live) && Frame(old(w), w, rec.key)
      ensures res == Done <==> n.againOk && Connects(w, rec.key) && ExpectedUser(user, w.live[Here(w, rec.key)].user) && n.settle == Written
      ensures res == Done ==> w.store == old(w.store)[rec.key := rec.(phase := Phase.Connected, connectedUser := w.live[Here(w, rec.key)].user)]
      ensures rec.key in w.store && Same(w.store[rec.key], rec)
      ensures res != Done ==>
                w.store[rec.key] == rec
                || (n.settle == WroteNew && n.againOk && Connects(w, rec.key) && ExpectedUser(user, w.live[Here(w, rec.key)].user)
                    && w.store[rec.key] == rec.(phase := Phase.Connected, connectedUser := w.live[Here(w, rec.key)].user))
    {
      hide P.Inv, P.Init, P.IsRun;
      var e := Here(w, rec.key);
      if !n.againOk || !Connects(w, rec.key) || !ExpectedUser(user, w.live[e].user) {
        Step(GiveUp, w.(pc := Idle));
        return Rejected(if n.againOk then CreatedUncertain else QueryFailed);
      }
      var done := rec.(phase := Phase.Connected, connectedUser := w.live[e].user);
      var ok := Persist(done, n.settle, PutConnected(w.live[e].user, Stores(done, n.settle)), Idle);
      return if ok then Done else Rejected(SettleFailed);
    }

    method RunAdd(r: Request, n: Native) returns (res: Outcome)
      requires Idles() && Reached(r, n) && r.op == Op.Add
      modifies this
      ensures Idles() && old(run) <= run && Frame(old(w), w, r.key)
      ensures res == Done <==> AddSucceeds(old(w), r, n)
      ensures res == Done ==> w.store == old(w.store)[r.key := Claim(old(w), r).(phase := Connected, connectedUser := n.add.user)]
      ensures res == Done ==> Connects(w, r.key) && w.live[Here(w, r.key)] == Conn(n.add.user, old(w.next), Some(r.token))
      ensures r.key in old(w.store) ==> res == Rejected(AlreadyRecorded) && w == old(w)
      ensures r.key !in old(w.store) && n.queryOk && Connects(old(w), r.key) ==> res == Rejected(Unowned) && w == old(w)
      ensures res != Done && r.key !in old(w.store) && r.key in w.store ==> Matches(w.store[r.key], r)
      ensures res != Done && r.key !in old(w.store) && r.key in w.store ==>
                w.store[r.key] == Claim(old(w), r) || (w.store[r.key].phase == Phase.Connected && n.settle == WroteNew && Answer(n, r.password).Added? && ExpectedUser(r.user, n.add.user))
    {
      ClaimValid(w, r);
      hide P.Inv, P.Init, P.IsRun, ValidRecord, ExpectedUser;
      if r.key in w.store { return Rejected(AlreadyRecorded); }
      if !n.queryOk { return Rejected(QueryFailed); }
      if Connects(w, r.key) { return Rejected(Unowned); }
      var rec := Claim(w, r);
      var ok := Persist(rec, n.intent, PutIntent(rec, Stores(rec, n.intent)), Armed(rec));
      if !ok { return Rejected(IntentFailed); }
      ok := Connect(rec, Answer(n, r.password));
      if !ok { return Rejected(AddFailed); }
      res := Settle(rec, n, r.user);
    }

    method Erase(key: Key, how: Write, ghost a: Action) returns (res: Outcome)
      requires Traced() && key in w.store
      requires a == P.Action.Delete(how == Written) || a == DeleteGone(key, how == Written)
      requires P.Next(w, a, Erased(w, key, how))
      modifies this
      ensures Idles() && old(run) <= run && w == Erased(old(w), key, how)
      ensures res == if how == Written then Done else Rejected(DeleteFailed)
    {
      Step(a, Erased(w, key, how));
      return if how == Written then Done else Rejected(DeleteFailed);
    }

    /** The connection is in use: its record is connected again. */
    method KeepBusy(rec: Rec, how: Write) returns (ok: bool)
      requires Traced() && w.pc == Cancelling(rec) && ValidRecord(rec.key, rec) && rec.phase == Phase.Connected && Claimed(rec)
      modifies this
      ensures Idles() && old(run) <= run && ok == (how == Written)
      ensures w == After(old(w), rec, how, Idle)
    {
      hide P.Inv, P.Init, P.IsRun;
      Step(Cancel(InUse), w.(pc := Restoring(rec)));
      ok := Persist(rec, how, PutRestored(Stores(rec, how)), Idle);
    }

    /** The cancel itself, once "releasing" is durable, and what follows its outcome. */
    method CancelLive(rec: Rec, n: Native) returns (res: Outcome)
      requires Traced() && w.pc == Cancelling(rec) && ValidRecord(rec.key, rec) && rec.phase == Connected
      requires rec.key in w.store && w.store[rec.key] == rec.(phase := Releasing) && Claimed(rec)
      modifies this
      ensures Idles() && old(run) <= run && Frame(old(w), w, rec.key)
      ensures res == Done <==> n.cancel == Cancelled && n.delete == Written
      ensures res == Done ==> w.store == old(w.store) - {rec.key} && !Connects(w, rec.key)
      ensures n.cancel == InUse ==>
                (res == Rejected(if n.restore == Written then BusyRestored else BusyNotRestored))
                && w == After(old(w), rec, n.restore, Idle)
      ensures n.cancel.Failed? ==> res == Rejected(CancelFailed) && w.store == old(w.store)
      ensures n.cancel == Cancelled && n.delete != Written ==> res == Rejected(DeleteFailed) && (rec.key in w.store ==> w.store == old(w.store))
      ensures rec.key in w.store ==> Same(w.store[rec.key], rec)
      ensures Connects(w, rec.key) ==> rec.key in w.store && Same(w.store[rec.key], rec)
    {
      hide P.Inv, P.Init, P.IsRun, EqualFold, ExpectedUser;
      var e := Here(w, rec.key);
      match n.cancel
      case InUse =>
        var ok := KeepBusy(rec, n.restore);
        res := Rejected(if ok then BusyRestored else BusyNotRestored);
      case Failed(gone) =>
        Step(Cancel(n.cancel), w.(live := if gone then w.live - {e} else w.live, pc := Idle));
        res := Rejected(CancelFailed);
      case Cancelled =>
        Step(Cancel(Cancelled), w.(live := w.live - {e}, pc := Deleting(rec)));
        res := Erase(rec.key, n.delete, P.Action.Delete(n.delete == Written));
    }

    /** The live connection a connected record names: note the release, cancel, then forget the record. */
    method Release(rec: Rec, n: Native) returns (res: Outcome)
      requires Idles() && rec.key in w.store && w.store[rec.key] == rec && rec.boot == w.boot && rec.logon == w.logon
      requires rec.phase == Connected && Connects(w, rec.key) && EqualFold(w.live[Here(w, rec.key)].user, rec.connectedUser)
      modifies this
      ensures Idles() && old(run) <= run && Frame(old(w), w, rec.key)
      ensures res == Done <==> n.releasing == Written && n.cancel == Cancelled && n.delete == Written
      ensures res == Done ==> w.store == old(w.store) - {rec.key} && !Connects(w, rec.key)
      ensures n.releasing == Written && n.cancel == InUse ==>
                (res == Rejected(if n.restore == Written then BusyRestored else BusyNotRestored))
                && (n.restore == Written ==> w == old(w))
      ensures n.releasing != Written ==> res == Rejected(ReleasingFailed) && w.live == old(w.live)
      ensures rec.key in w.store ==> Same(w.store[rec.key], rec)
      ensures Connects(w, rec.key) ==> rec.key in w.store && Same(w.store[rec.key], rec)
    {
      hide P.Inv, P.Init, P.IsRun;
      hide EqualFold, ExpectedUser;
      var leaving := rec.(phase := Releasing);
      var ok := Persist(leaving, n.releasing, PutReleasing(rec.key, Stores(leaving, n.releasing)), Cancelling(rec));
      if !ok { return Rejected(ReleasingFailed); }
      res := CancelLive(rec, n);
    }

    method RunKnown(r: Request, n: Native) returns (res: Outcome)
      requires Idles() && Reached(r, n) && r.op != Op.Add
      modifies this
      ensures Idles() && old(run) <= run && Frame(old(w), w, r.key)
      ensures r.op == Op.Remove ==> (res == Done <==> RemoveSucceeds(old(w), r, n))
      ensures r.op == Op.Remove && res == Done ==> w.store == old(w.store) - {r.key} && (old(w.store)[r.key].boot == w.boot ==> !Connects(w, r.key))
      ensures r.op == Op.Remove && Dead(old(w), r) ==> w.live == old(w.live) && res in {Done, Rejected(QueryFailed), Rejected(DeleteFailed)}
      ensures r.op == Op.Check ==> w == old(w) && (res == Done <==> Live(w, r, n))
      ensures r.op == Op.Check && res == Done ==> w.live[Here(w, r.key)].owner == Some(r.token) && ExpectedUser(r.user, w.store[r.key].connectedUser)
      ensures r.op == Op.Unknown ==> w == old(w) && res != Done
      ensures !(r.key in old(w.store) && Matches(old(w.store)[r.key], r)) ==> w == old(w) && res == Rejected(Uncertain)
      ensures r.key in w.store ==> r.key in old(w.store) && Same(w.store[r.key], old(w.store)[r.key])
      ensures w.live != old(w.live) ==> r.op == Op.Remove && Live(old(w), r, n) && old(w.live)[Here(w, r.key)].owner == Some(r.token)
    {
      hide P.Inv, P.Init, P.IsRun;
      hide EqualFold, ExpectedUser;
      if Live(w, r, n) { LiveIsOwn(r.key); }
      if r.key !in w.store || !Matches(w.store[r.key], r) { return Rejected(Uncertain); }
      var rec := w.store[r.key];
      if r.op == Op.Remove && rec.boot != w.boot {
        res := Erase(r.key, n.delete, DeleteGone(r.key, n.delete == Written));
        return;
      }
      if rec.boot != w.boot || rec.logon != w.logon { return Rejected(Uncertain); }
      if !n.queryOk { return Rejected(QueryFailed); }
      if r.op == Op.Remove && !Connects(w, r.key) {
        res := Erase(r.key, n.delete, DeleteGone(r.key, n.delete == Written));
        return;
      }
      if rec.phase != Phase.Connected { return Rejected(Uncertain); }
      if Connects(w, r.key) && !SameUser(w, rec) { return Rejected(IdentityChanged); }
      match r.op
      case Check => return if Connects(w, r.key) then Done else Rejected(Absent);
      case Remove => res := Release(rec, n);
      case _ => return Rejected(UnknownOperation);
    }

    /** One request, from validation to its outcome. */
    method Run(r: Request, n: Native) returns (res: Outcome)
      requires Idles()
      modifies this
      ensures Idles() && old(run) <= run && Frame(old(w), w, r.key)
      ensures !Reached(r, n) ==> w == old(w) && res != Done
      ensures r.op == Op.Add ==> (res == Done <==> AddSucceeds(old(w), r, n))
      ensures r.op == Op.Remove ==> (res == Done <==> RemoveSucceeds(old(w), r, n))
      ensures r.op == Op.Remove && Dead(old(w), r) ==> w.live == old(w.live)
      ensures r.op == Op.Check ==> w == old(w) && (res == Done <==> Live(w, r, n))
      ensures r.op == Op.Check && res == Done ==> w.live[Here(w, r.key)].owner == Some(r.token) && ExpectedUser(r.user, w.store[r.key].connectedUser)
      ensures r.op == Op.Remove && res == Done ==> r.key !in w.store && (old(w.store)[r.key].boot == w.boot ==> !Connects(w, r.key))
      ensures r.op == Op.Add && res == Done ==> Current(w, r) && Connects(w, r.key) && w.live[Here(w, r.key)].owner == Some(r.token)
      ensures r.op != Op.Add && r.key in w.store ==> r.key in old(w.store) && Same(w.store[r.key], old(w.store)[r.key])
      ensures r.op != Op.Add && r.key !in w.store ==> r.key !in old(w.store) || Matches(old(w.store)[r.key], r)
      ensures r.op == Op.Add && r.key in old(w.store) ==> w == old(w)
      ensures r.op == Op.Add && r.key !in old(w.store) && r.key in w.store ==> Matches(w.store[r.key], r)
      ensures r.op == Op.Add && res != Done && r.key !in old(w.store) && r.key in w.store ==>
                w.store[r.key].phase == Intent || (n.settle == WroteNew && Answer(n, r.password).Added? && ExpectedUser(r.user, n.add.user))
      ensures r.op != Op.Add && r.key in old(w.store) && r.key !in w.store ==>
                var rec := old(w.store)[r.key]; rec.token == r.token && rec.user == r.user && rec.port == r.port && Lower(rec.remote) == Lower(r.remote)
      ensures r.op != Op.Add && w.live != old(w.live) ==>
                old(Connects(w, r.key)) && old(w.live)[Here(w, r.key)].owner == Some(r.token)
                && r.key in old(w.store) && old(w.store)[r.key].phase == Phase.Connected
    {
      if !ValidRequest(r) { return Rejected(InvalidRequest); }
      if !n.identityOk { return Rejected(IdentityFailed); }
      if !n.getOk { return Rejected(LookupFailed); }
      if r.op == Op.Add { res := RunAdd(r, n); } else { res := RunKnown(r, n); }
    }
  }
}
