/** The reference-counted SMB mappings of the Windows agent: one connection per remote, one link per share. */
module GlobalSMB {
  import opened Options
  import opened Text
  import opened Paths
  import opened LinkRecords
  import opened P = WNetProtocol
  import opened WNetBackend
  import opened GlobalModel
  import opened GlobalRecovery

  datatype LinkOutcome = Made(id: FileId) | LeftBehind(id: FileId) | NotMade

  /** What the native calls of one mount answer. */
  datatype MountNative = MountNative(pendingRemove: Native, check: Native, token: Option<Token>, persistOk: bool,
                                     add: Native, link: LinkOutcome, undo: Native)

  datatype MountError =
    | InvalidMapping | RecoveryRequired | PendingCleanup | Conflict | OwnershipUncertain | NoToken | JournalFailed
    | CreationFailed | LinkUncertain | LinkFailed

  datatype MountResult = Mounted(cleanup: nat) | AddPending(cleanup: nat) | MountFailed(error: MountError)

  datatype CleanupError = Reconcile | OwnershipChanged | LinkRemoval | Busy | Uncertain

  datatype CleanupResult = Cleaned | Kept(error: CleanupError)

  /** Removing a link: done, or failed with the link perhaps already gone. */
  datatype Unlinking = Unlinked | UnlinkFailed(gone: bool)

  /** What the native calls of one cleanup answer. */
  datatype CleanNative = CleanNative(check: Native, unlink: Unlinking, getOk: bool, remove: Native)

  /** A remote \\server\share with exactly two parts. */
  predicate ValidSource(s: string) {
    && |s| > 2 && s[0] == '\\' && s[1] == '\\' && '/' !in s && '\0' !in s
    && exists i :: 3 <= i < |s| - 1 && s[i] == '\\' && forall k :: 2 <= k < |s| && k != i ==> s[k] != '\\'
  }

  function Owner(source: string, user: string, port: nat, token: Token): Request {
    Request(Op.Remove, Lower(source), source, user, "", token, port)
  }

  /** The answer of a mapping that may not be joined or replaced: awaiting reconciliation, its removal still refused,
      other credentials, or no longer verifiable. */
  function Refuses(s: State, key: Key, fp: Fingerprint, n: MountNative): Option<MountError> {
    if key !in s.entries || s.entries[key] >= |s.heap| then None
    else
      var e := s.heap[s.entries[key]];
      if e.blocked then Some(RecoveryRequired)
      else if e.pending then if RemoveSucceeds(s.w, e.owner, n.pendingRemove) then None else Some(PendingCleanup)
      else if e.fingerprint != fp then Some(Conflict)
      else if !Live(s.w, e.owner.(op := Op.Check), n.check) then Some(OwnershipUncertain)
      else None
  }

  /** When a request joins the mapping that is there. */
  predicate MayJoin(s: State, source: string, user: string, password: string, port: nat, managed: bool, n: MountNative) {
    var key := Lower(source);
    && key in s.entries && s.entries[key] < |s.heap|
    && var e := s.heap[s.entries[key]];
       && !e.blocked && !e.pending && e.fingerprint == Fingerprint(user, password, port)
       && Live(s.w, e.owner.(op := Op.Check), n.check) && (managed ==> n.persistOk)
  }

  /** When a request makes a mapping where there is none. */
  predicate MayCreate(s: State, source: string, user: string, password: string, port: nat, managed: bool, n: MountNative) {
    && Lower(source) !in s.entries && n.token.Some? && (managed ==> n.persistOk)
    && AddSucceeds(s.w, Owner(source, user, port, n.token.value).(op := Op.Add, password := password), n.add)
  }

  /** When a mapping whose removal was pending is removed and made anew. */
  predicate MayReplace(s: State, source: string, user: string, password: string, port: nat, managed: bool, n: MountNative) {
    var key := Lower(source);
    && key in s.entries && s.entries[key] < |s.heap|
    && var e := s.heap[s.entries[key]];
       && !e.blocked && e.pending && RemoveSucceeds(s.w, e.owner, n.pendingRemove) && n.token.Some? && (managed ==> n.persistOk)
       && AddGranted(s.w, Owner(source, user, port, n.token.value).(op := Op.Add, password := password), n.add)
       && (key in s.w.store && s.w.store[key].boot != s.w.boot ==> !Connects(s.w, key))
  }

  predicate MayObtain(s: State, source: string, user: string, password: string, port: nat, managed: bool, n: MountNative) {
    || MayJoin(s, source, user, password, port, managed, n)
    || MayCreate(s, source, user, password, port, managed, n)
    || MayReplace(s, source, user, password, port, managed, n)
  }

  /** After a removal an add succeeds if it is granted and the removed record did not hide a connection. */
  lemma GoneAdd(w: World, w': World, r: Request, n: Native)
    requires Gone(w, w', r.key)
    ensures AddSucceeds(w', r, n) <==> AddGranted(w, r, n) && (r.key in w.store && w.store[r.key].boot != w.boot ==> !Connects(w, r.key))
  {
  }

  predicate ValidMapping(source: string, user: string, port: nat) { ValidSource(source) && user != "" && (port == 0 || port == 445) }

  /** \\server\share, of two names. */
  predicate Remote(s: string, server: string, share: string) {
    s == "\\\\" + server + "\\" + share && IsName(server) && IsName(share)
  }

  predicate IsName(s: string) { s != "" && '\\' !in s && '/' !in s && '\0' !in s }

  /** A source is accepted exactly when it is some server's share. */
  lemma ValidSourceExact(s: string)
    ensures ValidSource(s) <==> exists server, share :: Remote(s, server, share)
  {
    if ValidSource(s) {
      var i :| 3 <= i < |s| - 1 && s[i] == '\\' && forall k :: 2 <= k < |s| && k != i ==> s[k] != '\\';
      assert s == "\\\\" + s[2..i] + "\\" + s[i + 1..];
      assert Remote(s, s[2..i], s[i + 1..]);
    }
    if server, share :| Remote(s, server, share) {
      NamesAreSource(server, share);
    }
  }

  lemma NamesAreSource(server: string, share: string)
    requires IsName(server) && IsName(share)
    ensures ValidSource("\\\\" + server + "\\" + share)
  {
    var s := "\\\\" + server + "\\" + share;
    var i := 2 + |server|;
    assert |s| == i + 1 + |share| && s[i] == '\\';
    forall k | 2 <= k < |s| && k != i ensures s[k] in server || s[k] in share {
      assert s[k] == if k < i then server[k - 2] else share[k - i - 1];
    }
    assert forall k :: 0 <= k < |s| ==> s[k] == '\\' || s[k] in server || s[k] in share;
  }

  /** The manager admits what names a share and what the backend does not refuse as invalid, now or later. */
  lemma MappingIsRequest(source: string, user: string, password: string, port: nat, token: Token)
    requires IsToken(token)
    ensures ValidMapping(source, user, port) <==> ValidSource(source) && ValidRequest(Owner(source, user, port, token))
    ensures ValidRequest(Owner(source, user, port, token)) ==>
              && ValidRequest(Owner(source, user, port, token).(op := Op.Add, password := password))
              && ValidRequest(Owner(source, user, port, token).(op := Op.Check))
  {
  }

  /** A successful removal leaves no record, and no connection unless the record was of an earlier boot. */
  ghost predicate Gone(w: World, w': World, key: Key) {
    && key !in w'.store && key in w.store && w'.logon == w.logon
    && if w.store[key].boot == w.boot then !Connects(w', key) else w'.live == w.live
  }

  /** When running a user's cleanup has its whole effect. */
  predicate MayClean(s: State, k: nat, n: CleanNative)
    requires k < |s.cleanups| && s.cleanups[k].Users? && s.cleanups[k].entry < |s.heap|
  {
    var c := s.cleanups[k];
    var e := s.heap[c.entry];
    && !e.blocked
    && (c.linked ==> (c.managed ==> Live(s.w, e.owner.(op := Op.Check), n.check)) && n.unlink == Unlinked && MayUnlink(s, c))
    && (!c.released && e.refs == 1 ==> RemoveSucceeds(s.w, e.owner, n.remove))
  }

  /** Why a user's cleanup stays: the first of its obstacles. */
  function CleanAnswer(s: State, k: nat, n: CleanNative): CleanupResult
    requires k < |s.cleanups| && s.cleanups[k].Users? && s.cleanups[k].entry < |s.heap|
  {
    var c := s.cleanups[k];
    var e := s.heap[c.entry];
    if MayClean(s, k, n) then Cleaned
    else if e.blocked then Kept(Reconcile)
    else if c.linked && c.managed && !Live(s.w, e.owner.(op := Op.Check), n.check) then Kept(OwnershipChanged)
    else if c.linked && !(n.unlink == Unlinked && MayUnlink(s, c)) then Kept(LinkRemoval)
    else Kept(Busy)
  }

  /** A recovered share that can be cleaned up is, once its natives succeed. */
  lemma RecoveredMayClean(s: State, g: Given, r: Share, n: CleanNative)
    requires CanClean(s, g, r) && Removable(s, r)
    ensures var e := s.heap[s.cleanups[g.cleanup].entry];
            Live(s.w, e.owner.(op := Op.Check), n.check) && n.unlink == Unlinked && (e.refs == 1 ==> RemoveSucceeds(s.w, e.owner, n.remove)) ==>
              MayClean(s, g.cleanup, n)
  {
  }

  /** A recovered mapping takes further shares with the credentials of its members, and no others. */
  lemma RecoveredMayJoin(s: State, g: Given, r: Share, source: string, user: string, password: string, port: nat, managed: bool, n: MountNative)
    requires CanClean(s, g, r) && !s.heap[s.cleanups[g.cleanup].entry].pending && Lower(source) == RemoteKey(r)
    ensures MayJoin(s, source, user, password, port, managed, n)
            <==> Fingerprint(user, password, port) == r.fingerprint && (managed ==> n.persistOk)
                 && Live(s.w, s.heap[s.cleanups[g.cleanup].entry].owner.(op := Op.Check), n.check)
  {
  }

  /** The record a failed add left: still an intent of the same token, remote and boot. */
  predicate StillIntent(w: World, c: Cleanup) requires c.FailedAdd? {
    && c.key in w.store
    && var rec := w.store[c.key];
       rec.boot == c.boot && rec.phase == Intent && rec.key == c.key && rec.token == c.token && EqualFold(rec.remote, c.remote) && rec.port == c.port
  }

  /** Before and after: a share alone on its endpoint whose add failed, with the intent still recorded, is recognized as
      such when the agent restarts. */
  lemma RestartKeepsFailed(s: State, shares: seq<Share>, key: Key, n: RecoverNative, c: Cleanup, i: nat)
    requires c.FailedAdd? && StillIntent(s.w, c) && ValidRecord(c.key, s.w.store[c.key])
    requires InGroup(shares, key, i) && forall j: nat :: InGroup(shares, key, j) ==> j == i
    requires var r := shares[i];
             && r.state == Pending && r.mappingKey == c.key && r.token == c.token && r.link.source == c.remote && r.port == c.port && r.boot == c.boot
             && c.key !in n.unreadable
    ensures FailedCase(s.w, shares, key, n)
  {
    var g := Group(shares, key, |shares|);
    var j := MemberIndex(shares, key, i);
    assert |s.w.store[c.key].key| == |s.w.store[c.key].remote|;
    assert OnlyAdded(s.w, shares[i], n);
    hide OnlyAdded, Group, StillIntent, ValidRecord;
    assert forall k :: 0 <= k < |g| ==> InGroup(shares, key, g[k]) && g[k] == i;
    Spread(g);
  }

  lemma {:induction false} Spread(g: seq<nat>)
    requires g != [] && forall j, k :: 0 <= j < k < |g| ==> g[j] < g[k]
    ensures g[|g| - 1] >= g[0] + |g| - 1
  {
    if |g| > 1 {
      Spread(g[..|g| - 1]);
    }
  }

  /** The cleanup recovery gives a failed add finds what it needs to forget it. */
  lemma FailedStillIntent(s: State, shares: seq<Share>, given: seq<Given>, key: Key, n: RecoverNative, i: nat)
    requires |given| == |shares| && GroupEnds(s, shares, given, key, n) && FailedCase(s.w, shares, key, n) && InGroup(shares, key, i)
    requires forall k :: k in s.w.store ==> s.w.store[k].key == k
    ensures given[i].Handed? && given[i].cleanup < |s.cleanups|
    ensures var c := s.cleanups[given[i].cleanup]; c.FailedAdd? && StillIntent(s.w, c) && c.token == shares[i].token
  {
    var j := MemberIndex(shares, key, i);
  }

  class GlobalManager {
    var entries: map<Key, nat>
    var heap: seq<Entry>
    var cleanups: seq<Cleanup>
    var links: map<Path, Link>
    const backend: Backend

    function View(): State reads this, backend { State(entries, heap, cleanups, links, backend.w) }

    /** Holds between the native calls of one operation. */
    ghost predicate Consistent() reads this, backend { backend.Idles() && Good(View()) }

    ghost predicate Valid() reads this, backend { Consistent() && Quiet(View()) }

    constructor (b: Backend, disk: map<Path, Link>)
      requires b.Idles()
      ensures Valid() && backend == b && View() == State(map[], [], [], disk, b.w)
    {
      entries, heap, cleanups, links := map[], [], [], disk;
      backend := b;
    }

    /** Between operations connections come and go and the logon session changes; a crash or a reboot ends this manager. */
    method Elapse(ghost a: Action, w': World)
      requires Valid() && P.Next(backend.w, a, w') && (a.Relogon? || a.Connect? || a.Disconnect?)
      modifies backend
      ensures Valid() && backend.w == w'
    {
      ghost var s := View();
      backend.Elapse(a, w');
      StoreKeepsGood(s, View());
    }

    // ---- Native calls -----------------------------------------------------

    lemma Unshared(key: Key)
      requires Consistent() && (key in entries ==> heap[entries[key]].refs == 0)
      ensures NoLinkedUser(View(), key)
    {
      forall k | 0 <= k < |cleanups| && cleanups[k].Users? && cleanups[k].linked && cleanups[k].entry < |heap|
        ensures heap[cleanups[k].entry].key != key || heap[cleanups[k].entry].blocked
      {
        assert CleanupOk(View(), cleanups[k]) && EntryOk(View(), cleanups[k].entry);
        CountAt(cleanups, k, cleanups[k].entry);
      }
    }

    /** Run one command of the backend.  Only an endpoint without linked users may change. */
    method Command(r: Request, n: Native) returns (ok: bool)
      requires Consistent() && r.op != Op.Unknown
      requires r.op == Op.Add ==> UnseenToken(cleanups, r.token)
      requires r.op != Op.Check ==> NoLinkedUser(View(), r.key)
      modifies backend
      ensures Consistent() && Frame(old(backend.w), backend.w, r.key)
      ensures r.op == Op.Check ==> backend.w == old(backend.w) && (ok <==> Live(backend.w, r, n))
      ensures r.op == Op.Remove ==> (ok <==> RemoveSucceeds(old(backend.w), r, n))
      ensures r.op == Op.Remove && ok ==> Gone(old(backend.w), backend.w, r.key)
      ensures r.op == Op.Add ==> (ok <==> AddSucceeds(old(backend.w), r, n))
      ensures r.op == Op.Add && ok ==> WNetBackend.Current(backend.w, r)
      ensures r.op == Op.Remove && backend.w.live != old(backend.w.live) ==>
                r.key in old(backend.w.store) && old(backend.w.store)[r.key].phase == Phase.Connected
      ensures r.op != Op.Add && r.key in backend.w.store ==>
                r.key in old(backend.w.store) && Same(backend.w.store[r.key], old(backend.w.store)[r.key])
    {
      ghost var s := View();
      var res := backend.Run(r, n);
      NativeGood(s, r.key, backend.w);
      ok := res == Done;
    }

    // ---- Mount --------------------------------------------------------------

    /** An earlier mapping of this remote that may not be used: blocked, pending removal, other credentials, or no longer ours. */
    method Inspect(key: Key, fp: Fingerprint, n: MountNative) returns (err: Option<MountError>)
      requires Valid()
      modifies this, backend
      ensures Valid() && cleanups == old(cleanups) && links == old(links) && |heap| == |old(heap)|
      ensures ActsAt(old(View()), key, View())
      ensures err == Refuses(old(View()), key, fp, n)
      ensures err == Some(Conflict) ==> View() == old(View())
      ensures key !in old(entries) ==> err == None && View() == old(View())
      ensures key in old(entries) ==>
                var e := old(heap[entries[key]]);
                && (e.blocked ==> err == Some(RecoveryRequired) && View() == old(View()))
                && (!e.blocked && e.pending ==>
                      heap == old(heap) && Frame(old(backend.w), backend.w, key)
                      && if RemoveSucceeds(old(backend.w), e.owner, n.pendingRemove)
                         then err == None && entries == old(entries) - {key} && Gone(old(backend.w), backend.w, key)
                         else err == Some(PendingCleanup) && entries == old(entries))
                && (!e.blocked && !e.pending ==>
                      backend.w == old(backend.w) && entries == old(entries)
                      && if e.fingerprint != fp then err == Some(Conflict) && heap == old(heap)
                         else if Live(backend.w, e.owner.(op := Op.Check), n.check) then err == None && heap == old(heap)
                         else err == Some(OwnershipUncertain) && heap == old(heap)[old(entries[key]) := e.(blocked := true)])
    {
      hide Good, Quiet, NoLinkedUser, UnseenToken, Frame;
      FrameSame(backend.w, key);
      if key !in entries { return None; }
      CurrentFacts(View(), key);
      var i := entries[key];
      var e := heap[i];
      if e.blocked { return Some(RecoveryRequired); }
      ghost var s := View();
      if e.pending {
        Unshared(key);
        var ok := Command(e.owner, n.pendingRemove);
        QuietKeeps(s, View());
        if !ok { return Some(PendingCleanup); }
        DropGood(View(), key);
        entries := entries - {key};
        QuietKeeps(s, View());
        return None;
      }
      if e.fingerprint != fp { return Some(Conflict); }
      var ok := Command(e.owner.(op := Op.Check), n.check);
      if ok { return None; }
      MarkGood(View(), i, true, e.pending);
      heap := heap[i := e.(blocked := true)];
      QuietKeeps(s, View());
      return Some(OwnershipUncertain);
    }

    /** A new mapping of this remote: recorded as pending, journaled by the caller, then connected. */
    method Establish(source: string, user: string, password: string, port: nat, token: Token, managed: bool, n: MountNative)
        returns (failed: Option<MountResult>)
      requires Valid() && Lower(source) !in entries && IsToken(token) && UnseenToken(cleanups, token)
      modifies this, backend
      ensures Consistent() && links == old(links) && Frame(old(backend.w), backend.w, Lower(source))
      ensures |heap| == |old(heap)| + 1 && heap[..|heap| - 1] == old(heap)
      ensures var i := |old(heap)|; var owner := Owner(source, user, port, token); var key := Lower(source);
              heap[i].key == key && heap[i].refs == 0 && heap[i].owner == owner && heap[i].fingerprint == Fingerprint(user, password, port)
              && if managed && !n.persistOk then
                   Valid() && failed == Some(MountFailed(JournalFailed)) && entries == old(entries) && backend.w == old(backend.w) && cleanups == old(cleanups)
                 else
                   && entries == old(entries)[key := i]
                   && if AddSucceeds(old(backend.w), owner.(op := Op.Add, password := password), n.add) then
                        failed == None && !heap[i].pending && !heap[i].blocked && cleanups == old(cleanups) && QuietBut(View(), i)
                        && GlobalModel.Current(View(), i) && key in backend.w.store && Matches(backend.w.store[key], owner)
                      else
                        Valid() && heap[i].pending && heap[i].blocked == managed
                        && if managed
                           then failed == Some(AddPending(|old(cleanups)|))
                                && cleanups == old(cleanups) + [Cleanup.FailedAdd(key, token, source, port, backend.w.boot)]
                           else failed == Some(MountFailed(CreationFailed)) && cleanups == old(cleanups)
    {
      hide Good, Quiet, QuietBut, NoLinkedUser, UnseenToken, Frame, EntryOk, CleanupOk;
      var key := Lower(source);
      FrameSame(backend.w, key);
      var i := |heap|;
      var owner := Owner(source, user, port, token);
      var e := Entry(key, 0, Fingerprint(user, password, port), true, owner, false);
      ghost var s := View();
      CreateGood(s, e, true);
      heap, entries := heap + [e], entries[key := i];
      QuietButKeeps(s, View(), i);
      if managed && !n.persistOk {
        DropGood(View(), key);
        entries := entries - {key};
        QuietButKeeps(s, View(), i);
        return Some(MountFailed(JournalFailed));
      }
      Unshared(key);
      s := View();
      var ok := Command(owner.(op := Op.Add, password := password), n.add);
      QuietButKeeps(s, View(), i);
      if ok {
        MarkGood(View(), i, false, false);
        heap := heap[i := e.(pending := false)];
        QuietButKeeps(s, View(), i);
        return None;
      }
      if !managed { return Some(MountFailed(CreationFailed)); }
      BlockFailed(i, Cleanup.FailedAdd(key, token, source, port, backend.w.boot));
      return Some(AddPending(|cleanups| - 1));
    }

    /** A managed add that failed: its endpoint is blocked until its cleanup. */
    method BlockFailed(i: nat, c: Cleanup)
      requires Consistent() && QuietBut(View(), i) && GlobalModel.Current(View(), i) && heap[i].refs == 0 && !heap[i].blocked && heap[i].pending
      requires c.FailedAdd? && c.key == heap[i].key
      modifies this
      ensures Valid() && entries == old(entries) && links == old(links) && heap == old(heap)[i := old(heap[i]).(blocked := true)]
      ensures cleanups == old(cleanups) + [c]
    {
      hide Good, Quiet, QuietBut, CleanupOk, EntryOk;
      ghost var s := View();
      MarkGood(s, i, true, true);
      heap := heap[i := heap[i].(blocked := true)];
      GuardGood(View(), c);
      cleanups := cleanups + [c];
      QuietButKeeps(s, View(), i);
    }

    /** Publish the link of one more user of mapping `i`. */
    method Publish(i: nat, source: string, path: Path, managed: bool, n: MountNative) returns (res: MountResult)
      requires Consistent() && QuietBut(View(), i) && GlobalModel.Current(View(), i)
      requires !heap[i].blocked && !heap[i].pending && heap[i].key == Lower(source)
      requires heap[i].key in backend.w.store && Matches(backend.w.store[heap[i].key], heap[i].owner)
      modifies this, backend
      ensures Valid() && Frame(old(backend.w), backend.w, Lower(source)) && |heap| == |old(heap)| && heap == old(heap)[i := heap[i]]
      ensures n.link.Made? && path !in old(links) ==>
                && res == MountResult.Mounted(|old(cleanups)|) && backend.w == old(backend.w) && entries == old(entries)
                && links == old(links)[path := Link(source, n.link.id)]
                && heap[i] == old(heap[i]).(refs := old(heap[i]).refs + 1)
                && cleanups == old(cleanups) + [Users(i, path, source, managed, if managed then Some(n.link.id) else None, managed, true, false)]
      ensures !(n.link.Made? && path !in old(links)) ==>
                && res == MountFailed(if managed then LinkUncertain else LinkFailed) && cleanups == old(cleanups)
                && links == (if managed && n.link.LeftBehind? && path !in old(links) then old(links)[path := Link(source, n.link.id)] else old(links))
                && heap[i] == old(heap[i]).(blocked := heap[i].blocked, pending := heap[i].pending)
                && (managed ==> heap[i].blocked && entries == old(entries) && backend.w == old(backend.w))
                && (!managed && old(heap[i]).refs > 0 ==> View() == old(View()))
                && (!managed && old(heap[i]).refs == 0 ==>
                      if RemoveSucceeds(old(backend.w), heap[i].owner, n.undo)
                      then entries == old(entries) - {heap[i].key} && heap[i].key !in backend.w.store
                      else entries == old(entries) && heap[i].pending)
    {
      hide Good, Quiet, QuietBut, NoLinkedUser, UnseenToken, Frame, CleanupOk, EntryOk, RemoveSucceeds;
      FrameSame(backend.w, heap[i].key);
      if n.link.Made? && path !in links {
        AddUser(i, Users(i, path, source, managed, if managed then Some(n.link.id) else None, managed, true, false), Link(source, n.link.id));
        return MountResult.Mounted(|cleanups| - 1);
      }
      if managed && n.link.LeftBehind? && path !in links {
        ghost var s := View();
        LinksGood(s, links[path := Link(source, n.link.id)]);
        links := links[path := Link(source, n.link.id)];
        QuietButKeeps(s, View(), i);
      }
      if managed {
        ghost var s := View();
        MarkGood(s, i, true, false);
        heap := heap[i := heap[i].(blocked := true)];
        QuietButKeeps(s, View(), i);
        return MountFailed(LinkUncertain);
      }
      Withdraw(i, n.undo);
      return MountFailed(LinkFailed);
    }

    /** One more link and one more user. */
    method AddUser(i: nat, c: Cleanup, link: Link)
      requires Consistent() && QuietBut(View(), i) && GlobalModel.Current(View(), i) && !heap[i].blocked && !heap[i].pending
      requires Holds(c, i) && heap[i].key in backend.w.store && Matches(backend.w.store[heap[i].key], heap[i].owner)
      modifies this
      ensures Valid() && entries == old(entries) && heap == old(heap)[i := old(heap[i]).(refs := old(heap[i]).refs + 1)]
      ensures cleanups == old(cleanups) + [c] && links == old(links)[c.path := link]
    {
      hide Good, Quiet, QuietBut, Matches, CleanupOk, EntryOk;
      ghost var s := View();
      UseGood(s, i, c);
      var e := heap[i];
      heap, cleanups := heap[i := e.(refs := e.refs + 1)], cleanups + [c];
      LinksGood(View(), links[c.path := link]);
      links := links[c.path := link];
      QuietButKeeps(s, View(), i);
    }

    /** Without a journal: a mapping nobody uses is removed, or its removal stays pending. */
    method Withdraw(i: nat, undo: Native)
      requires Consistent() && QuietBut(View(), i) && GlobalModel.Current(View(), i) && !heap[i].blocked && !heap[i].pending
      modifies this, backend
      ensures Valid() && Frame(old(backend.w), backend.w, old(heap[i].key)) && cleanups == old(cleanups) && links == old(links)
      ensures |heap| == |old(heap)| && heap == old(heap)[i := old(heap[i]).(pending := heap[i].pending)]
      ensures old(heap[i]).refs > 0 ==> View() == old(View())
      ensures old(heap[i]).refs == 0 ==>
                if RemoveSucceeds(old(backend.w), heap[i].owner, undo)
                then entries == old(entries) - {heap[i].key} && heap[i].key !in backend.w.store
                else entries == old(entries) && heap[i].pending
    {
      hide Good, Quiet, QuietBut, NoLinkedUser, UnseenToken, Frame, CleanupOk, RemoveSucceeds;
      ghost var s := View();
      IsEntryOk(s, i);
      var e := heap[i];
      FrameSame(backend.w, e.key);
      if e.refs == 0 {
        Unshared(e.key);
        var ok := Command(e.owner, undo);
        if ok {
          DropGood(View(), e.key);
          entries := entries - {e.key};
        } else {
          MarkGood(View(), i, false, true);
          heap := heap[i := e.(pending := true)];
        }
      }
      QuietButKeeps(s, View(), i);
    }

    /** A verified mapping is ready for another user. */
    lemma Joinable(key: Key, n: Native)
      requires Valid() && key in entries && entries[key] < |heap| && !heap[entries[key]].blocked
      requires Live(backend.w, heap[entries[key]].owner.(op := Op.Check), n)
      ensures GlobalModel.Current(View(), entries[key]) && QuietBut(View(), entries[key]) && heap[entries[key]].key == key
      ensures !heap[entries[key]].pending ==> heap[entries[key]].refs > 0
      ensures key in backend.w.store && Matches(backend.w.store[key], heap[entries[key]].owner)
    {
      assert EntryOk(View(), entries[key]) && Settled(View(), entries[key]);
    }

    /** A new entry for this remote, if a token can be had. */
    method ObtainNew(source: string, user: string, password: string, port: nat, managed: bool, n: MountNative) returns (failed: Option<MountResult>)
      requires Valid() && Lower(source) !in entries && (n.token.Some? ==> IsToken(n.token.value) && UnseenToken(cleanups, n.token.value))
      modifies this, backend
      ensures Consistent() && links == old(links) && Frame(old(backend.w), backend.w, Lower(source))
      ensures failed.None? <==> MayCreate(old(View()), source, user, password, port, managed, n)
      ensures old(heap) <= heap && ActsAt(old(View()), Lower(source), View())
      ensures failed.None? ==>
                && cleanups == old(cleanups) && QuietBut(View(), |old(heap)|) && GlobalModel.Current(View(), |old(heap)|)
                && var e := heap[|old(heap)|]; var key := Lower(source);
                   e.key == key && !e.blocked && !e.pending && e.fingerprint == Fingerprint(user, password, port)
                   && key in backend.w.store && Matches(backend.w.store[key], e.owner)
      ensures failed.Some? ==> Valid()
      ensures failed.Some? && failed.value.MountFailed? ==> cleanups == old(cleanups) && failed.value.error != InvalidMapping
      ensures failed.Some? && !failed.value.MountFailed? ==>
                && failed == Some(AddPending(|old(cleanups)|)) && managed && Lower(source) in entries
                && entries[Lower(source)] < |heap| && heap[entries[Lower(source)]].blocked
                && |cleanups| == |old(cleanups)| + 1 && cleanups[|old(cleanups)|].FailedAdd?
      ensures entries - {Lower(source)} == old(entries) - {Lower(source)}
    {
      hide Good, Quiet, QuietBut, NoLinkedUser, UnseenToken, Frame, CleanupOk, Settled, EntryOk, AddSucceeds, Matches, IsToken;
      FrameSame(backend.w, Lower(source));
      if n.token.None? { return Some(MountFailed(NoToken)); }
      failed := Establish(source, user, password, port, n.token.value, managed, n);
    }

    /** A live entry for this remote: the verified one in use, or a new one. */
    method Obtain(source: string, user: string, password: string, port: nat, managed: bool, n: MountNative)
        returns (i: nat, failed: Option<MountResult>)
      requires Valid() && (n.token.Some? ==> IsToken(n.token.value) && UnseenToken(cleanups, n.token.value))
      modifies this, backend
      ensures Consistent() && links == old(links) && Frame(old(backend.w), backend.w, Lower(source))
      ensures failed.None? ==>
                && cleanups == old(cleanups) && QuietBut(View(), i) && GlobalModel.Current(View(), i)
                && var e := heap[i]; var key := Lower(source);
                   e.key == key && !e.blocked && !e.pending && e.fingerprint == Fingerprint(user, password, port)
                   && key in backend.w.store && Matches(backend.w.store[key], e.owner)
      ensures failed.Some? ==> Valid()
      ensures var no := Refuses(old(View()), Lower(source), Fingerprint(user, password, port), n);
              no.Some? ==> failed == Some(MountFailed(no.value)) && (no.value == Conflict ==> View() == old(View()))
      ensures ActsAt(old(View()), Lower(source), View())
      ensures failed.None? && i < |old(heap)| ==> old(heap[i]).refs > 0
      ensures failed.None? <==> MayObtain(old(View()), source, user, password, port, managed, n)
      ensures failed.Some? && failed.value.MountFailed? ==> cleanups == old(cleanups) && failed.value.error != InvalidMapping
      ensures failed.Some? && !failed.value.MountFailed? ==>
                && failed == Some(AddPending(|old(cleanups)|)) && managed && Lower(source) in entries
                && entries[Lower(source)] < |heap| && heap[entries[Lower(source)]].blocked
                && |cleanups| == |old(cleanups)| + 1 && cleanups[|old(cleanups)|].FailedAdd?
      ensures Lower(source) in old(entries) ==>
                var j := old(entries[Lower(source)]);
                j < |old(heap)| <= |heap|
                && (old(heap[j]).refs > 0 ==>
                      entries == old(entries) && backend.w == old(backend.w) && (failed.None? ==> i == j && heap == old(heap))
                      && heap[j] == old(heap[j]).(blocked := heap[j].blocked))
                && (old(heap[j]).blocked ==> failed == Some(MountFailed(RecoveryRequired)) && View() == old(View()))
      ensures entries - {Lower(source)} == old(entries) - {Lower(source)}
    {
      hide Good, Quiet, QuietBut, NoLinkedUser, UnseenToken, Frame, CleanupOk, Settled, EntryOk, Live, RemoveSucceeds, AddSucceeds, AddGranted, Gone, Matches, GlobalModel.Current, IsToken, ActsAt, Refuses;
      var key := Lower(source);
      FrameSame(backend.w, key);
      ghost var s := View();
      if key in entries { CurrentFacts(s, key); }
      var err := Inspect(key, Fingerprint(user, password, port), n);
      i := |heap|;
      if err.Some? { return i, Some(MountFailed(err.value)); }
      if key in entries {
        if managed && !n.persistOk { return i, Some(MountFailed(JournalFailed)); }
        i := entries[key];
        Joinable(key, n.check);
        return i, None;
      }
      ghost var s1 := View();
      ghost var w := backend.w;
      if key in s.entries && n.token.Some? { GoneAdd(s.w, w, Owner(source, user, port, n.token.value).(op := Op.Add, password := password), n.add); }
      failed := ObtainNew(source, user, password, port, managed, n);
      FrameTwice(s.w, w, backend.w, key);
      ActsTwice(s, s1, View(), key);
    }

    /** Map a remote for one more share.  An entry in use is only ever gaining users or becoming blocked. */
    method Mount(source: string, path: Path, user: string, password: string, port: nat, managed: bool, n: MountNative)
        returns (res: MountResult)
      requires Valid() && (n.token.Some? ==> IsToken(n.token.value) && UnseenToken(cleanups, n.token.value))
      modifies this, backend
      ensures Valid()
      ensures res.MountFailed? && res.error == InvalidMapping <==> !ValidMapping(source, user, port)
      ensures res.Mounted? <==> ValidMapping(source, user, port) && n.link.Made? && path !in old(links)
                                && MayObtain(old(View()), source, user, password, port, managed, n)
      ensures res.MountFailed? ==> cleanups == old(cleanups)
      ensures var no := Refuses(old(View()), Lower(source), Fingerprint(user, password, port), n);
              ValidMapping(source, user, port) && no.Some? ==> res == MountFailed(no.value) && (no.value == Conflict ==> View() == old(View()))
      ensures ValidMapping(source, user, port) && MayObtain(old(View()), source, user, password, port, managed, n) && !(n.link.Made? && path !in old(links)) ==>
                res == MountFailed(if managed then LinkUncertain else LinkFailed)
      ensures res.Mounted? ==> res.cleanup < |cleanups| && cleanups[res.cleanup].Users? && MayUnlink(View(), cleanups[res.cleanup])
      ensures ActsAt(old(View()), Lower(source), View())
      ensures var key := Lower(source);
              key in old(entries) ==>
                var i := old(entries[key]);
                && i < |heap|
                && (old(heap[i]).refs > 0 ==>
                      && key in entries && entries[key] == i && backend.w == old(backend.w)
                      && heap[i].owner == old(heap[i]).owner && heap[i].refs == old(heap[i]).refs + if res.Mounted? then 1 else 0)
                && (old(heap[i]).blocked ==> res.MountFailed? && View() == old(View()))
      ensures res.Mounted? ==>
                var key := Lower(source);
                && res.cleanup == |old(cleanups)| && path !in old(links) && n.link.Made?
                && key in entries && entries[key] < |heap|
                && cleanups == old(cleanups) + [Users(entries[key], path, source, managed, if managed then Some(n.link.id) else None, managed, true, false)]
                && links == old(links)[path := Link(source, n.link.id)]
                && var e := heap[entries[key]];
                   && !e.blocked && e.refs > 0 && e.fingerprint == Fingerprint(user, password, port)
                   && key in backend.w.store && Matches(backend.w.store[key], e.owner)
      ensures res.AddPending? ==>
                && managed && Lower(source) in entries && entries[Lower(source)] < |heap| && heap[entries[Lower(source)]].blocked
                && res.cleanup == |old(cleanups)| && |cleanups| == |old(cleanups)| + 1 && cleanups[res.cleanup].FailedAdd?
    {
      hide Good, Quiet, QuietBut, NoLinkedUser, UnseenToken, Frame, EntryOk, CleanupOk, Settled, Matches, RemoveSucceeds, Live, ValidMapping, MayObtain, ActsAt, Refuses;
      FoldSelf(source);
      var key := Lower(source);
      FrameSame(backend.w, key);
      if key in entries { CurrentFacts(View(), key); }
      ActsNot(View(), key);
      if !ValidMapping(source, user, port) { return MountFailed(InvalidMapping); }
      ghost var s := View();
      var i, failed := Obtain(source, user, password, port, managed, n);
      if failed.Some? { return failed.value; }
      ghost var s1 := View();
      res := Publish(i, source, path, managed, n);
      ActsThenUses(s, s1, View(), key, i);
    }

    lemma LastUser(k: nat)
      requires Consistent() && k < |cleanups| && cleanups[k].Users? && !cleanups[k].released && !cleanups[k].linked
      requires cleanups[k].entry < |heap| && heap[cleanups[k].entry].refs == 1
      ensures NoLinkedUser(View(), heap[cleanups[k].entry].key)
    {
      var i := cleanups[k].entry;
      forall j | 0 <= j < |cleanups| && cleanups[j].Users? && cleanups[j].linked && cleanups[j].entry < |heap|
        ensures heap[cleanups[j].entry].key != heap[i].key || heap[cleanups[j].entry].blocked
      {
        assert CleanupOk(View(), cleanups[j]) && EntryOk(View(), cleanups[j].entry) && EntryOk(View(), i);
        CountAt(cleanups, j, cleanups[j].entry);
        CountAt(cleanups, k, i);
        if cleanups[j].entry == i { CountTwo(cleanups, if j < k then j else k, if j < k then k else j, i); }
      }
    }

    // ---- Cleanups ---------------------------------------------------------

    /** The link of cleanup `k`, still there as far as the cleanup knows. */
    method Unlink(k: nat, n: CleanNative) returns (err: Option<CleanupError>)
      requires Valid() && k < |cleanups| && cleanups[k].Users? && cleanups[k].linked
      requires cleanups[k].entry < |heap| && !heap[cleanups[k].entry].blocked
      modifies this, backend
      ensures Valid() && entries == old(entries) && heap == old(heap) && backend.w == old(backend.w)
      ensures var c := old(cleanups[k]); var owner := heap[c.entry].owner;
              if (c.managed ==> Live(backend.w, owner.(op := Op.Check), n.check)) && n.unlink == Unlinked && MayUnlink(old(View()), c)
              then err == None && cleanups == old(cleanups)[k := c.(linked := false)] && links == old(links) - {c.path}
              else err.Some? && cleanups == old(cleanups)
                   && links == if (c.managed ==> Live(backend.w, owner.(op := Op.Check), n.check)) && MayUnlink(old(View()), c) && n.unlink.UnlinkFailed? && n.unlink.gone
                               then old(links) - {c.path} else old(links)
      ensures var c := old(cleanups[k]);
              err.Some? ==> err.value == if c.managed && !Live(backend.w, heap[c.entry].owner.(op := Op.Check), n.check) then OwnershipChanged else LinkRemoval
      ensures var c := old(cleanups[k]);
              links != old(links) ==>
                c.path in old(links) && Lower(old(links)[c.path].target) == Lower(c.source) && (c.managed ==> c.id == Some(old(links)[c.path].id))
    {
      hide Good, Quiet, Frame, NoLinkedUser, UnseenToken, Live, Matches, CleanupOk, Lower;
      ghost var s := View();
      IsEntryOk(s, cleanups[k].entry);
      var c := cleanups[k];
      if c.managed {
        var ok := Command(heap[c.entry].owner.(op := Op.Check), n.check);
        if !ok { return Some(OwnershipChanged); }
      }
      if !MayUnlink(View(), c) { return Some(LinkRemoval); }
      if n.unlink == Unlinked || n.unlink.gone {
        LinksGood(View(), links - {c.path});
        links := links - {c.path};
      }
      if n.unlink != Unlinked {
        QuietKeeps(s, View());
        return Some(LinkRemoval);
      }
      UnlinkGood(View(), k, links);
      cleanups := cleanups[k := c.(linked := false)];
      QuietKeeps(s, View());
      return None;
    }

    /** Give back a user's reference; the last one's release removes the mapping first. */
    method GiveBack(k: nat, n: CleanNative) returns (res: CleanupResult)
      requires Valid() && k < |cleanups| && cleanups[k].Users? && cleanups[k].entry < |heap|
      requires !cleanups[k].linked && !cleanups[k].released && !heap[cleanups[k].entry].blocked
      modifies this, backend
      ensures Valid()
      ensures res == Cleaned ==> Released(old(View()), k, View())
      ensures res != Cleaned ==> Retained(old(View()), k, View()) && cleanups == old(cleanups) && res == Kept(Busy)
      ensures res == Cleaned <==> (old(heap[cleanups[k].entry].refs == 1) ==> RemoveSucceeds(old(backend.w), old(heap[cleanups[k].entry].owner), n.remove))
    {
      hide Good, Quiet, Frame, NoLinkedUser, UnseenToken, RemoveSucceeds, EntryOk, Settled, CleanupOk, Matches;
      var c := cleanups[k];
      var e := heap[c.entry];
      ghost var s := View();
      UserFacts(s, k);
      if e.refs == 1 {
        LastUser(k);
        var ok := Command(e.owner, n.remove);
        QuietKeeps(s, View());
        if !ok { return Kept(Busy); }
        entries := entries - {e.key};
      }
      heap := heap[c.entry := e.(refs := e.refs - 1)];
      cleanups := cleanups[k := c.(released := true)];
      assert c.(linked := false, released := true) == cleanups[k];
      ReleasedGood(s, k, View());
      ReleasedQuiet(s, k, View());
      res := Cleaned;
    }

    /** One run of a user's cleanup: all of it, or at most the link, and the mapping only for the last user. */
    method CleanUser(k: nat, n: CleanNative) returns (res: CleanupResult)
      requires Valid() && k < |cleanups| && cleanups[k].Users? && cleanups[k].entry < |heap|
      modifies this, backend
      ensures Valid()
      ensures old(heap[cleanups[k].entry].blocked) ==> res == Kept(Reconcile) && View() == old(View())
      ensures res == Cleaned ==> Released(old(View()), k, View())
      ensures res != Cleaned ==> Retained(old(View()), k, View())
      ensures res == CleanAnswer(old(View()), k, n)
      ensures res == Cleaned <==> MayClean(old(View()), k, n)
    {
      hide Good, Quiet, Frame, NoLinkedUser, UnseenToken, Live, RemoveSucceeds, EntryOk, Settled, CleanupOk, Matches;
      var c := cleanups[k];
      UserFacts(View(), k);
      if heap[c.entry].blocked { return Kept(Reconcile); }
      if c.linked {
        var err := Unlink(k, n);
        if err.Some? { return Kept(err.value); }
      }
      if c.released { return Cleaned; }
      ghost var gone := cleanups;
      res := GiveBack(k, n);
      assert gone[k := gone[k].(linked := false, released := true)] == old(cleanups)[k := c.(linked := false, released := true)];
    }

    /** One run of the cleanup of a failed add: it forgets an intent nothing came of, and never cancels a connection. */
    method CleanFailedAdd(k: nat, n: CleanNative) returns (res: CleanupResult)
      requires Valid() && k < |cleanups| && cleanups[k].FailedAdd?
      modifies this, backend
      ensures Valid() && heap == old(heap) && cleanups == old(cleanups) && links == old(links)
      ensures backend.w.live == old(backend.w.live) && Frame(old(backend.w), backend.w, cleanups[k].key)
      ensures res == Cleaned <==> n.getOk && StillIntent(old(backend.w), cleanups[k]) && n.unlink == Unlinked
                                  && RemoveSucceeds(old(backend.w), RecordOwner(old(backend.w.store)[cleanups[k].key]), n.remove)
      ensures res == Cleaned ==> var key := cleanups[k].key;
                                 && entries == old(entries) - {key} && key !in backend.w.store
                                 && key in old(entries) && heap[old(entries)[key]].refs == 0 && heap[old(entries)[key]].blocked
      ensures res == Cleaned ==> var rec := old(backend.w.store)[cleanups[k].key]; rec.token == cleanups[k].token && rec.phase == Intent
      ensures res != Cleaned ==> entries == old(entries)
      ensures res != Cleaned ==> res == Kept(CleanupError.Uncertain)
      ensures !StillIntent(old(backend.w), cleanups[k]) ==> View() == old(View())
    {
      hide Good, Quiet, Frame, NoLinkedUser, UnseenToken, RemoveSucceeds, EntryOk, Settled, CleanupOk;
      var c := cleanups[k];
      FrameSame(backend.w, c.key);
      if !n.getOk || !StillIntent(backend.w, c) || n.unlink != Unlinked { return Kept(CleanupError.Uncertain); }
      ghost var s := View();
      GuardFacts(s, k);
      CurrentFacts(s, c.key);
      Unshared(c.key);
      var ok := Command(RecordOwner(backend.w.store[c.key]), n.remove);
      QuietKeeps(s, View());
      if !ok { return Kept(CleanupError.Uncertain); }
      DropGood(View(), c.key);
      entries := entries - {c.key};
      QuietKeeps(s, View());
      return Cleaned;
    }

    // ---- Recovery -----------------------------------------------------------

    lemma RecordsNamed()
      requires backend.Idles()
      ensures forall k :: k in backend.w.store ==> backend.w.store[k].key == k && Lower(backend.w.store[k].remote) == k
    {
      assert forall k :: k in backend.w.store ==> ValidRecord(k, backend.w.store[k]);
    }

    /** The recorded owners whose remote is the given one. */
    method FindOwner(source: string) returns (matches: nat, found: Key)
      requires backend.Idles()
      ensures matches == (if Lower(source) in backend.w.store then 1 else 0)
      ensures matches == 1 ==> found == Lower(source)
    {
      RecordsNamed();
      var left := backend.w.store.Keys;
      matches, found := 0, "";
      while left != {}
        invariant left <= backend.w.store.Keys
        invariant matches == (if Lower(source) in backend.w.store.Keys - left then 1 else 0)
        invariant matches == 1 ==> found == Lower(source)
        decreases |left|
      {
        var k :| k in left;
        left := left - {k};
        if EqualFold(backend.w.store[k].remote, source) { matches, found := matches + 1, k; }
      }
    }

    /** Check each member of a group against the first. */
    method VerifyMembers(shares: seq<Share>, g: seq<nat>, n: RecoverNative) returns (ok: bool)
      requires g != [] && forall j :: 0 <= j < |g| ==> g[j] < |shares|
      ensures ok <==> forall j :: 0 <= j < |g| ==> MemberOk(links, shares, g[j], shares[g[0]], n)
    {
      hide LinkOk, PathFree;
      ok := true;
      for m := 0 to |g|
        invariant ok <==> forall j :: 0 <= j < m ==> MemberOk(links, shares, g[j], shares[g[0]], n)
      {
        var r, first := shares[g[m]], shares[g[0]];
        if (r.state != Journaled.Mounted && !(r.state == Pending && r.link.phase != Unstaged)) || (r.link.link == None && r.link.phase == Unstaged)
          || r.mappingKey != first.mappingKey || r.token != first.token || r.fingerprint != first.fingerprint || r.port != first.port
        {
          ok := false;
          continue;
        }
        if !LinkOk(links, r, n) { ok := false; }
        var free := FreePath(shares, g[m]);
        if !free { ok := false; }
      }
    }

    method FreePath(shares: seq<Share>, i: nat) returns (free: bool)
      requires i < |shares|
      ensures free <==> PathFree(shares, i)
    {
      free := true;
      for j := 0 to |shares|
        invariant free <==> forall k :: 0 <= k < j && k != i && shares[k].state != Journaled.Absent ==> !PathsOverlap(SharePath(shares[k].link.path), SharePath(shares[i].link.path))
      {
        if j != i && shares[j].state != Journaled.Absent && PathsOverlap(SharePath(shares[j].link.path), SharePath(shares[i].link.path)) { free := false; }
      }
    }

    /** Whether a group is adopted: exactly when every member is verified and the mapping is live and ours. */
    method VerifyGroup(shares: seq<Share>, key: Key, n: RecoverNative) returns (ok: bool)
      requires Valid() && Group(shares, key, |shares|) != []
      modifies backend
      ensures Valid() && backend.w == old(backend.w)
      ensures ok <==> GroupOk(backend.w, links, shares, key, n)
      ensures ok ==> key in backend.w.store
    {
      hide Good, Quiet, MemberOk;
      var g := Group(shares, key, |shares|);
      var first := shares[g[0]];
      assert InGroup(shares, key, g[0]);
      ok := n.ownersOk;
      var matches, found := FindOwner(first.link.source);
      if matches != 1 || !OwnerOk(backend.w, found, first) { ok := false; }
      var verified := VerifyMembers(shares, g, n);
      ok := ok && verified;
      if ok {
        ghost var s := View();
        RecordsNamed();
        ok := Command(RecordOwner(backend.w.store[key]).(op := Op.Check), n.check(key));
      }
    }

    method RecoverGroup(shares: seq<Share>, key: Key, n: RecoverNative, given: seq<Given>) returns (given': seq<Given>)
      requires Valid() && Group(shares, key, |shares|) != [] && key !in entries && |given| == |shares|
      requires forall i: nat :: InGroup(shares, key, i) ==> given[i] == Nothing
      modifies this, backend
      ensures Valid() && backend.w == old(backend.w) && links == old(links) && entries.Keys == old(entries).Keys + {key}
      ensures |given'| == |shares| && GroupEnds(View(), shares, given', key, n)
      ensures forall i :: 0 <= i < |shares| && !InGroup(shares, key, i) ==> given'[i] == given[i]
      ensures forall k :: k in old(entries) ==> entries[k] == old(entries)[k]
      ensures old(heap) <= heap && old(cleanups) <= cleanups
    {
      hide Good, Quiet, MemberOk, EntryOk, CleanupOk, OnlyAdded, Live, OwnerOk, Matches;
      var g := Group(shares, key, |shares|);
      var first := shares[g[0]];
      assert InGroup(shares, key, g[0]);
      given' := given;
      if |g| == 1 && OnlyAdded(backend.w, first, n) {
        RecordsNamed();
        AddedKey(backend.w, first, n);
        given' := given[g[0] := Handed(|cleanups|)];
        AddGroup(Entry(key, 0, Fingerprint("", "", 0), false, Request(Op.Unknown, "", "", "", "", "", 0), true),
                 [Cleanup.FailedAdd(first.mappingKey, first.token, first.link.source, first.port, first.boot)]);
        return;
      }
      var ok := VerifyGroup(shares, key, n);
      if ok {
        given' := Adopt(shares, key, given);
      } else {
        AddGroup(Entry(key, |g|, first.fingerprint, false, Request(Op.Unknown, "", "", "", "", "", 0), true), []);
      }
    }

    /** A group that is not adopted: its endpoint is blocked. */
    method AddGroup(e: Entry, more: seq<Cleanup>)
      requires Valid() && e.key !in entries && !e.pending && e.blocked
      requires (more == [] && e.refs > 0) || (e.refs == 0 && |more| == 1 && more[0].FailedAdd? && more[0].key == e.key)
      modifies this
      ensures Valid() && View() == WithGroup(old(View()), e, more)
    {
      GroupGood(View(), e, more);
      heap, entries, cleanups := heap + [e], entries[e.key := |heap|], cleanups + more;
    }

    /** One of the groups still to do. */
    method RecoverNext(shares: seq<Share>, n: RecoverNative, given: seq<Given>, left: set<Key>) returns (given': seq<Given>, left': set<Key>)
      requires Valid() && left != {} && left <= RemoteKeys(shares) && entries.Keys == RemoteKeys(shares) - left
      requires Ungrouped(shares, given, left) && AllEnd(View(), shares, given, RemoteKeys(shares) - left, n)
      modifies this, backend
      ensures Valid() && backend.w == old(backend.w) && links == old(links)
      ensures left' < left && entries.Keys == RemoteKeys(shares) - left'
      ensures Ungrouped(shares, given', left') && AllEnd(View(), shares, given', RemoteKeys(shares) - left', n)
    {
      var key :| key in left;
      NextGroup(shares, given, left, key);
      GivenLength(shares, given, left);
      hide Good, Quiet, GroupEnds, Ungrouped, AllEnd, RemoteKeys, Group, InGroup;
      ghost var s := View();
      given' := RecoverGroup(shares, key, n, given);
      UngroupedKeeps(shares, given, given', left, key);
      AllEndKeeps(s, View(), shares, given, given', RemoteKeys(shares) - left, key, n);
      left' := left - {key};
      assert RemoteKeys(shares) - left + {key} == RemoteKeys(shares) - left';
    }

    /** No share is left that could run an earlier cleanup. */
    method Forget()
      requires Valid()
      modifies this
      ensures Valid() && View() == State(map[], [], [], old(links), old(backend.w))
    {
      entries, heap, cleanups := map[], [], [];
    }

    /** Adopt or block the groups of the recovered shares, one endpoint at a time.  A repeated recovery has dropped the
        shares' earlier cleanups, and every earlier entry is replaced. */
    method RecoverBatch(shares: seq<Share>, n: RecoverNative) returns (given: seq<Given>)
      requires Valid() && entries.Keys <= RemoteKeys(shares)
      modifies this, backend
      ensures Valid() && backend.w == old(backend.w) && links == old(links)
      ensures Ungrouped(shares, given, {}) && AllEnd(View(), shares, given, RemoteKeys(shares), n)
      ensures entries.Keys == RemoteKeys(shares)
      ensures |given| == |shares| && forall i: nat :: i < |shares| && Adoptable(backend.w, links, shares, n, i) ==> CanClean(View(), given[i], shares[i])
    {
      hide Good, Quiet, GroupEnds, Ungrouped, AllEnd, RemoteKeys, Group, InGroup, Start;
      Forget();
      given := Start(shares);
      var left := RemoteKeys(shares);
      NoneEnd(View(), shares, given, n);
      assert RemoteKeys(shares) - left == {};
      while left != {}
        invariant Valid() && backend.w == old(backend.w) && links == old(links)
        invariant left <= RemoteKeys(shares) && entries.Keys == RemoteKeys(shares) - left
        invariant Ungrouped(shares, given, left) && AllEnd(View(), shares, given, RemoteKeys(shares) - left, n)
        decreases left
      {
        given, left := RecoverNext(shares, n, given, left);
      }
      assert RemoteKeys(shares) - {} == RemoteKeys(shares);
      AdoptedAllClean(View(), shares, given, n);
    }

    /** The members of a group get consecutive cleanups. */
    method HandOut(given: seq<Given>, g: seq<nat>, start: nat) returns (given': seq<Given>)
      requires forall j :: 0 <= j < |g| ==> g[j] < |given|
      requires forall j, k :: 0 <= j < k < |g| ==> g[j] < g[k]
      ensures |given'| == |given|
      ensures forall i :: 0 <= i < |given| && i !in g ==> given'[i] == given[i]
      ensures forall j :: 0 <= j < |g| ==> given'[g[j]] == Handed(start + j)
    {
      given' := given;
      for m := 0 to |g|
        invariant |given'| == |given|
        invariant forall i :: 0 <= i < |given| && i !in g ==> given'[i] == given[i]
        invariant forall j :: 0 <= j < m ==> given'[g[j]] == Handed(start + j)
      {
        given' := given'[g[m] := Handed(start + m)];
      }
    }

    /** Every member of a verified group gets a cleanup that holds the one mapping. */
    method Adopt(shares: seq<Share>, key: Key, given: seq<Given>) returns (given': seq<Given>)
      requires Valid() && key !in entries && |given| == |shares| && key in backend.w.store
      requires Group(shares, key, |shares|) != []
      modifies this
      ensures Valid() && links == old(links) && entries == old(entries)[key := |old(heap)|] && |heap| == |old(heap)| + 1
      ensures |given'| == |shares| && old(heap) <= heap && old(cleanups) <= cleanups
      ensures forall i :: 0 <= i < |shares| && !InGroup(shares, key, i) ==> given'[i] == given[i]
      ensures heap[|old(heap)|] == AdoptedEntry(backend.w, shares, key, Group(shares, key, |shares|))
      ensures forall i: nat :: InGroup(shares, key, i) ==> HandedUser(View(), shares, given', i, |old(heap)|)
    {
      hide Good, Quiet, EntryOk, CleanupOk, Group, InGroup, AdoptedEntry, Adoptions, RecordOwner, HandedUser;
      var g := Group(shares, key, |shares|);
      ghost var s := View();
      RecordsNamed();
      AdoptionGood(s, shares, key, g);
      var e, more := AdoptedEntry(backend.w, shares, key, g), Adoptions(shares, g, |heap|);
      EntryKey(backend.w, shares, key, g);
      given' := HandOut(given, g, |cleanups|);
      heap, entries, cleanups := heap + [e], entries[key := |heap|], cleanups + more;
      MembersHanded(View(), s.cleanups, shares, key, given, given', |s.heap|);
    }
  }
}
