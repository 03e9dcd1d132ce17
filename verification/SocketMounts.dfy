/** Shares mounted over a socket relay, within one agent process: the relay of a mount stays open, at the port the
    journal names, for as long as the mount is attached.  Every native effect is one step of a history, so that
    this holds wherever the agent may be killed. */
module SocketMounts {
  import opened Options
  import opened Writes
  import opened Paths

  type ShareId = nat

  /** A mount on a path.  Ids may be reused once neither a mount nor an open descriptor holds them; `share`
      is a ghost tag, the share this process mounted or adopted there. */
  datatype Mount = Mount(id: nat, share: Option<ShareId>)

  type Kernel = map<Path, seq<Mount>>

  function On(k: Kernel, p: Path): seq<Mount> { if p in k then k[p] else [] }

  function Top(s: seq<Mount>): Mount requires s != [] { s[|s| - 1] }

  function Below(s: seq<Mount>): seq<Mount> requires s != [] { s[..|s| - 1] }

  /** A cleanup handed out: `pinned` while a descriptor keeps the mount's id, `broken` once the identity could not be read. */
  datatype Cleanup = Cleanup(share: ShareId, path: Path, id: nat, relay: Option<nat>, open: bool, pinned: bool, broken: bool, done: bool)

  const FirstPort := 900
  const EndPort := 1000

  datatype Unmount = Unmounted | Busy | Refused

  /** What the native calls of one mount answer: `start` is the first unprivileged port. */
  datatype MountNative = MountNative(start: nat, taken: set<nat>, listenOk: bool, persist: Write, mountOk: bool, id: nat, identityOk: bool)

  /** `read` the identity before unmounting; take the descriptor again after a refusal. */
  datatype CleanNative = CleanNative(read: bool, unmount: Unmount, repin: bool)

  datatype MountError = NoPorts | ListenFailed | JournalFailed | MountFailed

  datatype CleanError = IdentityUnavailable | IdentityChanged | InUse | UnmountFailed

  datatype Result<T, E> = Success(value: T) | Failure(error: E)

  /** The mount on top is the one the cleanup remembers, so the unmount is tried. */
  predicate Attempts(c: Cleanup, s: seq<Mount>, n: CleanNative) {
    !c.broken && n.read && s != [] && Top(s).id == c.id
  }

  /** What an unsuccessful run leaves of a cleanup: it is broken only if an attempted unmount was refused and the
      descriptor given up for it could not be taken again. */
  function Retained(c: Cleanup, s: seq<Mount>, n: CleanNative): (c': Cleanup)
    ensures c' == c || (c' == c.(pinned := false, broken := true) && Attempts(c, s, n) && n.unmount != Unmounted && c.pinned && !n.repin)
    ensures !Attempts(c, s, n) || !c.pinned || n.repin ==> c' == c
  {
    if Attempts(c, s, n) && n.unmount != Unmounted && c.pinned && !n.repin then c.(pinned := false, broken := true) else c
  }

  /** One run after another: the mounts on the path when it is made, and what its native calls answer. */
  datatype Try = Try(stack: seq<Mount>, native: CleanNative)

  predicate Succeeds(c: Cleanup, t: Try) { Attempts(c, t.stack, t.native) && t.native.unmount == Unmounted }

  function AfterTries(c: Cleanup, ts: seq<Try>): Cleanup {
    if ts == [] then c else Retained(AfterTries(c, ts[..|ts| - 1]), ts[|ts| - 1].stack, ts[|ts| - 1].native)
  }

  /** However often a share was busy or covered by another mount, if its descriptor could be taken again each time,
      the run that finds it on top and is not refused unmounts it. */
  lemma {:induction false} RetriesSucceed(c: Cleanup, ts: seq<Try>, t: Try)
    requires !c.broken && forall i :: 0 <= i < |ts| ==> ts[i].native.repin
    ensures AfterTries(c, ts) == c
    ensures Succeeds(AfterTries(c, ts), t) <==> t.native.read && t.stack != [] && Top(t.stack).id == c.id && t.native.unmount == Unmounted
  {
    if ts != [] { RetriesSucceed(c, ts[..|ts| - 1], t); }
  }

  /** No protected port can be listened at. */
  predicate NoneFree(n: MountNative, listening: set<nat>) {
    forall p :: FirstPort <= p < EndPort && p < n.start ==> p in n.taken || p in listening
  }

  predicate FirstFree(port: nat, n: MountNative, listening: set<nat>) {
    && FirstPort <= port < EndPort && port < n.start && port !in n.taken && port !in listening
    && forall p :: FirstPort <= p < port ==> p in n.taken || p in listening
  }

  // ---- Moments ----------------------------------------------------------------

  /** What a killed agent leaves and what its death ends: the mounts, the recorded relay ports, the open relays. */
  datatype Moment = Moment(kernel: Kernel, journal: map<ShareId, nat>, listening: set<nat>)

  ghost predicate Live(k: Kernel, p: Path, i: int) { p in k && 0 <= i < |k[p]| }

  /** Every attached share has its port in the journal and a relay listening there. */
  ghost predicate Sound(m: Moment) {
    forall p, i :: Live(m.kernel, p, i) && m.kernel[p][i].share.Some? ==> PortOpen(m, m.kernel[p][i].share.value)
  }

  /** A history changes one thing at a time and is sound at every moment. */
  ghost predicate Past(history: seq<Moment>) {
    && history != []
    && (forall i :: 0 <= i < |history| ==> Sound(history[i]))
    && (forall i :: 0 <= i < |history| - 1 ==> OneEffect(history[i], history[i + 1]))
  }

  predicate PortOpen(m: Moment, share: ShareId) { share in m.journal && m.journal[share] in m.listening }

  /** One native call changes one thing. */
  predicate OneEffect(m: Moment, m': Moment) {
    m'.(kernel := m.kernel) == m || m'.(journal := m.journal) == m || m'.(listening := m.listening) == m
  }

  // ---- Invariant ----------------------------------------------------------------

  /** No two mounts share an id. */
  ghost predicate Unique(k: Kernel) {
    forall p, i, q, j :: Live(k, p, i) && Live(k, q, j) && k[p][i].id == k[q][j].id ==> p == q && i == j
  }

  predicate Keeps(c: Cleanup, p: Path, m: Mount, journal: map<ShareId, nat>) {
    && m.share == Some(c.share) && c.path == p && c.id == m.id && !c.done && c.open && c.relay.Some?
    && c.share in journal && journal[c.share] == c.relay.value
  }

  /** An attached share has a cleanup that keeps its relay open at the recorded port. */
  ghost predicate Relayed(k: Kernel, cs: seq<Cleanup>, journal: map<ShareId, nat>) {
    forall p, i :: Live(k, p, i) && k[p][i].share.Some? ==> KeptBy(cs, p, k[p][i], journal)
  }

  ghost predicate KeptBy(cs: seq<Cleanup>, p: Path, m: Mount, journal: map<ShareId, nat>) {
    exists n :: 0 <= n < |cs| && Keeps(cs[n], p, m, journal)
  }

  /** A pinned id belongs to its own share's mount or to none. */
  ghost predicate Pinned(k: Kernel, cs: seq<Cleanup>) {
    forall n :: 0 <= n < |cs| && cs[n].pinned ==> forall p, i :: Live(k, p, i) && k[p][i].id == cs[n].id ==> k[p][i].share == Some(cs[n].share)
  }

  /** Open relays listen on different ports, all of them protected when they were chosen. */
  ghost predicate Ports(cs: seq<Cleanup>) {
    && (forall n :: 0 <= n < |cs| && cs[n].open ==> cs[n].relay.Some? && FirstPort <= cs[n].relay.value < EndPort)
    && (forall n, m :: 0 <= n < m < |cs| && cs[n].open && cs[m].open ==> cs[n].relay != cs[m].relay)
  }

  function OpenPorts(cs: seq<Cleanup>): set<nat> { set n | 0 <= n < |cs| && cs[n].open && cs[n].relay.Some? :: cs[n].relay.value }

  ghost predicate NotAttached(k: Kernel, share: ShareId) {
    forall p, i :: Live(k, p, i) ==> k[p][i].share != Some(share)
  }

  /** The relays of attached shares are among the open ones. */
  lemma RelayedIsSound(k: Kernel, cs: seq<Cleanup>, journal: map<ShareId, nat>, listening: set<nat>)
    requires Relayed(k, cs, journal) && OpenPorts(cs) <= listening
    ensures Sound(Moment(k, journal, listening))
  {
    var m := Moment(k, journal, listening);
    forall p, i | Live(k, p, i) && k[p][i].share.Some? ensures PortOpen(m, k[p][i].share.value) {
      var n :| 0 <= n < |cs| && Keeps(cs[n], p, k[p][i], journal);
      assert cs[n].relay.value in OpenPorts(cs);
    }
  }

  class Agent {
    var kernel: Kernel
    var cleanups: seq<Cleanup>
    var journal: map<ShareId, nat>
    var listening: set<nat>
    ghost var history: seq<Moment>

    ghost function Now(): Moment reads this { Moment(kernel, journal, listening) }

    ghost predicate Traced() reads this { Past(history) && history[|history| - 1] == Now() }

    ghost predicate Valid() reads this {
      && Traced() && listening == OpenPorts(cleanups)
      && Unique(kernel) && Relayed(kernel, cleanups, journal) && Pinned(kernel, cleanups) && Ports(cleanups)
    }

    /** A new process: no share is its own yet, and no relay is open. */
    constructor (k: Kernel, recorded: map<ShareId, nat>)
      requires Unique(k) && forall p, i :: Live(k, p, i) ==> k[p][i].share == None
      ensures Valid() && kernel == k && cleanups == [] && journal == recorded
    {
      kernel, cleanups, journal, listening := k, [], recorded, {};
      history := [Moment(k, recorded, {})];
    }

    lemma PastExists()
      requires Past(history)
      ensures history != []
    {
    }

    /** Adds the present moment to the history. */
    ghost method Note()
      requires Past(history) && Sound(Now()) && OneEffect(history[|history| - 1], Now())
      modifies this`history
      ensures Traced() && history == old(history) + [Now()] && history != []
    {
      history := history + [Now()];
    }

    lemma FreeExists(port: nat, n: MountNative)
      requires FirstFree(port, n, listening)
      ensures !NoneFree(n, listening)
    {
    }

    /** The first free protected port. */
    method NewRelay(n: MountNative) returns (r: Result<nat, MountError>)
      ensures r.Success? ==> FirstFree(r.value, n, listening)
      ensures r == Failure(NoPorts) <==> NoneFree(n, listening)
      ensures r == Failure(ListenFailed) <==> !NoneFree(n, listening) && !n.listenOk
      ensures r.Success? || r == Failure(NoPorts) || r == Failure(ListenFailed)
    {
      if n.start <= FirstPort {
        return Failure(NoPorts);
      }
      var p := FirstPort;
      while p < EndPort && p < n.start
        invariant FirstPort <= p <= EndPort && p <= n.start
        invariant forall q :: FirstPort <= q < p ==> q in n.taken || q in listening
      {
        if p !in n.taken && p !in listening {
          return if n.listenOk then Success(p) else Failure(ListenFailed);
        }
        p := p + 1;
      }
      return Failure(NoPorts);
    }

    /** Write a relay's port. */
    method Record(share: ShareId, port: nat, how: Write)
      requires Traced() && Relayed(kernel, cleanups, journal) && NotAttached(kernel, share) && OpenPorts(cleanups) <= listening
      modifies this`journal, this`history
      ensures Traced() && history != [] && Relayed(kernel, cleanups, journal)
      ensures journal == if how == KeptOld then old(journal) else old(journal)[share := port]
      ensures history == old(history) + if how == KeptOld then [] else [Now()]
    {
      hide Past, Sound, Relayed, NotAttached, OpenPorts;
      PastExists();
      if how != KeptOld {
        OtherPorts(share, port);
        RelayedIsSound(kernel, cleanups, journal[share := port], listening);
        journal := journal[share := port];
        Note();
      }
    }

    /** Mount with a relay, in this order: relay, port in the journal, mount.  On an error no relay is left. */
    method MountShare(share: ShareId, path: Path, n: MountNative) returns (r: Result<nat, MountError>)
      requires Valid() && FreshId(n.id) && NotAttached(kernel, share)
      modifies this
      ensures Valid() && old(history) <= history
      ensures r == Failure(NoPorts) <==> NoneFree(n, old(listening))
      ensures r == Failure(ListenFailed) <==> !NoneFree(n, old(listening)) && !n.listenOk
      ensures r == Failure(JournalFailed) <==> !NoneFree(n, old(listening)) && n.listenOk && n.persist != Written
      ensures r == Failure(MountFailed) <==> !NoneFree(n, old(listening)) && n.listenOk && n.persist == Written && !n.mountOk
      ensures r.Success? ==>
                && r.value == |old(cleanups)| && share in journal && FirstFree(journal[share], n, old(listening))
                && kernel == old(kernel)[path := On(old(kernel), path) + [Mount(n.id, Some(share))]]
                && cleanups == old(cleanups) + [Cleanup(share, path, n.id, Some(journal[share]), true, n.identityOk, !n.identityOk, false)]
                && journal == old(journal)[share := journal[share]] && listening == old(listening) + {journal[share]}
                && history == old(history) + [Moment(old(kernel), old(journal), listening), Moment(old(kernel), journal, listening), Now()]
      ensures r.Failure? ==> kernel == old(kernel) && cleanups == old(cleanups) && listening == old(listening)
      ensures r.Failure? ==> journal == old(journal) || (share in journal && journal == old(journal)[share := journal[share]])
      ensures r.Failure? ==> forall i :: |old(history)| <= i < |history| ==> history[i].kernel == old(kernel)
    {
      hide Past, Sound, Unique, Relayed, Pinned, Ports, OpenPorts, NotAttached, NoneFree;
      PastExists();
      var found := NewRelay(n);
      if found.Failure? { return Failure(found.error); }
      var port := found.value;
      FreeExists(port, n);
      RelayedIsSound(kernel, cleanups, journal, listening + {port});
      listening := listening + {port};
      Note();
      Record(share, port, n.persist);
      if n.persist != Written || !n.mountOk {
        RelayedIsSound(kernel, cleanups, journal, listening - {port});
        listening := listening - {port};
        Note();
        return Failure(if n.persist == Written then MountFailed else JournalFailed);
      }
      AttachMount(share, path, n, port);
      r := Success(|cleanups| - 1);
    }

    /** The mount, once its relay listens at the recorded port. */
    method AttachMount(share: ShareId, path: Path, n: MountNative, port: nat)
      requires Traced() && Unique(kernel) && Relayed(kernel, cleanups, journal) && Pinned(kernel, cleanups) && Ports(cleanups)
      requires FreshId(n.id) && FirstPort <= port < EndPort && share in journal && journal[share] == port
      requires listening == OpenPorts(cleanups) + {port} && port !in OpenPorts(cleanups)
      modifies this`kernel, this`cleanups, this`history
      ensures Valid() && history == old(history) + [Now()]
      ensures kernel == old(kernel)[path := On(old(kernel), path) + [Mount(n.id, Some(share))]]
      ensures cleanups == old(cleanups) + [Cleanup(share, path, n.id, Some(port), true, n.identityOk, !n.identityOk, false)]
    {
      hide Past, Sound, Unique, Relayed, Pinned, Ports, OpenPorts;
      PastExists();
      var c := Cleanup(share, path, n.id, Some(port), true, n.identityOk, !n.identityOk, false);
      var with := kernel[path := On(kernel, path) + [Mount(n.id, Some(share))]];
      Attached(path, c, port);
      RelayedIsSound(with, cleanups + [c], journal, listening);
      kernel := with;
      Note();
      cleanups := cleanups + [c];
    }

    /** No mount and no descriptor holds the id. */
    ghost predicate FreshId(id: nat) reads this {
      (forall p, i :: Live(kernel, p, i) ==> kernel[p][i].id != id) && forall n :: 0 <= n < |cleanups| && cleanups[n].pinned ==> cleanups[n].id != id
    }

    /** The port of a share that is not attached concerns no attached one. */
    lemma OtherPorts(share: ShareId, port: nat)
      requires Relayed(kernel, cleanups, journal) && NotAttached(kernel, share)
      ensures Relayed(kernel, cleanups, journal[share := port])
    {
      forall p, i | Live(kernel, p, i) && kernel[p][i].share.Some? ensures KeptBy(cleanups, p, kernel[p][i], journal[share := port]) {
        var n :| 0 <= n < |cleanups| && Keeps(cleanups[n], p, kernel[p][i], journal);
        assert Keeps(cleanups[n], p, kernel[p][i], journal[share := port]);
      }
    }

    lemma Attached(path: Path, c: Cleanup, port: nat)
      requires Unique(kernel) && Relayed(kernel, cleanups, journal) && Pinned(kernel, cleanups) && Ports(cleanups)
      requires FreshId(c.id) && c.path == path && c.relay == Some(port) && c.open && !c.done
      requires FirstPort <= port < EndPort && port !in OpenPorts(cleanups) && c.share in journal && journal[c.share] == port
      ensures var k := kernel[path := On(kernel, path) + [Mount(c.id, Some(c.share))]]; var cs := cleanups + [c];
              Unique(k) && Relayed(k, cs, journal) && Pinned(k, cs) && Ports(cs) && OpenPorts(cs) == OpenPorts(cleanups) + {port}
    {
      var k := kernel[path := On(kernel, path) + [Mount(c.id, Some(c.share))]];
      var cs := cleanups + [c];
      forall p, i | Live(k, p, i) ensures (Live(kernel, p, i) && k[p][i] == kernel[p][i]) || (p == path && i == |On(kernel, path)|) {}
      MoreCleanups(c, port);
      forall p, i | Live(k, p, i) && k[p][i].share.Some? ensures KeptBy(cs, p, k[p][i], journal) {
        if Live(kernel, p, i) && k[p][i] == kernel[p][i] {
          var n :| 0 <= n < |cleanups| && Keeps(cleanups[n], p, k[p][i], journal);
          assert Keeps(cs[n], p, k[p][i], journal);
        } else {
          assert Keeps(cs[|cleanups|], p, k[p][i], journal);
        }
      }
    }

    lemma MoreCleanups(c: Cleanup, port: nat)
      requires Ports(cleanups) && c.relay == Some(port) && c.open && FirstPort <= port < EndPort && port !in OpenPorts(cleanups)
      ensures Ports(cleanups + [c]) && OpenPorts(cleanups + [c]) == OpenPorts(cleanups) + {port}
    {
      var cs := cleanups + [c];
      forall n | 0 <= n < |cleanups| && cleanups[n].open ensures cleanups[n].relay.value in OpenPorts(cleanups) {}
      assert cs[|cleanups|] == c;
      forall q | q in OpenPorts(cleanups) ensures q in OpenPorts(cs) {
        var n :| 0 <= n < |cleanups| && cleanups[n].open && cleanups[n].relay.Some? && cleanups[n].relay.value == q;
        assert cs[n] == cleanups[n];
      }
    }

    /** Other software mounts over a path or takes the top mount away. */
    method Interfere(path: Path, over: Option<nat>)
      requires Valid() && (over.Some? ==> FreshId(over.value)) && (over.None? ==> On(kernel, path) != [])
      modifies this`kernel, this`history
      ensures Valid() && old(history) <= history
      ensures kernel == old(kernel)[path := if over.Some? then On(old(kernel), path) + [Mount(over.value, None)] else Below(On(old(kernel), path))]
    {
      hide Past, Sound, Unique, Relayed, Pinned, Ports, OpenPorts;
      PastExists();
      if over.Some? {
        PushKeeps(path, over.value);
        kernel := kernel[path := On(kernel, path) + [Mount(over.value, None)]];
      } else {
        PopKeeps(kernel, path, cleanups, journal);
        kernel := kernel[path := Below(On(kernel, path))];
      }
      RelayedIsSound(kernel, cleanups, journal, listening);
      Note();
    }

    lemma PushKeeps(path: Path, id: nat)
      requires Unique(kernel) && Relayed(kernel, cleanups, journal) && Pinned(kernel, cleanups) && FreshId(id)
      ensures var k := kernel[path := On(kernel, path) + [Mount(id, None)]]; Unique(k) && Relayed(k, cleanups, journal) && Pinned(k, cleanups)
    {
      var k := kernel[path := On(kernel, path) + [Mount(id, None)]];
      forall p, i | Live(k, p, i) ensures (Live(kernel, p, i) && k[p][i] == kernel[p][i]) || k[p][i] == Mount(id, None) {}
    }

    /** Run cleanup `k`: unmount only the mount it names, and close the relay only after that. */
    method Clean(k: nat, n: CleanNative) returns (r: Result<(), CleanError>)
      requires Valid() && k < |cleanups| && !cleanups[k].done
      modifies this
      ensures Valid() && old(history) <= history && journal == old(journal)
      ensures |cleanups| == |old(cleanups)| && forall j :: 0 <= j < |cleanups| && j != k ==> cleanups[j] == old(cleanups[j])
      ensures var c := old(cleanups[k]); var s := On(old(kernel), c.path);
              if !c.broken && n.read && s != [] && Top(s).id == c.id && n.unmount == Unmounted
              then r.Success? && kernel == old(kernel)[c.path := Below(s)]
                   && cleanups[k] == c.(open := false, pinned := false, done := true)
                   && history == old(history) + [Moment(kernel, journal, old(listening)), Now()]
              else r.Failure? && kernel == old(kernel) && history == old(history) && cleanups[k] == Retained(c, s, n)
      ensures r == Failure(InUse) <==> Attempts(old(cleanups[k]), On(old(kernel), old(cleanups[k]).path), n) && n.unmount == Busy
    {
      hide Past, Sound, Unique, Relayed, Pinned, Ports, OpenPorts;
      PastExists();
      var c := cleanups[k];
      if c.broken { return Failure(IdentityUnavailable); }
      var s := On(kernel, c.path);
      if !n.read || s == [] { return Failure(IdentityUnavailable); }
      if Top(s).id != c.id { return Failure(IdentityChanged); }
      if n.unmount != Unmounted {
        // The descriptor was given up for the attempt and is taken again.
        if c.pinned && !n.repin { Unpin(k); }
        return Failure(if n.unmount == Busy then InUse else UnmountFailed);
      }
      PopKeeps(kernel, c.path, cleanups, journal);
      TopWasOwn(kernel, c.path, c.id);
      kernel := kernel[c.path := Below(s)];
      RelayedIsSound(kernel, cleanups, journal, listening);
      Note();
      FinishKeeps(kernel, k, cleanups, journal);
      var after := cleanups[k := c.(open := false, pinned := false, done := true)];
      RelayedIsSound(kernel, after, journal, OpenPorts(after));
      cleanups := after;
      listening := OpenPorts(after);
      Note();
      r := Success(());
    }

    /** The identity could not be read again: the cleanup will not try any more, and its relay stays. */
    method Unpin(k: nat)
      requires Valid() && k < |cleanups| && !cleanups[k].done
      modifies this`cleanups
      ensures Valid() && cleanups == old(cleanups)[k := old(cleanups[k]).(pinned := false, broken := true)]
    {
      ghost var before := cleanups;
      cleanups := cleanups[k := cleanups[k].(pinned := false, broken := true)];
      forall q | q in OpenPorts(before) ensures q in OpenPorts(cleanups) {
        var n :| 0 <= n < |before| && before[n].open && before[n].relay.Some? && before[n].relay.value == q;
        assert cleanups[n].open && cleanups[n].relay == before[n].relay;
      }
      forall p, i | Live(kernel, p, i) && kernel[p][i].share.Some? ensures KeptBy(cleanups, p, kernel[p][i], journal) {
        var n :| 0 <= n < |before| && Keeps(before[n], p, kernel[p][i], journal);
        assert Keeps(cleanups[n], p, kernel[p][i], journal);
      }
    }

    /** Restart found the share mounted: adopt it with a new relay at the recorded port, if that can be had. */
    method Recover(share: ShareId, path: Path, id: nat, n: MountNative) returns (r: Result<bool, CleanError>)
      requires Valid() && id != 0 && NotAttached(kernel, share)
      requires forall p, i :: Live(kernel, p, i) && kernel[p][i].id == id ==> kernel[p][i].share == None
      requires forall j :: 0 <= j < |cleanups| && cleanups[j].pinned ==> cleanups[j].id != id
      modifies this
      ensures Valid() && old(cleanups) <= cleanups && old(history) <= history && journal == old(journal)
      ensures r.Failure? <==> On(old(kernel), path) == [] || Top(On(old(kernel), path)).id != id
      ensures r.Failure? ==> kernel == old(kernel) && cleanups == old(cleanups)
      ensures r.Success? ==>
                (r.value ==> share in journal)
                && cleanups == old(cleanups) + [Cleanup(share, path, id, if r.value then Some(journal[share]) else None, r.value, false, false, false)]
      ensures r.Success? ==> (r.value <==> share in journal && FirstPort <= journal[share] < EndPort && journal[share] < n.start && n.listenOk
                                           && journal[share] !in n.taken && journal[share] !in old(listening))
      ensures r == Success(true) ==> On(old(kernel), path) != [] && kernel == old(kernel)[path := Below(On(old(kernel), path)) + [Mount(id, Some(share))]]
      ensures r == Success(false) ==> kernel == old(kernel)
    {
      hide Past, Sound, Unique, Relayed, Pinned, Ports, OpenPorts, NotAttached;
      PastExists();
      var s := On(kernel, path);
      if s == [] || Top(s).id != id { return Failure(IdentityChanged); }
      if !(share in journal && FirstPort <= journal[share] < EndPort && journal[share] < n.start && n.listenOk
           && journal[share] !in n.taken && journal[share] !in listening)
      {
        AddIdle(Cleanup(share, path, id, None, false, false, false, false));
        return Success(false);
      }
      var port := journal[share];
      var c := Cleanup(share, path, id, Some(port), true, false, false, false);
      var tagged := kernel[path := Below(s) + [Mount(id, Some(share))]];
      RelayedIsSound(kernel, cleanups, journal, listening + {port});
      listening := listening + {port};
      Note();
      Adopted(path, c, port);
      RelayedIsSound(tagged, cleanups + [c], journal, listening);
      kernel := tagged;
      Note();
      cleanups := cleanups + [c];
      return Success(true);
    }

    /** A recovered mount without a relay. */
    method AddIdle(c: Cleanup)
      requires Valid() && !c.open && !c.pinned
      modifies this`cleanups
      ensures Valid() && cleanups == old(cleanups) + [c]
    {
      ghost var before := cleanups;
      cleanups := cleanups + [c];
      forall q | q in OpenPorts(before) ensures q in OpenPorts(cleanups) {
        var n :| 0 <= n < |before| && before[n].open && before[n].relay.Some? && before[n].relay.value == q;
        assert cleanups[n] == before[n];
      }
      forall p, i | Live(kernel, p, i) && kernel[p][i].share.Some? ensures KeptBy(cleanups, p, kernel[p][i], journal) {
        var n :| 0 <= n < |before| && Keeps(before[n], p, kernel[p][i], journal);
        assert Keeps(cleanups[n], p, kernel[p][i], journal);
      }
    }

    lemma Adopted(path: Path, c: Cleanup, port: nat)
      requires Unique(kernel) && Relayed(kernel, cleanups, journal) && Pinned(kernel, cleanups) && Ports(cleanups)
      requires On(kernel, path) != [] && Top(On(kernel, path)).id == c.id && c.path == path && c.relay == Some(port) && c.open && !c.done && !c.pinned
      requires FirstPort <= port < EndPort && port !in OpenPorts(cleanups) && c.share in journal && journal[c.share] == port
      requires forall p, i :: Live(kernel, p, i) && kernel[p][i].id == c.id ==> kernel[p][i].share == None
      requires forall j :: 0 <= j < |cleanups| && cleanups[j].pinned ==> cleanups[j].id != c.id
      ensures var k := kernel[path := Below(On(kernel, path)) + [Mount(c.id, Some(c.share))]]; var cs := cleanups + [c];
              Unique(k) && Relayed(k, cs, journal) && Pinned(k, cs) && Ports(cs) && OpenPorts(cs) == OpenPorts(cleanups) + {port}
    {
      var k := kernel[path := Below(On(kernel, path)) + [Mount(c.id, Some(c.share))]];
      var cs := cleanups + [c];
      forall p, i | Live(k, p, i)
        ensures Live(kernel, p, i) && k[p][i].id == kernel[p][i].id && (k[p][i] == kernel[p][i] || (p == path && i == |kernel[p]| - 1))
      {}
      MoreCleanups(c, port);
      forall p, i | Live(k, p, i) && k[p][i].share.Some? ensures KeptBy(cs, p, k[p][i], journal) {
        if k[p][i] == kernel[p][i] {
          var n :| 0 <= n < |cleanups| && Keeps(cleanups[n], p, k[p][i], journal);
          assert Keeps(cs[n], p, k[p][i], journal);
        } else {
          assert Keeps(cs[|cleanups|], p, k[p][i], journal);
        }
      }
    }

    /** Wherever the agent is killed, an attached share's port is in the journal, and until then its relay listens there. */
    lemma KilledAnywhere(i: nat, p: Path, j: nat)
      requires Valid() && i < |history| && Live(history[i].kernel, p, j) && history[i].kernel[p][j].share.Some?
      ensures var m := history[i]; var share := m.kernel[p][j].share.value; share in m.journal && m.journal[share] in m.listening
    {
      assert Sound(history[i]);
      assert PortOpen(history[i], history[i].kernel[p][j].share.value);
    }
  }

  lemma PopKeeps(k: Kernel, p: Path, cs: seq<Cleanup>, journal: map<ShareId, nat>)
    requires Unique(k) && Relayed(k, cs, journal) && Pinned(k, cs) && On(k, p) != []
    ensures var k' := k[p := Below(On(k, p))]; Unique(k') && Relayed(k', cs, journal) && Pinned(k', cs)
  {
    var k' := k[p := Below(On(k, p))];
    forall q, i | Live(k', q, i) ensures Live(k, q, i) && k'[q][i] == k[q][i] {}
  }

  /** With the top mount its id is gone. */
  lemma TopWasOwn(k: Kernel, p: Path, id: nat)
    requires Unique(k) && On(k, p) != [] && Top(On(k, p)).id == id
    ensures var k' := k[p := Below(On(k, p))]; forall q, i :: Live(k', q, i) ==> k'[q][i].id != id
  {
    var k' := k[p := Below(On(k, p))];
    forall q, i | Live(k', q, i) ensures k'[q][i].id != id {
      assert Live(k, q, i) && k[q][i] == k'[q][i] && Live(k, p, |k[p]| - 1) && (q != p || i < |k[p]| - 1);
    }
  }

  /** A relay may close once no mount has its cleanup's id. */
  lemma FinishKeeps(k: Kernel, n: nat, cs: seq<Cleanup>, journal: map<ShareId, nat>)
    requires Relayed(k, cs, journal) && Pinned(k, cs) && Ports(cs) && n < |cs| && forall q, i :: Live(k, q, i) ==> k[q][i].id != cs[n].id
    ensures var cs' := cs[n := cs[n].(open := false, pinned := false, done := true)]; Relayed(k, cs', journal) && Pinned(k, cs') && Ports(cs')
  {
    var cs' := cs[n := cs[n].(open := false, pinned := false, done := true)];
    forall q, i | Live(k, q, i) && k[q][i].share.Some? ensures KeptBy(cs', q, k[q][i], journal) {
      var j :| 0 <= j < |cs| && Keeps(cs[j], q, k[q][i], journal);
      assert j != n && cs'[j] == cs[j];
    }
  }
}
