/** Which recovered SMB shares form a group, when a group may be adopted, and what adopting it adds. */
module GlobalRecovery {
  import opened Options
  import opened Text
  import opened Paths
  import opened LinkRecords
  import opened WNetProtocol
  import opened WNetBackend
  import opened GlobalModel

  datatype Journaled = Pending | Mounted | Absent

  /** A share of the current boot, from the journal.  The mapping key and token are empty until they are recorded. */
  datatype Share = Share(boot: nat, smb: bool, state: Journaled, port: nat, mappingKey: Key, token: Token,
                         fingerprint: Fingerprint, link: LinkRecord)

  /** The cleanup a share gets: none, one that has nothing to do, or one of the manager's. */
  datatype Given = Nothing | Trivial | Handed(cleanup: nat)

  /** What the native reads of one recovery answer. */
  datatype RecoverNative = RecoverNative(ownersOk: bool, unreadable: set<Key>, unreadableLinks: set<Path>, check: Key -> Native)

  /** A pending share without a token owns no native resources. */
  predicate OwnsNothing(r: Share) {
    r.smb && r.state == Pending && r.mappingKey == "" && r.token == "" && r.link.phase == Unstaged && r.link.stage == None && r.link.link == None
  }

  predicate Grouped(r: Share) { r.smb && r.state != Journaled.Absent && !OwnsNothing(r) }

  function RemoteKey(r: Share): Key { Lower(r.link.source) }

  predicate InGroup(shares: seq<Share>, key: Key, i: nat) { i < |shares| && Grouped(shares[i]) && RemoteKey(shares[i]) == key }

  function Group(shares: seq<Share>, key: Key, n: nat): (g: seq<nat>)
    requires n <= |shares|
    ensures forall j :: 0 <= j < |g| ==> g[j] < n && InGroup(shares, key, g[j])
    ensures forall i :: 0 <= i < n && InGroup(shares, key, i) ==> i in g
    ensures forall j, k :: 0 <= j < k < |g| ==> g[j] < g[k]
  {
    if n == 0 then [] else Group(shares, key, n - 1) + if InGroup(shares, key, n - 1) then [n - 1] else []
  }

  function RecordOwner(rec: Rec): Request { Request(Op.Remove, rec.key, rec.remote, rec.user, "", rec.token, rec.port) }

  /** An add was recorded for this share, and nothing more. */
  predicate LeftIntent(w: World, r: Share) {
    && r.mappingKey in w.store
    && var rec := w.store[r.mappingKey];
       rec.phase == Intent && rec.boot == r.boot && rec.token == r.token && EqualFold(rec.remote, r.link.source) && rec.port == r.port
  }

  predicate OnlyAdded(w: World, r: Share, n: RecoverNative) {
    r.state == Pending && r.mappingKey != "" && r.token != "" && r.mappingKey !in n.unreadable && LeftIntent(w, r)
  }

  /** The link is the recorded one, or publication had not reached that point. */
  predicate LinkOk(links: map<Path, Link>, r: Share, n: RecoverNative) {
    if r.link.phase == Unstaged || r.state == Mounted
    then r.link.path in links && EqualFold(links[r.link.path].target, r.link.source) && r.link.path !in n.unreadableLinks
         && r.link.link == Some(links[r.link.path].id)
    else r.link.stage.Some? ==> ValidStage(r.link)
  }

  /** Paths are compared without regard to case. */
  function SharePath(p: Path): Path { seq(|p|, i requires 0 <= i < |p| => Lower(p[i])) }

  predicate PathFree(shares: seq<Share>, i: nat) requires i < |shares| {
    forall j :: 0 <= j < |shares| && j != i && shares[j].state != Journaled.Absent ==> !PathsOverlap(SharePath(shares[j].link.path), SharePath(shares[i].link.path))
  }

  /** The share can be adopted together with others that say the same of the mapping. */
  predicate MemberOk(links: map<Path, Link>, shares: seq<Share>, i: nat, first: Share, n: RecoverNative) requires i < |shares| {
    var r := shares[i];
    && (r.state == Mounted || (r.state == Pending && r.link.phase != Unstaged))
    && (r.link.link.Some? || r.link.phase != Unstaged)
    && r.mappingKey == first.mappingKey && r.token == first.token && r.fingerprint == first.fingerprint && r.port == first.port
    && LinkOk(links, r, n) && PathFree(shares, i)
  }

  predicate OwnerOk(w: World, key: Key, first: Share) {
    key in w.store && w.store[key].key == first.mappingKey && w.store[key].token == first.token && w.store[key].port == first.port
  }

  /** Every member is verified, and the mapping is the one they all name. */
  predicate GroupOk(w: World, links: map<Path, Link>, shares: seq<Share>, key: Key, n: RecoverNative) {
    var g := Group(shares, key, |shares|);
    && g != [] && n.ownersOk && OwnerOk(w, key, shares[g[0]])
    && (forall j :: 0 <= j < |g| ==> MemberOk(links, shares, g[j], shares[g[0]], n))
    && Live(w, RecordOwner(w.store[key]).(op := Op.Check), n.check(key))
  }

  /** A single member whose add was recorded and got no further. */
  predicate FailedCase(w: World, shares: seq<Share>, key: Key, n: RecoverNative) {
    var g := Group(shares, key, |shares|);
    |g| == 1 && OnlyAdded(w, shares[g[0]], n)
  }

  function Adopted(shares: seq<Share>, i: nat, entry: nat): Cleanup requires i < |shares| {
    var r := shares[i].link;
    Users(entry, r.path, r.source, true, r.link, r.phase != Unstaged, true, false)
  }

  /** The cleanups of a group's members, in order. */
  function Adoptions(shares: seq<Share>, g: seq<nat>, entry: nat): (cs: seq<Cleanup>)
    requires forall j :: 0 <= j < |g| ==> g[j] < |shares|
    ensures |cs| == |g| && forall j :: 0 <= j < |g| ==> cs[j] == Adopted(shares, g[j], entry)
  {
    seq(|g|, j requires 0 <= j < |g| => Adopted(shares, g[j], entry))
  }

  /** How a group ends: as a failed add awaiting its cleanup, adopted as a whole, or blocked as a whole. */
  ghost predicate GroupEnds(s: State, shares: seq<Share>, given: seq<Given>, key: Key, n: RecoverNative)
    requires |given| == |shares|
  {
    var g := Group(shares, key, |shares|);
    && key in s.entries && s.entries[key] < |s.heap|
    && var i := s.entries[key]; var e := s.heap[i];
       if FailedCase(s.w, shares, key, n) then
         e.blocked && e.refs == 0 && HandedFailed(s, shares, given, g[0])
       else if GroupOk(s.w, s.links, shares, key, n) then
         !e.blocked && e.refs == |g| && e.key == key && e.owner == RecordOwner(s.w.store[key]) && e.fingerprint == shares[g[0]].fingerprint
         && forall j :: 0 <= j < |g| ==> HandedUser(s, shares, given, g[j], i)
       else
         e.blocked && e.refs == |g| && forall j :: 0 <= j < |g| ==> given[g[j]] == Nothing
  }

  ghost predicate HandedUser(s: State, shares: seq<Share>, given: seq<Given>, i: nat, entry: nat)
    requires i < |shares| == |given|
  {
    given[i].Handed? && given[i].cleanup < |s.cleanups| && s.cleanups[given[i].cleanup] == Adopted(shares, i, entry)
  }

  ghost predicate HandedFailed(s: State, shares: seq<Share>, given: seq<Given>, i: nat)
    requires i < |shares| == |given|
  {
    && given[i].Handed? && given[i].cleanup < |s.cleanups|
    && s.cleanups[given[i].cleanup] == FailedAdd(shares[i].mappingKey, shares[i].token, shares[i].link.source, shares[i].port, shares[i].boot)
  }

  /** A group's end stands while other groups are added. */
  lemma GroupEndsKeeps(s: State, s': State, shares: seq<Share>, given: seq<Given>, given': seq<Given>, key: Key, other: Key, n: RecoverNative)
    requires |given| == |shares| == |given'| && GroupEnds(s, shares, given, key, n) && key != other
    requires s'.w == s.w && s'.links == s.links && key in s'.entries && s'.entries[key] == s.entries[key]
    requires s.heap <= s'.heap && s.cleanups <= s'.cleanups
    requires forall i :: 0 <= i < |shares| && !InGroup(shares, other, i) ==> given'[i] == given[i]
    ensures GroupEnds(s', shares, given', key, n)
  {
    hide OnlyAdded, GroupOk, Adopted;
    var g := Group(shares, key, |shares|);
    var i := s.entries[key];
    assert s'.heap[i] == s.heap[i];
    forall j | 0 <= j < |g|
      ensures given'[g[j]] == given[g[j]]
      ensures HandedUser(s, shares, given, g[j], i) ==> HandedUser(s', shares, given', g[j], i)
      ensures HandedFailed(s, shares, given, g[j]) ==> HandedFailed(s', shares, given', g[j])
    {
      assert InGroup(shares, key, g[j]) && !InGroup(shares, other, g[j]);
    }
  }

  function RemoteKeys(shares: seq<Share>): set<Key> {
    set i | 0 <= i < |shares| && Grouped(shares[i]) :: RemoteKey(shares[i])
  }

  /** What shares outside the groups get, and those of groups still to do. */
  ghost predicate Ungrouped(shares: seq<Share>, given: seq<Given>, left: set<Key>) {
    && |given| == |shares|
    && (forall i :: 0 <= i < |shares| && OwnsNothing(shares[i]) ==> given[i] == Trivial)
    && (forall i :: 0 <= i < |shares| && !Grouped(shares[i]) && !OwnsNothing(shares[i]) ==> given[i] == Nothing)
    && (forall i :: 0 <= i < |shares| && Grouped(shares[i]) && RemoteKey(shares[i]) in left ==> given[i] == Nothing)
  }

  ghost predicate AllEnd(s: State, shares: seq<Share>, given: seq<Given>, done: set<Key>, n: RecoverNative) {
    |given| == |shares| && forall k :: k in done ==> GroupEnds(s, shares, given, k, n)
  }

  function Start(shares: seq<Share>): (given: seq<Given>)
    ensures Ungrouped(shares, given, RemoteKeys(shares))
  {
    seq(|shares|, i requires 0 <= i < |shares| => if OwnsNothing(shares[i]) then Trivial else Nothing)
  }

  lemma NoneEnd(s: State, shares: seq<Share>, given: seq<Given>, n: RecoverNative)
    requires Ungrouped(shares, given, RemoteKeys(shares))
    ensures AllEnd(s, shares, given, {}, n)
  {
  }

  lemma GivenLength(shares: seq<Share>, given: seq<Given>, left: set<Key>)
    requires Ungrouped(shares, given, left)
    ensures |given| == |shares|
  {
  }

  lemma NextGroup(shares: seq<Share>, given: seq<Given>, left: set<Key>, key: Key)
    requires Ungrouped(shares, given, left) && key in left && left <= RemoteKeys(shares)
    ensures Group(shares, key, |shares|) != []
    ensures forall i: nat :: InGroup(shares, key, i) ==> given[i] == Nothing
  {
    var i: nat :| i < |shares| && Grouped(shares[i]) && RemoteKey(shares[i]) == key;
    assert InGroup(shares, key, i);
  }

  lemma UngroupedKeeps(shares: seq<Share>, given: seq<Given>, given': seq<Given>, left: set<Key>, key: Key)
    requires Ungrouped(shares, given, left) && |given'| == |shares|
    requires forall i :: 0 <= i < |shares| && !InGroup(shares, key, i) ==> given'[i] == given[i]
    ensures Ungrouped(shares, given', left - {key})
  {
  }

  lemma AllEndKeeps(s: State, s': State, shares: seq<Share>, given: seq<Given>, given': seq<Given>, done: set<Key>, key: Key, n: RecoverNative)
    requires AllEnd(s, shares, given, done, n) && |given'| == |shares| && key !in done && GroupEnds(s', shares, given', key, n)
    requires s'.w == s.w && s'.links == s.links && s.heap <= s'.heap && s.cleanups <= s'.cleanups
    requires done <= s.entries.Keys && forall k :: k in s.entries ==> k in s'.entries && s'.entries[k] == s.entries[k]
    requires forall i :: 0 <= i < |shares| && !InGroup(shares, key, i) ==> given'[i] == given[i]
    ensures AllEnd(s', shares, given', done + {key}, n)
  {
    hide GroupEnds;
    forall k | k in done ensures GroupEnds(s', shares, given', k, n) {
      GroupEndsKeeps(s, s', shares, given, given', k, key, n);
    }
  }

  lemma AddedKey(w: World, r: Share, n: RecoverNative)
    requires OnlyAdded(w, r, n) && forall k :: k in w.store ==> w.store[k].key == k && Lower(w.store[k].remote) == k
    ensures r.mappingKey == RemoteKey(r)
  {
  }

  /** The cleanups of an adopted group, run in any order: the mapping stays until the last one and goes with it. */
  lemma AdoptedGroupReleases(ss: seq<State>, order: seq<nat>, shares: seq<Share>, given: seq<Given>, key: Key, n: RecoverNative, m: nat)
    requires Cleans(ss, order) && |given| == |shares| && m < |ss|
    requires GroupEnds(ss[0], shares, given, key, n) && GroupOk(ss[0].w, ss[0].links, shares, key, n) && !FailedCase(ss[0].w, shares, key, n)
    requires |order| == |Group(shares, key, |shares|)|
    requires forall j :: 0 <= j < |order| ==> exists i: nat :: InGroup(shares, key, i) && given[i] == Handed(order[j])
    ensures m < |order| ==> ss[m].w == ss[0].w && ss[m].entries == ss[0].entries
    ensures m == |order| ==> key !in ss[m].w.store && ss[m].entries == ss[0].entries - {key}
  {
    hide MemberOk, Live, OwnerOk;
    var i := ss[0].entries[key];
    var g := Group(shares, key, |shares|);
    forall j | 0 <= j < |order| ensures order[j] < |ss[0].cleanups| && Holds(ss[0].cleanups[order[j]], i) {
      var at: nat :| InGroup(shares, key, at) && given[at] == Handed(order[j]);
      assert at in g;
      assert HandedUser(ss[0], shares, given, at, i);
    }
    assert Good(ss[0]);
    AnyOrder(ss, order, i, m);
  }

  // ---- Adding a group -----------------------------------------------------

  lemma {:induction false} CountMore(cs: seq<Cleanup>, more: seq<Cleanup>, entry: nat)
    ensures Count(cs + more, entry) == Count(cs, entry) + Count(more, entry)
  {
    if more == [] {
      assert cs + more == cs;
    } else {
      var last := |more| - 1;
      assert (cs + more)[..|cs + more| - 1] == cs + more[..last];
      CountMore(cs, more[..last], entry);
    }
  }

  lemma {:induction false} CountAll(cs: seq<Cleanup>, entry: nat)
    requires forall k :: 0 <= k < |cs| ==> Holds(cs[k], entry)
    ensures Count(cs, entry) == |cs|
  {
    if cs != [] { CountAll(cs[..|cs| - 1], entry); }
  }

  function WithGroup(s: State, e: Entry, more: seq<Cleanup>): State {
    s.(heap := s.heap + [e], entries := s.entries[e.key := |s.heap|], cleanups := s.cleanups + more)
  }

  lemma FreshEntryUnused(s: State)
    requires Good(s)
    ensures Count(s.cleanups, |s.heap|) == 0
  {
    forall k | 0 <= k < |s.cleanups| ensures !Holds(s.cleanups[k], |s.heap|) { assert CleanupOk(s, s.cleanups[k]); }
    CountNone(s.cleanups, |s.heap|);
  }

  /** An adopted group, a blocked one, or a failed add keeps the invariant. */
  lemma GroupGood(s: State, e: Entry, more: seq<Cleanup>)
    requires Good(s) && Quiet(s) && e.key !in s.entries && !e.pending
    requires !e.blocked ==> e.refs == |more| > 0 && e.owner.op == Op.Remove && e.owner.key == e.key
                            && e.key in s.w.store && Matches(s.w.store[e.key], e.owner)
                            && forall k :: 0 <= k < |more| ==> more[k].Users? && more[k].linked && Holds(more[k], |s.heap|)
    requires e.blocked ==> (more == [] && e.refs > 0) || (e.refs == 0 && |more| == 1 && more[0].FailedAdd?
                           && (more[0].key == e.key || more[0].key !in s.w.store))
    ensures Good(WithGroup(s, e, more)) && Quiet(WithGroup(s, e, more))
  {
    var s' := WithGroup(s, e, more);
    forall j | 0 <= j < |s'.heap| ensures EntryOk(s', j) && Settled(s', j) {
      CountMore(s.cleanups, more, j);
      if j < |s.heap| {
        assert EntryOk(s, j) && Settled(s, j);
        if more != [] { CountNone(more, j); }
      } else {
        FreshEntryUnused(s);
        if e.blocked { CountNone(more, j); } else { CountAll(more, j); }
      }
    }
    forall k | 0 <= k < |s'.cleanups| ensures CleanupOk(s', s'.cleanups[k]) {
      if k < |s.cleanups| { assert CleanupOk(s, s.cleanups[k]); }
    }
  }

  /** The entry of an adopted group: one reference for each member. */
  function AdoptedEntry(w: World, shares: seq<Share>, key: Key, g: seq<nat>): Entry
    requires key in w.store && g != [] && g[0] < |shares|
  {
    Entry(key, |g|, shares[g[0]].fingerprint, false, RecordOwner(w.store[key]), false)
  }

  lemma AdoptionGood(s: State, shares: seq<Share>, key: Key, g: seq<nat>)
    requires Good(s) && Quiet(s) && key !in s.entries && key in s.w.store && s.w.store[key].key == key
    requires g != [] && forall j :: 0 <= j < |g| ==> g[j] < |shares|
    ensures var s' := WithGroup(s, AdoptedEntry(s.w, shares, key, g), Adoptions(shares, g, |s.heap|)); Good(s') && Quiet(s')
  {
    hide Good, Quiet;
    GroupGood(s, AdoptedEntry(s.w, shares, key, g), Adoptions(shares, g, |s.heap|));
  }

  lemma EntryKey(w: World, shares: seq<Share>, key: Key, g: seq<nat>)
    requires key in w.store && g != [] && g[0] < |shares|
    ensures AdoptedEntry(w, shares, key, g).key == key
  {
  }

  lemma MemberIndex(shares: seq<Share>, key: Key, i: nat) returns (j: nat)
    requires InGroup(shares, key, i)
    ensures j < |Group(shares, key, |shares|)| && Group(shares, key, |shares|)[j] == i
  {
    var g := Group(shares, key, |shares|);
    assert i in g;
    j :| j < |g| && g[j] == i;
  }

  /** Consecutive cleanups handed to the members, in order, are their adoptions. */
  lemma MembersHanded(s: State, before: seq<Cleanup>, shares: seq<Share>, key: Key, given: seq<Given>, given': seq<Given>, entry: nat)
    requires |given| == |given'| == |shares| && s.cleanups == before + Adoptions(shares, Group(shares, key, |shares|), entry)
    requires var g := Group(shares, key, |shares|);
             (forall i :: 0 <= i < |given| && i !in g ==> given'[i] == given[i]) && forall j :: 0 <= j < |g| ==> given'[g[j]] == Handed(|before| + j)
    ensures forall i :: 0 <= i < |shares| && !InGroup(shares, key, i) ==> given'[i] == given[i]
    ensures forall i: nat :: InGroup(shares, key, i) ==> HandedUser(s, shares, given', i, entry)
  {
    hide Adopted;
    var g := Group(shares, key, |shares|);
    var more := Adoptions(shares, g, entry);
    forall i: nat | InGroup(shares, key, i) ensures HandedUser(s, shares, given', i, entry) {
      var j := MemberIndex(shares, key, i);
      hide Group, InGroup, Adoptions;
      assert s.cleanups[|before| + j] == more[j] == Adopted(shares, i, entry);
    }
  }

  // ---- What adoption is worth -------------------------------------------------

  /** The path is free, or the recorded link is there; for a share that was mounted recovery has seen to that. */
  predicate Removable(s: State, r: Share) {
    || r.state == Mounted || r.link.path !in s.links
    || (r.link.link == Some(s.links[r.link.path].id) && EqualFold(s.links[r.link.path].target, r.link.source))
  }

  /** The share was given a cleanup that can remove its link and give back its hold on the mapping that its own
      credentials can join. */
  ghost predicate CanClean(s: State, g: Given, r: Share) {
    && g.Handed? && g.cleanup < |s.cleanups|
    && var c := s.cleanups[g.cleanup];
    && c.Users? && c.path == r.link.path && c.source == r.link.source && c.managed && c.linked && !c.released
    && c.entry < |s.heap| && GlobalModel.Current(s, c.entry) && s.heap[c.entry].key == RemoteKey(r) && !s.heap[c.entry].blocked
    && s.heap[c.entry].fingerprint == r.fingerprint && s.heap[c.entry].owner.token == r.token && s.heap[c.entry].owner.port == r.port
    && (Removable(s, r) ==> MayUnlink(s, c))
  }

  /** Every member of an adopted group can be cleaned up, and its path is no other recovered share's. */
  lemma AdoptedCanClean(s: State, shares: seq<Share>, given: seq<Given>, key: Key, n: RecoverNative, i: nat)
    requires |given| == |shares| && GroupEnds(s, shares, given, key, n) && InGroup(shares, key, i)
    requires GroupOk(s.w, s.links, shares, key, n) && !FailedCase(s.w, shares, key, n)
    ensures CanClean(s, given[i], shares[i])
    ensures shares[i].state == Mounted || (shares[i].state == Pending && shares[i].link.phase != Unstaged)
    ensures forall j :: 0 <= j < |shares| && j != i && shares[j].state != Journaled.Absent ==>
              !PathsOverlap(SharePath(shares[j].link.path), SharePath(shares[i].link.path))
  {
    hide Live;
    var j := MemberIndex(shares, key, i);
    var g := Group(shares, key, |shares|);
    hide Group;
    assert MemberOk(s.links, shares, g[j], shares[g[0]], n) && MemberOk(s.links, shares, g[0], shares[g[0]], n);
    assert HandedUser(s, shares, given, g[j], s.entries[key]);
  }

  /** The share's group passes recovery as a whole. */
  predicate Adoptable(w: World, links: map<Path, Link>, shares: seq<Share>, n: RecoverNative, i: nat) requires i < |shares| {
    Grouped(shares[i]) && GroupOk(w, links, shares, RemoteKey(shares[i]), n) && !FailedCase(w, shares, RemoteKey(shares[i]), n)
  }

  /** What each share of a finished recovery is given: nothing if it is absent or of another transport, an empty cleanup
      if it is pending and recorded nothing, else a cleanup of its group, or none while the group is blocked. */
  lemma EveryShareEnds(s: State, shares: seq<Share>, given: seq<Given>, n: RecoverNative, i: nat)
    requires Ungrouped(shares, given, {}) && AllEnd(s, shares, given, RemoteKeys(shares), n) && i < |shares|
    ensures var r := shares[i]; var key := RemoteKey(r);
            if !r.smb || r.state == Journaled.Absent then given[i] == Nothing
            else if r.state == Pending && r.mappingKey == r.token == "" && r.link.phase == Unstaged && r.link.stage.None? && r.link.link.None? then given[i] == Trivial
            else key in s.entries && s.entries[key] < |s.heap|
                 && if s.heap[s.entries[key]].blocked then given[i] == Nothing || FailedCase(s.w, shares, key, n) else given[i].Handed?
  {
    hide GroupOk, FailedCase;
    var key := RemoteKey(shares[i]);
    if Grouped(shares[i]) {
      assert key in RemoteKeys(shares) && GroupEnds(s, shares, given, key, n);
      var j := MemberIndex(shares, key, i);
      var g := Group(shares, key, |shares|);
      assert g[j] == i;
      if !FailedCase(s.w, shares, key, n) && GroupOk(s.w, s.links, shares, key, n) {
        assert HandedUser(s, shares, given, g[j], s.entries[key]);
      }
    }
  }

  lemma AdoptedAllClean(s: State, shares: seq<Share>, given: seq<Given>, n: RecoverNative)
    requires AllEnd(s, shares, given, RemoteKeys(shares), n)
    ensures |given| == |shares| && forall i: nat :: i < |shares| && Adoptable(s.w, s.links, shares, n, i) ==> CanClean(s, given[i], shares[i])
  {
    hide GroupOk, FailedCase, CanClean, GroupEnds;
    forall i: nat | i < |shares| && Adoptable(s.w, s.links, shares, n, i) ensures CanClean(s, given[i], shares[i]) {
      assert RemoteKey(shares[i]) in RemoteKeys(shares);
      AdoptedCanClean(s, shares, given, RemoteKey(shares[i]), n, i);
    }
  }

  /** The journal of a share that was mounted through the cleanup `c`, its link still on disk. */
  ghost predicate JournalOf(s: State, r: Share, c: Cleanup) {
    && c.Users? && c.managed && c.linked && !c.released && c.id.Some? && c.entry < |s.heap|
    && c.path in s.links && s.links[c.path] == GlobalModel.Link(c.source, c.id.value)
    && r.smb && r.state == Mounted && r.link == LinkRecord(c.path, c.source, Published, c.id, None)
    && var e := s.heap[c.entry];
       e.key == e.owner.key == Lower(c.source) && r.mappingKey == e.owner.key && r.token == e.owner.token && r.fingerprint == e.fingerprint && r.port == e.owner.port
  }

  /** The journal of a share whose link was being published on the entry's mapping when the agent was killed. */
  predicate PublishingOn(e: Entry, r: Share) {
    r.smb && r.state == Pending && r.link.phase != Unstaged && (r.link.stage.Some? ==> ValidStage(r.link)) && e.owner.key == RemoteKey(r) && Names(e, r)
  }

  /** Mounted, or being published. */
  ghost predicate MemberJournal(s: State, key: Key, r: Share) {
    || (exists k :: 0 <= k < |s.cleanups| && JournalOf(s, r, s.cleanups[k]))
    || (key in s.entries && s.entries[key] < |s.heap| && PublishingOn(s.heap[s.entries[key]], r))
  }

  /** Before and after: a group whose members' journals, links and live connection are as their mounts, finished or
      killed, left them is adopted as a whole when the agent restarts. */
  lemma RestartAdopts(s: State, shares: seq<Share>, key: Key, n: RecoverNative)
    requires Good(s) && key in s.entries && s.entries[key] < |s.heap| && key in s.w.store && ValidRecord(key, s.w.store[key])
    requires n.ownersOk && n.unreadableLinks == {} && Live(s.w, s.heap[s.entries[key]].owner.(op := Op.Check), n.check(key))
    requires exists i: nat :: InGroup(shares, key, i)
    requires forall i: nat :: InGroup(shares, key, i) ==> MemberJournal(s, key, shares[i])
    requires forall i: nat :: InGroup(shares, key, i) ==> PathFree(shares, i)
    ensures GroupOk(s.w, s.links, shares, key, n) && !FailedCase(s.w, shares, key, n)
  {
    var g := Group(shares, key, |shares|);
    var i0: nat :| InGroup(shares, key, i0);
    var j0 := MemberIndex(shares, key, i0);
    assert forall j :: 0 <= j < |g| ==> InGroup(shares, key, g[j]);
    hide Group, InGroup, Live, OwnerOk, Good, LinkOk, PathFree, JournalOf, ValidRecord, RecordOwner, MemberOk, GroupOk, FailedCase, Adoptee;
    forall j | 0 <= j < |g|
      ensures Adoptee(shares[g[j]]) && Names(s.heap[s.entries[key]], shares[g[j]]) && LinkOk(s.links, shares[g[j]], n)
    {
      AnyMember(s, shares, key, n, g[j]);
    }
    MountedOwner(s, shares, key, n, g[0]);
    MembersMakeGroup(s, shares, key, n, s.heap[s.entries[key]]);
  }

  predicate Adoptee(r: Share) { (r.state == Mounted && r.link.link.Some?) || (r.state == Pending && r.link.phase != Unstaged) }

  lemma LiveNoIntent(w: World, key: Key, r: Share, n: RecoverNative)
    requires OwnerOk(w, key, r) && r.mappingKey == key && Live(w, RecordOwner(w.store[key]).(op := Op.Check), n.check(key))
    ensures !LeftIntent(w, r)
  {
  }

  lemma MembersMakeGroup(s: State, shares: seq<Share>, key: Key, n: RecoverNative, e: Entry)
    requires var g := Group(shares, key, |shares|);
             g != [] && OwnerOk(s.w, key, shares[g[0]])
             && forall j :: 0 <= j < |g| ==> Adoptee(shares[g[j]]) && Names(e, shares[g[j]]) && LinkOk(s.links, shares[g[j]], n) && PathFree(shares, g[j])
    requires e.owner.key == key && n.ownersOk && key in s.w.store && Live(s.w, RecordOwner(s.w.store[key]).(op := Op.Check), n.check(key))
    ensures GroupOk(s.w, s.links, shares, key, n) && !FailedCase(s.w, shares, key, n)
  {
    LiveNoIntent(s.w, key, shares[Group(shares, key, |shares|)[0]], n);
    hide Group, InGroup, Live, OwnerOk, LinkOk, PathFree, LeftIntent;
    var g := Group(shares, key, |shares|);
    assert forall j :: 0 <= j < |g| ==> MemberOk(s.links, shares, g[j], shares[g[0]], n);
  }

  lemma MountedMember(s: State, shares: seq<Share>, key: Key, n: RecoverNative, i: nat, k: nat)
    requires Good(s) && key in s.entries && s.entries[key] < |s.heap| && n.unreadableLinks == {}
    requires InGroup(shares, key, i) && k < |s.cleanups| && JournalOf(s, shares[i], s.cleanups[k])
    ensures Adoptee(shares[i]) && LinkOk(s.links, shares[i], n)
    ensures var e := s.heap[s.entries[key]]; Names(e, shares[i]) && e.owner.key == key
  {
    UserFacts(s, k);
    assert s.cleanups[k].entry == s.entries[key];
    FoldSelf(s.cleanups[k].source);
  }

  lemma AnyMember(s: State, shares: seq<Share>, key: Key, n: RecoverNative, i: nat)
    requires Good(s) && key in s.entries && s.entries[key] < |s.heap| && n.unreadableLinks == {}
    requires InGroup(shares, key, i) && MemberJournal(s, key, shares[i])
    ensures Adoptee(shares[i]) && LinkOk(s.links, shares[i], n)
    ensures var e := s.heap[s.entries[key]]; Names(e, shares[i]) && e.owner.key == key
  {
    hide Good, JournalOf;
    if k: nat :| k < |s.cleanups| && JournalOf(s, shares[i], s.cleanups[k]) {
      MountedMember(s, shares, key, n, i, k);
    } else {
      assert RemoteKey(shares[i]) == key;
    }
  }

  lemma MountedOwner(s: State, shares: seq<Share>, key: Key, n: RecoverNative, i: nat)
    requires Good(s) && key in s.entries && s.entries[key] < |s.heap| && n.unreadableLinks == {}
    requires InGroup(shares, key, i) && MemberJournal(s, key, shares[i])
    requires key in s.w.store && ValidRecord(key, s.w.store[key]) && Live(s.w, s.heap[s.entries[key]].owner.(op := Op.Check), n.check(key))
    ensures OwnerOk(s.w, key, shares[i]) && Live(s.w, RecordOwner(s.w.store[key]).(op := Op.Check), n.check(key))
  {
    AnyMember(s, shares, key, n, i);
    SameFoldSelf(s.w.store[key]);
    hide Good, JournalOf;
  }

  predicate Names(e: Entry, r: Share) {
    r.mappingKey == e.owner.key && r.token == e.owner.token && r.fingerprint == e.fingerprint && r.port == e.owner.port
  }

  lemma SameFoldSelf(rec: Rec)
    ensures Matches(rec, RecordOwner(rec))
  {
    FoldSelf(rec.remote);
  }
}
