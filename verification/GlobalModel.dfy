/** State of the reference-counted SMB mappings of one agent process, and what running a cleanup does to it. */
module GlobalModel {
  import opened Options
  import opened Text
  import opened Paths
  import opened LinkRecords
  import opened WNetProtocol
  import opened WNetBackend

  /** Stands for the digest of the credentials. */
  datatype Fingerprint = Fingerprint(user: string, password: string, port: int)

  datatype Entry = Entry(key: Key, refs: nat, fingerprint: Fingerprint, pending: bool, owner: Request, blocked: bool)

  /** A symbolic link on disk. */
  datatype Link = Link(target: string, id: FileId)

  /** A cleanup handed out: of a link and its share of a mapping, or of an add that failed.  `entry` is the
      mapping entry it holds on to; a link made without a journal is not
      `managed`, and nothing is known of its identity. */
  datatype Cleanup =
    | Users(entry: nat, path: Path, source: string, managed: bool, id: Option<FileId>, staged: bool, linked: bool, released: bool)
    | FailedAdd(key: Key, token: Token, remote: string, port: int, boot: nat)

  /** `heap` holds every entry ever made; `entries` says which are current. */
  datatype State = State(entries: map<Key, nat>, heap: seq<Entry>, cleanups: seq<Cleanup>, links: map<Path, Link>, w: World)

  predicate Holds(c: Cleanup, entry: nat) { c.Users? && c.entry == entry && !c.released }

  /** How many cleanups still hold the entry. */
  function Count(cs: seq<Cleanup>, entry: nat): (n: nat)
  {
    if cs == [] then 0
    else Count(cs[..|cs| - 1], entry) + if Holds(cs[|cs| - 1], entry) then 1 else 0
  }

  lemma CountAppend(cs: seq<Cleanup>, c: Cleanup, entry: nat)
    ensures Count(cs + [c], entry) == Count(cs, entry) + if Holds(c, entry) then 1 else 0
  {
    assert (cs + [c])[..|cs|] == cs;
  }

  lemma {:induction false} CountUpdate(cs: seq<Cleanup>, i: nat, c: Cleanup, entry: nat)
    requires i < |cs|
    ensures Count(cs[i := c], entry) == Count(cs, entry) - (if Holds(cs[i], entry) then 1 else 0) + if Holds(c, entry) then 1 else 0
  {
    var last := |cs| - 1;
    if i < last {
      CountUpdate(cs[..last], i, c, entry);
      assert cs[i := c][..last] == cs[..last][i := c];
    } else {
      assert cs[i := c][..last] == cs[..last];
    }
  }

  lemma {:induction false} CountAt(cs: seq<Cleanup>, i: nat, entry: nat)
    requires i < |cs| && Holds(cs[i], entry)
    ensures Count(cs, entry) >= 1
  {
    if i < |cs| - 1 { CountAt(cs[..|cs| - 1], i, entry); }
  }

  lemma {:induction false} CountTwo(cs: seq<Cleanup>, i: nat, j: nat, entry: nat)
    requires i < j < |cs| && Holds(cs[i], entry) && Holds(cs[j], entry)
    ensures Count(cs, entry) >= 2
  {
    if j < |cs| - 1 { CountTwo(cs[..|cs| - 1], i, j, entry); } else { CountAt(cs[..j], i, entry); }
  }

  // ---- Invariant ----------------------------------------------------------

  predicate Current(s: State, i: nat) {
    i < |s.heap| && s.heap[i].key in s.entries && s.entries[s.heap[i].key] == i
  }

  /** References are live users; an entry in use is current. */
  ghost predicate EntryOk(s: State, i: nat) requires i < |s.heap| {
    var e := s.heap[i];
    && Count(s.cleanups, i) <= e.refs
    && (!e.blocked ==> Count(s.cleanups, i) == e.refs)
    && (e.pending ==> e.refs == 0)
    && (e.refs > 0 ==> Current(s, i))
    && (e.blocked || (e.owner.op == Op.Remove && e.owner.key == e.key))
  }

  /** A mounted link's mapping is still recorded under the entry's token. */
  ghost predicate Recorded(s: State, c: Cleanup) {
    c.Users? && c.linked ==>
      && !c.released && c.entry < |s.heap|
      && (var e := s.heap[c.entry]; !e.blocked ==> e.key in s.w.store && Matches(s.w.store[e.key], e.owner))
  }

  /** Until the failed add is cleaned up, nothing else may use its endpoint. */
  ghost predicate Guarded(s: State, c: Cleanup) {
    c.FailedAdd? && c.key in s.w.store && s.w.store[c.key].token == c.token ==>
      c.key in s.entries && s.entries[c.key] < |s.heap| && s.heap[s.entries[c.key]].blocked && s.heap[s.entries[c.key]].refs == 0
  }

  ghost predicate CleanupOk(s: State, c: Cleanup) {
    (c.Users? ==> c.entry < |s.heap|) && Recorded(s, c) && Guarded(s, c)
  }

  ghost predicate KeysOk(s: State) {
    forall key :: key in s.entries ==> s.entries[key] < |s.heap| && s.heap[s.entries[key]].key == key
  }

  ghost predicate Good(s: State) {
    && KeysOk(s)
    && (forall i :: 0 <= i < |s.heap| ==> EntryOk(s, i))
    && (forall k :: 0 <= k < |s.cleanups| ==> CleanupOk(s, s.cleanups[k]))
  }

  /** A current mapping is in use, awaits its removal, or awaits reconciliation. */
  ghost predicate Settled(s: State, i: nat) {
    Current(s, i) && s.heap[i].refs == 0 && !s.heap[i].blocked ==> s.heap[i].pending
  }

  ghost predicate Quiet(s: State) { forall i :: 0 <= i < |s.heap| ==> Settled(s, i) }

  /** Nothing becomes idle by blocking entries or making them no longer current. */
  lemma QuietKeeps(s: State, s': State)
    requires Quiet(s) && |s'.heap| == |s.heap|
    requires forall i :: 0 <= i < |s.heap| ==> s'.heap[i] == s.heap[i] || (s'.heap[i].blocked && s'.heap[i].key == s.heap[i].key)
    requires forall key :: key in s'.entries ==> key in s.entries && s'.entries[key] == s.entries[key]
    ensures Quiet(s')
  {
    forall i | 0 <= i < |s'.heap| ensures Settled(s', i) { assert Settled(s, i); }
  }

  lemma CurrentFacts(s: State, key: Key)
    requires Good(s) && Quiet(s) && key in s.entries
    ensures s.entries[key] < |s.heap| && s.heap[s.entries[key]].key == key
    ensures EntryOk(s, s.entries[key]) && Settled(s, s.entries[key])
  {
  }

  /** Only entry `i` may be idle. */
  ghost predicate QuietBut(s: State, i: nat) { forall j :: 0 <= j < |s.heap| && j != i ==> Settled(s, j) }

  lemma QuietButKeeps(s: State, s': State, i: nat)
    requires Quiet(s) || QuietBut(s, i)
    requires |s.heap| <= |s'.heap| <= |s.heap| + 1 && (|s.heap| < |s'.heap| ==> i == |s.heap|)
    requires forall j :: 0 <= j < |s.heap| && j != i ==> s'.heap[j] == s.heap[j]
    requires forall key :: key in s'.entries && s'.entries[key] != i ==> key in s.entries && s'.entries[key] == s.entries[key]
    ensures QuietBut(s', i)
    ensures i < |s'.heap| && Settled(s', i) ==> Quiet(s')
  {
    forall j | 0 <= j < |s'.heap| && j != i ensures Settled(s', j) { assert Settled(s, j); }
  }

  // ---- Running a cleanup --------------------------------------------------

  /** The link is the one the cleanup names, or there is none and the link had been published from a stage. */
  predicate MayUnlink(s: State, c: Cleanup) requires c.Users? {
    if c.path in s.links
    then EqualFold(s.links[c.path].target, c.source) && (c.managed ==> c.id == Some(s.links[c.path].id))
    else c.staged
  }

  /** What an effective cleanup of a mapping's user leaves: its link gone, one reference less, and the mapping
      gone with the last. */
  ghost predicate Released(s: State, k: nat, s': State)
    requires k < |s.cleanups| && s.cleanups[k].Users? && s.cleanups[k].entry < |s.heap|
  {
    var c := s.cleanups[k];
    var e := s.heap[c.entry];
    && s'.cleanups == s.cleanups[k := c.(linked := false, released := true)]
    && s'.links == (if c.linked then s.links - {c.path} else s.links)
    && if c.released then s'.heap == s.heap && s'.entries == s.entries && s'.w == s.w
       else
         && e.refs > 0 && s'.heap == s.heap[c.entry := e.(refs := e.refs - 1)]
         && if e.refs == 1 then s'.entries == s.entries - {e.key} && e.key !in s'.w.store && Frame(s.w, s'.w, e.key)
            else s'.entries == s.entries && s'.w == s.w
  }

  /** What a failed cleanup may leave: at most its link gone; the mapping is attempted only by the last user. */
  ghost predicate Retained(s: State, k: nat, s': State)
    requires k < |s.cleanups| && s.cleanups[k].Users? && s.cleanups[k].entry < |s.heap|
  {
    var c := s.cleanups[k];
    var e := s.heap[c.entry];
    && s'.heap == s.heap && s'.entries == s.entries
    && (s'.cleanups == s.cleanups || (c.linked && s'.cleanups == s.cleanups[k := c.(linked := false)]))
    && (s'.links == s.links || (c.linked && MayUnlink(s, c) && s'.links == s.links - {c.path}))
    && (s'.w == s.w || (!s'.cleanups[k].linked && !c.released && e.refs == 1 && !e.blocked && Frame(s.w, s'.w, e.key)))
  }

  lemma FrameSame(w: World, key: Key)
    ensures Frame(w, w, key)
  {
  }

  lemma FrameTwice(w: World, w1: World, w2: World, key: Key)
    requires Frame(w, w1, key) && Frame(w1, w2, key)
    ensures Frame(w, w2, key)
  {
  }

  lemma OtherRecord(w: World, w': World, key: Key, other: Key)
    requires Frame(w, w', key) && other != key
    ensures other in w.store <==> other in w'.store
    ensures other in w.store ==> w.store[other] == w'.store[other]
  {
    assert other in w.store <==> other in w.store - {key};
    assert other in w'.store <==> other in w'.store - {key};
    if other in w.store { assert (w.store - {key})[other] == w.store[other] && (w'.store - {key})[other] == w'.store[other]; }
  }

  lemma EntryExists(s: State, k: nat)
    requires Good(s) && k < |s.cleanups| && s.cleanups[k].Users?
    ensures s.cleanups[k].entry < |s.heap|
  {
    assert CleanupOk(s, s.cleanups[k]);
  }

  lemma ReleasedEntries(s: State, k: nat, s': State, i: nat)
    requires Good(s) && k < |s.cleanups| && s.cleanups[k].Users? && !s.heap[s.cleanups[k].entry].blocked
    requires Released(s, k, s') && i < |s.heap|
    ensures EntryOk(s', i)
  {
    var c := s.cleanups[k];
    var c' := c.(linked := false, released := true);
    assert EntryOk(s, i) && EntryOk(s, c.entry);
    CountUpdate(s.cleanups, k, c', i);
    if !c.released {
      assert Current(s, c.entry);
      assert i != c.entry && Current(s, i) ==> s.heap[i].key != s.heap[c.entry].key;
    }
  }

  /** Whoever else holds the entry keeps its mapping recorded. */
  lemma ReleaseSparesUsers(s: State, k: nat, s': State, j: nat)
    requires Good(s) && k < |s.cleanups| && s.cleanups[k].Users? && !s.heap[s.cleanups[k].entry].blocked
    requires Released(s, k, s') && j < |s.cleanups| && j != k && s.cleanups[j].Users?
    ensures CleanupOk(s', s.cleanups[j])
  {
    var c, d := s.cleanups[k], s.cleanups[j];
    assert CleanupOk(s, d) && CleanupOk(s, c);
    assert EntryOk(s, c.entry);
    if !c.released && d.linked && s.heap[c.entry].refs == 1 {
      assert EntryOk(s, d.entry);
      CountAt(s.cleanups, j, d.entry);
      CountAt(s.cleanups, k, c.entry);
      if d.entry == c.entry { CountTwo(s.cleanups, if j < k then j else k, if j < k then k else j, c.entry); }
      assert Current(s, c.entry) && Current(s, d.entry);
      OtherRecord(s.w, s'.w, s.heap[c.entry].key, s.heap[d.entry].key);
    }
  }

  lemma ReleaseSparesFailed(s: State, k: nat, s': State, j: nat)
    requires Good(s) && k < |s.cleanups| && s.cleanups[k].Users? && !s.heap[s.cleanups[k].entry].blocked
    requires Released(s, k, s') && j < |s.cleanups| && j != k && s.cleanups[j].FailedAdd?
    ensures CleanupOk(s', s.cleanups[j])
  {
    var c, d := s.cleanups[k], s.cleanups[j];
    assert CleanupOk(s, d) && CleanupOk(s, c);
    assert EntryOk(s, c.entry);
    if !c.released && s.heap[c.entry].refs == 1 && d.key != s.heap[c.entry].key {
      OtherRecord(s.w, s'.w, s.heap[c.entry].key, d.key);
    }
  }

  lemma ReleasedGood(s: State, k: nat, s': State)
    requires Good(s) && k < |s.cleanups| && s.cleanups[k].Users? && !s.heap[s.cleanups[k].entry].blocked
    requires Released(s, k, s')
    ensures Good(s')
  {
    hide EntryOk, CleanupOk;
    EntryExists(s, k);
    forall i | 0 <= i < |s'.heap|
      ensures EntryOk(s', i)
    {
      ReleasedEntries(s, k, s', i);
    }
    forall j | 0 <= j < |s'.cleanups|
      ensures CleanupOk(s', s'.cleanups[j])
    {
      if j == k { ReleasedSelf(s, k, s'); }
      else if s.cleanups[j].Users? { ReleaseSparesUsers(s, k, s', j); }
      else { ReleaseSparesFailed(s, k, s', j); }
    }
  }

  lemma ReleasedSelf(s: State, k: nat, s': State)
    requires Good(s) && k < |s.cleanups| && s.cleanups[k].Users? && Released(s, k, s')
    ensures CleanupOk(s', s'.cleanups[k])
  {
    assert CleanupOk(s, s.cleanups[k]);
  }

  lemma LinksGood(s: State, links: map<Path, Link>)
    requires Good(s)
    ensures Good(s.(links := links))
  {
    var s' := s.(links := links);
    forall j | 0 <= j < |s'.heap| ensures EntryOk(s', j) { assert EntryOk(s, j); }
    forall k | 0 <= k < |s'.cleanups| ensures CleanupOk(s', s'.cleanups[k]) { assert CleanupOk(s, s.cleanups[k]); }
  }

  /** The invariant speaks of the records only: what is live, and in which session, may change. */
  lemma StoreKeepsGood(s: State, s': State)
    requires Good(s) && Quiet(s) && s' == s.(w := s'.w) && s'.w.store == s.w.store
    ensures Good(s') && Quiet(s')
  {
    forall j | 0 <= j < |s'.heap| ensures EntryOk(s', j) && Settled(s', j) { assert EntryOk(s, j) && Settled(s, j); }
    forall k | 0 <= k < |s'.cleanups| ensures CleanupOk(s', s'.cleanups[k]) { assert CleanupOk(s, s.cleanups[k]); }
  }

  lemma IsEntryOk(s: State, i: nat)
    requires Good(s) && i < |s.heap|
    ensures EntryOk(s, i)
  {
  }

  lemma ReleasedQuiet(s: State, k: nat, s': State)
    requires Good(s) && Quiet(s) && k < |s.cleanups| && s.cleanups[k].Users? && !s.heap[s.cleanups[k].entry].blocked
    requires Released(s, k, s')
    ensures Quiet(s')
  {
    forall i | 0 <= i < |s'.heap| ensures Settled(s', i) { assert Settled(s, i); }
  }

  /** An unreleased user holds a current entry, which counts it. */
  lemma UserFacts(s: State, k: nat)
    requires Good(s) && k < |s.cleanups| && s.cleanups[k].Users?
    ensures var c := s.cleanups[k];
            && c.entry < |s.heap| && (c.linked ==> !c.released)
            && (!c.released ==> s.heap[c.entry].refs > 0 && Current(s, c.entry))
            && (!s.heap[c.entry].blocked ==> s.heap[c.entry].owner.op == Op.Remove && s.heap[c.entry].owner.key == s.heap[c.entry].key)
  {
    var c := s.cleanups[k];
    assert CleanupOk(s, c) && EntryOk(s, c.entry);
    if !c.released { CountAt(s.cleanups, k, c.entry); }
  }

  // ---- Elementary changes -------------------------------------------------

  function WithEntry(s: State, i: nat, e: Entry): State requires i < |s.heap| { s.(heap := s.heap[i := e]) }

  /** An entry may become blocked at any time, and an unused one pending or not. */
  lemma MarkGood(s: State, i: nat, blocked: bool, pending: bool)
    requires Good(s) && i < |s.heap| && (s.heap[i].blocked ==> blocked) && (pending ==> s.heap[i].refs == 0)
    ensures Good(WithEntry(s, i, s.heap[i].(blocked := blocked, pending := pending)))
  {
    var s' := WithEntry(s, i, s.heap[i].(blocked := blocked, pending := pending));
    forall j | 0 <= j < |s'.heap| ensures EntryOk(s', j) { assert EntryOk(s, j) && (j == i ==> EntryOk(s, i)); }
    forall k | 0 <= k < |s'.cleanups| ensures CleanupOk(s', s'.cleanups[k]) { assert CleanupOk(s, s.cleanups[k]); }
  }

  /** A new entry, current or not. */
  lemma CreateGood(s: State, e: Entry, current: bool)
    requires Good(s) && e.refs == 0 && !e.blocked && e.owner.op == Op.Remove && e.owner.key == e.key && e.key !in s.entries
    ensures Good(s.(heap := s.heap + [e], entries := if current then s.entries[e.key := |s.heap|] else s.entries))
  {
    var s' := s.(heap := s.heap + [e], entries := if current then s.entries[e.key := |s.heap|] else s.entries);
    forall j | 0 <= j < |s'.heap| ensures EntryOk(s', j) {
      if j < |s.heap| {
        assert EntryOk(s, j);
      } else {
        forall k | 0 <= k < |s.cleanups| ensures !Holds(s.cleanups[k], j) { assert CleanupOk(s, s.cleanups[k]); }
        CountNone(s.cleanups, j);
      }
    }
    forall k | 0 <= k < |s'.cleanups| ensures CleanupOk(s', s'.cleanups[k]) { assert CleanupOk(s, s.cleanups[k]); }
  }

  lemma {:induction false} CountNone(cs: seq<Cleanup>, entry: nat)
    requires forall k :: 0 <= k < |cs| ==> !Holds(cs[k], entry)
    ensures Count(cs, entry) == 0
  {
    if cs != [] { CountNone(cs[..|cs| - 1], entry); }
  }

  /** An unused entry stops being current. */
  lemma DropGood(s: State, key: Key)
    requires Good(s) && key in s.entries && s.heap[s.entries[key]].refs == 0
    requires s.heap[s.entries[key]].blocked ==> key !in s.w.store
    ensures Good(s.(entries := s.entries - {key}))
  {
    var s' := s.(entries := s.entries - {key});
    forall j | 0 <= j < |s'.heap| ensures EntryOk(s', j) { assert EntryOk(s, j); }
    forall k | 0 <= k < |s'.cleanups| ensures CleanupOk(s', s'.cleanups[k]) { assert CleanupOk(s, s.cleanups[k]); }
  }

  /** One more user. */
  lemma UseGood(s: State, i: nat, c: Cleanup)
    requires Good(s) && Current(s, i) && !s.heap[i].blocked && !s.heap[i].pending
    requires Holds(c, i) && Recorded(s, c)
    ensures Good(WithEntry(s, i, s.heap[i].(refs := s.heap[i].refs + 1)).(cleanups := s.cleanups + [c]))
  {
    var s' := WithEntry(s, i, s.heap[i].(refs := s.heap[i].refs + 1)).(cleanups := s.cleanups + [c]);
    forall j | 0 <= j < |s'.heap| ensures EntryOk(s', j) { assert EntryOk(s, j); CountAppend(s.cleanups, c, j); }
    forall k | 0 <= k < |s'.cleanups| ensures CleanupOk(s', s'.cleanups[k]) {
      if k < |s.cleanups| { assert CleanupOk(s, s.cleanups[k]) && EntryOk(s, i); }
    }
  }

  lemma GuardGood(s: State, c: Cleanup)
    requires Good(s) && c.FailedAdd? && Guarded(s, c)
    ensures Good(s.(cleanups := s.cleanups + [c]))
  {
    var s' := s.(cleanups := s.cleanups + [c]);
    forall j | 0 <= j < |s'.heap| ensures EntryOk(s', j) { assert EntryOk(s, j); CountAppend(s.cleanups, c, j); }
    forall k | 0 <= k < |s'.cleanups| ensures CleanupOk(s', s'.cleanups[k]) {
      if k < |s.cleanups| { assert CleanupOk(s, s.cleanups[k]); }
    }
  }

  /** The link of a user is removed. */
  lemma UnlinkGood(s: State, k: nat, links: map<Path, Link>)
    requires Good(s) && k < |s.cleanups| && s.cleanups[k].Users?
    ensures Good(s.(cleanups := s.cleanups[k := s.cleanups[k].(linked := false)], links := links))
  {
    var s' := s.(cleanups := s.cleanups[k := s.cleanups[k].(linked := false)], links := links);
    forall j | 0 <= j < |s'.heap| ensures EntryOk(s', j) {
      assert EntryOk(s, j);
      CountUpdate(s.cleanups, k, s.cleanups[k].(linked := false), j);
    }
    forall j | 0 <= j < |s'.cleanups| ensures CleanupOk(s', s'.cleanups[j]) { assert CleanupOk(s, s.cleanups[j]); }
  }

  /** No cleanup was handed out for this token. */
  ghost predicate UnseenToken(cs: seq<Cleanup>, token: Token) {
    forall k :: 0 <= k < |cs| ==> cs[k].FailedAdd? ==> cs[k].token != token
  }

  ghost predicate NoLinkedUser(s: State, key: Key) {
    forall k :: 0 <= k < |s.cleanups| && s.cleanups[k].Users? && s.cleanups[k].linked && s.cleanups[k].entry < |s.heap| ==>
      s.heap[s.cleanups[k].entry].key != key || s.heap[s.cleanups[k].entry].blocked
  }

  /** A native step at one endpoint: it keeps its record's owner, writes one under a new token, or erases one no link needs. */
  lemma NativeGood(s: State, key: Key, w': World)
    requires Good(s) && Frame(s.w, w', key)
    requires key in w'.store ==> (key in s.w.store && Same(w'.store[key], s.w.store[key]))
                                 || (UnseenToken(s.cleanups, w'.store[key].token) && NoLinkedUser(s, key))
    requires key !in w'.store ==> key !in s.w.store || NoLinkedUser(s, key)
    ensures Good(s.(w := w'))
  {
    var s' := s.(w := w');
    forall j | 0 <= j < |s'.heap| ensures EntryOk(s', j) { assert EntryOk(s, j); }
    forall k | 0 <= k < |s'.cleanups| ensures CleanupOk(s', s'.cleanups[k]) { NativeCleanup(s, key, w', k); }
  }

  lemma NativeCleanup(s: State, key: Key, w': World, k: nat)
    requires Good(s) && Frame(s.w, w', key) && k < |s.cleanups|
    requires key in w'.store ==> (key in s.w.store && Same(w'.store[key], s.w.store[key]))
                                 || (UnseenToken(s.cleanups, w'.store[key].token) && NoLinkedUser(s, key))
    requires key !in w'.store ==> key !in s.w.store || NoLinkedUser(s, key)
    ensures CleanupOk(s.(w := w'), s.cleanups[k])
  {
    var c := s.cleanups[k];
    assert CleanupOk(s, c);
    var at := if c.FailedAdd? then c.key else s.heap[c.entry].key;
    if at != key { OtherRecord(s.w, w', key, at); }
  }

  lemma GuardFacts(s: State, k: nat)
    requires Good(s) && k < |s.cleanups| && s.cleanups[k].FailedAdd?
    ensures Guarded(s, s.cleanups[k])
  {
    assert CleanupOk(s, s.cleanups[k]);
  }

  // ---- Orders of cleanups -------------------------------------------------

  /** Effective runs of distinct cleanups, one after another. */
  ghost predicate Cleans(ss: seq<State>, order: seq<nat>) {
    && |ss| == |order| + 1
    && (forall j :: 0 <= j < |ss| ==> Good(ss[j]))
    && (forall j, k :: 0 <= j < k < |order| ==> order[j] != order[k])
    && forall j :: 0 <= j < |order| ==> CleansOne(ss[j], order[j], ss[j + 1])
  }

  ghost predicate CleansOne(s: State, k: nat, s': State) {
    && k < |s.cleanups| && s.cleanups[k].Users? && s.cleanups[k].entry < |s.heap| && !s.heap[s.cleanups[k].entry].blocked
    && Released(s, k, s')
  }

  /** The users of a mapping are cleaned up in any order: before the last one nothing happens to it, and with
      the last it is gone, once. */
  lemma AnyOrder(ss: seq<State>, order: seq<nat>, i: nat, n: nat)
    requires Cleans(ss, order) && i < |ss[0].heap| && n < |ss|
    requires forall j :: 0 <= j < |order| ==> order[j] < |ss[0].cleanups| && Holds(ss[0].cleanups[order[j]], i)
    requires ss[0].heap[i].refs == |order| > 0
    ensures |ss[n].heap| == |ss[0].heap| && |ss[n].cleanups| == |ss[0].cleanups|
    ensures ss[n].heap[i] == ss[0].heap[i].(refs := |order| - n)
    ensures forall j :: n <= j < |order| ==> ss[n].cleanups[order[j]] == ss[0].cleanups[order[j]]
    ensures n < |order| ==> ss[n].w == ss[0].w && ss[n].entries == ss[0].entries
    ensures n == |order| ==> ss[0].heap[i].key !in ss[n].w.store && ss[n].entries == ss[0].entries - {ss[0].heap[i].key}
  {
    if n > 0 {
      AnyOrder(ss, order, i, n - 1);
      assert CleansOne(ss[n - 1], order[n - 1], ss[n]);
    }
  }

  /** A run of one cleanup, effective or not. */
  ghost predicate Attempt(s: State, k: nat, s': State)
    requires k < |s.cleanups| && s.cleanups[k].Users? && s.cleanups[k].entry < |s.heap|
  {
    s' == s || Released(s, k, s') || Retained(s, k, s')
  }

  /** Retrying a cleanup, however its runs end, gives back at most one reference, and once its link is
      removed touches no link again. */
  lemma {:induction false} RetriesCountOnce(ss: seq<State>, k: nat, i: nat, n: nat)
    requires n < |ss| && k < |ss[0].cleanups| && ss[0].cleanups[k].Users? && ss[0].cleanups[k].entry == i < |ss[0].heap|
    requires forall j :: 0 <= j < |ss| - 1 ==>
               k < |ss[j].cleanups| && ss[j].cleanups[k].Users? && ss[j].cleanups[k].entry < |ss[j].heap| && Attempt(ss[j], k, ss[j + 1])
    requires ss[0].cleanups[k].linked ==> !ss[0].cleanups[k].released
    ensures k < |ss[n].cleanups| && ss[n].cleanups[k].Users? && ss[n].cleanups[k].entry == i < |ss[n].heap|
    ensures ss[n].cleanups[k].linked ==> !ss[n].cleanups[k].released && ss[0].cleanups[k].linked
    ensures ss[0].cleanups[k].released ==> ss[n].cleanups[k].released
    ensures ss[n].heap[i].refs == ss[0].heap[i].refs - if ss[n].cleanups[k].released && !ss[0].cleanups[k].released then 1 else 0
    ensures !ss[0].cleanups[k].linked ==> ss[n].links == ss[0].links
    ensures ss[0].cleanups[k].released ==> ss[n].w == ss[0].w && ss[n].entries == ss[0].entries
  {
    if n > 0 {
      RetriesCountOnce(ss, k, i, n - 1);
      assert Attempt(ss[n - 1], k, ss[n]);
    }
  }

  // ---- Operations in between ----------------------------------------------

  /** What a mount of any remote, by the contract of Mount, and what passes between operations do to entry `i`. */
  ghost predicate OthersAct(s: State, i: nat, s': State) requires i < |s.heap| {
    var key := s.heap[i].key;
    && |s.heap| <= |s'.heap| && s'.heap[i].key == key && s.cleanups <= s'.cleanups
    && if s.heap[i].refs > 0
       then s'.heap[i].refs >= s.heap[i].refs && Current(s', i) && SameRecord(s.w, s'.w, key)
       else s'.heap[i].refs == 0 && (Current(s', i) ==> Current(s, i))
  }

  /** A change at one remote only: entries keep their keys and lose no reference, one in use stays current with its
      record, and only an entry that was current, or a new one, is current. */
  ghost predicate ActsAt(s: State, key: Key, s': State) {
    && |s.heap| <= |s'.heap| && s.cleanups <= s'.cleanups && Frame(s.w, s'.w, key) && s'.entries - {key} == s.entries - {key}
    && (forall i :: 0 <= i < |s.heap| ==> s'.heap[i].key == s.heap[i].key && s'.heap[i].refs >= s.heap[i].refs)
    && (forall i :: 0 <= i < |s.heap| && s.heap[i].refs == 0 ==> s'.heap[i].refs == 0)
    && (key in s'.entries && s'.entries[key] < |s.heap| ==> key in s.entries && s.entries[key] == s'.entries[key])
    && (key in s.entries && s.entries[key] < |s.heap| && s.heap[s.entries[key]].refs > 0 ==> key in s'.entries && s'.entries[key] == s.entries[key] && s'.w == s.w)
  }

  lemma ActsNot(s: State, key: Key)
    ensures ActsAt(s, key, s)
  {
  }

  lemma ActsTwice(s: State, s': State, s'': State, key: Key)
    requires ActsAt(s, key, s') && ActsAt(s', key, s'')
    ensures ActsAt(s, key, s'')
  {
    FrameTwice(s.w, s'.w, s''.w, key);
  }

  /** An act at one remote followed by what publishing a link does to its entry `i`. */
  lemma ActsThenUses(s: State, s': State, s'': State, key: Key, i: nat)
    requires ActsAt(s, key, s') && i < |s'.heap| && s'.heap[i].key == key && (i < |s.heap| ==> s.heap[i].refs > 0)
    requires key in s'.entries && s'.entries[key] == i
    requires |s''.heap| == |s'.heap| && s''.heap == s'.heap[i := s''.heap[i]] && s''.heap[i].key == key && s''.heap[i].refs >= s'.heap[i].refs
    requires s'.cleanups <= s''.cleanups && Frame(s'.w, s''.w, key)
    requires s''.entries == s'.entries || (s''.entries == s'.entries - {key} && s'.heap[i].refs == 0)
    requires s'.heap[i].refs > 0 ==> s''.w == s'.w
    ensures ActsAt(s, key, s'')
  {
    FrameTwice(s.w, s'.w, s''.w, key);
    assert s''.entries - {key} == s'.entries - {key};
  }

  lemma ActsAtOthers(s: State, key: Key, s': State, i: nat)
    requires Good(s) && i < |s.heap| && ActsAt(s, key, s')
    ensures OthersAct(s, i, s')
  {
    IsEntryOk(s, i);
    var at := s.heap[i].key;
    if at != key {
      OtherRecord(s.w, s'.w, key, at);
      assert at in s.entries <==> at in s.entries - {key};
      assert at in s'.entries <==> at in s'.entries - {key};
      if at in s.entries { assert (s.entries - {key})[at] == s.entries[at] && (s'.entries - {key})[at] == s'.entries[at]; }
    }
  }

  predicate SameRecord(w: World, w': World, key: Key) {
    (key in w.store <==> key in w'.store) && (key in w.store && key in w'.store ==> w.store[key] == w'.store[key])
  }

  datatype Turn = Effective(k: nat) | Failing(k: nat) | Other

  /** One operation of the manager: an effective cleanup, a failing one, or anything else. */
  ghost predicate Turns(s: State, t: Turn, i: nat, s': State) requires i < |s.heap| {
    match t
    case Effective(k) => CleansOne(s, k, s')
    case Failing(k) => k < |s.cleanups| && s.cleanups[k].Users? && s.cleanups[k].entry < |s.heap| && Retained(s, k, s')
    case Other => OthersAct(s, i, s')
  }

  /** While a mapping is in use it is current, and while it has two users or more its record does not change,
      whoever mounts or fails to clean up; it stops being current exactly when its last user's cleanup takes
      effect, and then its record is gone. */
  lemma WhileUsed(s: State, t: Turn, i: nat, s': State)
    requires Good(s) && i < |s.heap| && Turns(s, t, i, s') && s.heap[i].refs > 0
    ensures |s.heap| <= |s'.heap| && s'.heap[i].key == s.heap[i].key
    ensures s'.heap[i].refs > 0 ==> Current(s', i)
    ensures s.heap[i].refs >= 2 ==> SameRecord(s.w, s'.w, s.heap[i].key)
    ensures s'.heap[i].refs == 0 ==>
              s.heap[i].refs == 1 && t.Effective? && s.cleanups[t.k].entry == i && !s.cleanups[t.k].released
              && s.heap[i].key !in s'.w.store && !Current(s', i)
  {
    IsEntryOk(s, i);
    if !t.Other? {
      UserFacts(s, t.k);
      var c := s.cleanups[t.k];
      if !c.released && c.entry != i {
        assert s.heap[c.entry].key != s.heap[i].key;
        if s'.w != s.w { OtherRecord(s.w, s'.w, s.heap[c.entry].key, s.heap[i].key); }
      }
    }
  }

  /** A mapping that is gone stays gone: a later mount of the remote makes another one. */
  lemma OnceGone(s: State, t: Turn, i: nat, s': State)
    requires Good(s) && i < |s.heap| && Turns(s, t, i, s') && s.heap[i].refs == 0 && !Current(s, i)
    ensures |s.heap| <= |s'.heap| && s'.heap[i].key == s.heap[i].key && s'.heap[i].refs == 0 && !Current(s', i)
  {
    if !t.Other? { UserFacts(s, t.k); }
  }

  /** Over any run of cleanups, failing ones, mounts and whatever passes between: a mapping in use ends once, with
      its last user, and is never current again. */
  lemma {:induction false} EndsOnce(ss: seq<State>, ts: seq<Turn>, i: nat, n: nat) returns (m: nat)
    requires |ss| == |ts| + 1 && n < |ss| && i < |ss[0].heap| && ss[0].heap[i].refs > 0
    requires forall j :: 0 <= j < |ss| ==> Good(ss[j]) && i < |ss[j].heap|
    requires forall j :: 0 <= j < |ts| ==> Turns(ss[j], ts[j], i, ss[j + 1])
    ensures m <= n && forall j :: 0 <= j <= m ==> ss[j].heap[i].refs > 0 && (j > 0 ==> Current(ss[j], i))
    ensures forall j :: m < j <= n ==> ss[j].heap[i].refs == 0 && !Current(ss[j], i)
    ensures m < n ==> ss[m].heap[i].refs == 1 && ts[m].Effective? && ss[m].heap[i].key !in ss[m + 1].w.store
    ensures forall j :: 0 <= j < m && ss[j].heap[i].refs >= 2 ==> SameRecord(ss[j].w, ss[j + 1].w, ss[j].heap[i].key)
  {
    if n == 0 { return 0; }
    m := EndsOnce(ss, ts, i, n - 1);
    hide Good, Turns;
    if m == n - 1 {
      WhileUsed(ss[m], ts[m], i, ss[n]);
      if ss[n].heap[i].refs > 0 { m := n; }
    } else {
      OnceGone(ss[n - 1], ts[n - 1], i, ss[n]);
    }
  }
}
