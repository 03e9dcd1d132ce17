/** The share manager itself: its operations, in the order of the program, each adding only steps of
    the protocol to the history of the host. */
module ShareManagement {
  import opened Options
  import opened Writes
  import opened Paths
  import opened ShareModel
  import opened ShareProtocol
  import opened ShareInvariant
  import opened ShareTheorems
  import opened ShareRefinement

  /** Why a backend failed.  `code` is None when only "no effect" is known. */
  datatype BackendError = NoFailure | JournalFailure | NoEffect(code: Option<Code>) | Uncertain

  /** What one native call of a mount answers. */
  datatype Try = Works | Fails(code: Option<Code>)

  /** What fsopen to the two identity reads answer. */
  datatype Create = Made(mid: nat, dev: nat, ino: nat) | NotMade(code: Option<Code>)

  /** What the backend of another transport answers. */
  datatype OtherAnswer = Mounts(certain: bool) | MountsNot(err: BackendError)

  /** What the native calls of one operation answer, in the order they may be made. */
  datatype PrepareNative = PrepareNative(bootId: bool, load: bool, unreadable: set<ShareId>, recovered: Write)

  datatype MountNative = MountNative(prepare: PrepareNative, pending: Write, target: Try, discovery: Try, create: Create, attaching: Write,
                                     move: Try, verify: bool, other: OtherAnswer, capture: bool, mounted: Write, absent: Write)

  datatype Unmounting = Unmounted | BusyRefused | OtherRefused

  datatype UnmountNative = UnmountNative(prepare: PrepareNative, detaching: Write, read: bool, unmount: Unmounting, gone: Write)

  datatype PrepareError = Ready | WrongBoot | NoBootId | NoJournal

  /** The error classes that say the mount had no effect. */
  predicate EffectFree(code: Option<Code>) {
    code == None || code == Some(Conflict) || code == Some(NotImplemented) || code == Some(MissingPrerequisite) || code == Some(TransportUnavailable)
  }

  /** captureShareIntent: the target shows a mount, for virtiofs the recorded one. */
  predicate Captured(r: Record, node: Option<Node>) {
    && node.Some? && node.value.mid != node.value.parentMid
    && (r.transport.VirtioFS? ==> node.value.mid == r.mid && Verified(r, node.value))
  }

  predicate ValidShareId(id: ShareId) {
    && 0 < |id| <= 128
    && forall i :: 0 <= i < |id| ==> 'a' <= id[i] <= 'z' || 'A' <= id[i] <= 'Z' || '0' <= id[i] <= '9' || id[i] == '-' || id[i] == '_'
  }

  predicate ValidRequest(s: Request) {
    ValidShareId(s.id) && s.gen != 0 && s.transport != OtherTransport("") && s.source != "" && ValidPath(s.path)
  }

  /** The answer to a request that is refused before anything is touched. */
  function Refusal(entries: map<ShareId, Entry>, s: Request): Option<ShareResult> {
    if s.id in entries && entries[s.id].result.state == RecoveryRequired then Some(entries[s.id].result)
    else if s.id in entries && (s.gen < entries[s.id].result.gen || (s.gen == entries[s.id].result.gen && entries[s.id].result.state == Absent)) then
      Some(Plain(s.id, s.gen, StaleGeneration))
    else if s.id in entries && entries[s.id].result.state == Mounted then
      if s.gen == entries[s.id].result.gen && entries[s.id].intent.fingerprint == s then Some(entries[s.id].result)
      else Some(Plain(s.id, s.gen, Conflict))
    else if exists id :: id in entries && Claims(entries[id]) && Overlap(entries[id].result.path, s.path) then Some(Plain(s.id, s.gen, PathInUse))
    else None
  }

  // ---- What the native answers decide --------------------------------------

  /** What an operation finds once the manager is prepared. */
  datatype Start = Start(entries: map<ShareId, Entry>, kernel: Kernel, acts: seq<Action>)

  function PrepareAnswer(loaded: bool, boot: nat, expected: nat, n: PrepareNative): PrepareError {
    if !n.bootId then NoBootId
    else if expected != boot then WrongBoot
    else if loaded || (n.load && n.recovered == Written) then PrepareError.Ready
    else NoJournal
  }

  /** Loading the journal: every record is recovered from what its target shows, if nobody touches it meanwhile. */
  ghost predicate Rebuilt(disk: map<ShareId, Record>, k: Kernel, unreadable: set<ShareId>, acts: seq<Action>, from: nat, entries: map<ShareId, Entry>) {
    && entries.Keys == disk.Keys
    && forall a :: a in disk && Untouched(acts, from, disk[a].path) ==>
         entries[a] == RecoverEntry(LoadEntry(disk[a]), if a in unreadable then None else View(k, disk[a].path))
  }

  /** Nobody else acts at the target from action `from` on. */
  ghost predicate Untouched(acts: seq<Action>, from: nat, p: Path) {
    forall i :: from <= i < |acts| ==> acts[i] != Env(p)
  }

  lemma UntouchedPart(acts: seq<Action>, from: nat, part: seq<Action>, from': nat, p: Path)
    requires part <= acts && from <= from' && Untouched(acts, from, p)
    ensures Untouched(part, from', p)
  {
  }

  /** The target is as it was. */
  predicate SameAt(k: Kernel, k': Kernel, p: Path) {
    && Layers(k', p) == Layers(k, p) && (p in k'.base <==> p in k.base) && (p in k.base && p in k'.base ==> k'.base[p] == k.base[p])
  }

  ghost predicate CalmBetween(k: Kernel, from: nat, k': Kernel, acts: seq<Action>) {
    forall p :: Untouched(acts, from, p) ==> SameAt(k, k', p)
  }

  lemma Still(k: Kernel, from: nat, acts: seq<Action>)
    ensures CalmBetween(k, from, k, acts)
  {
  }

  lemma CalmLonger(k: Kernel, from: nat, k': Kernel, acts: seq<Action>, from': nat, acts': seq<Action>)
    requires CalmBetween(k, from, k', acts) && from' <= from && acts <= acts'
    ensures CalmBetween(k, from', k', acts')
  {
    forall p | Untouched(acts', from', p) ensures SameAt(k, k', p) {
      UntouchedPart(acts', from', acts, from, p);
    }
  }

  lemma RebuiltAll(disk: map<ShareId, Record>, k: Kernel, unreadable: set<ShareId>, acts: seq<Action>, from: nat,
                   unread: map<ShareId, Entry>, entries: map<ShareId, Entry>, part: seq<Action>, from': nat)
    requires unread == Loaded(disk).entries && entries.Keys == unread.Keys && part <= acts && from <= from'
    requires forall a :: a in entries && Untouched(part, from', unread[a].intent.path) ==>
               entries[a] == RecoverEntry(unread[a], if a in unreadable then None else View(k, unread[a].intent.path))
    ensures Rebuilt(disk, k, unreadable, acts, from, entries)
  {
    hide RecoverEntry, View, Untouched;
    forall a | a in disk && Untouched(acts, from, disk[a].path)
      ensures entries[a] == RecoverEntry(LoadEntry(disk[a]), if a in unreadable then None else View(k, disk[a].path))
    {
      UntouchedPart(acts, from, part, from', disk[a].path);
    }
  }

  lemma CalmOn(k0: Kernel, from: nat, k1: Kernel, acts1: seq<Action>, k2: Kernel, acts2: seq<Action>)
    requires from <= |acts1| && acts1 <= acts2
    requires CalmBetween(k0, from, k1, acts1) && CalmBetween(k1, |acts1|, k2, acts2)
    ensures CalmBetween(k0, from, k2, acts2)
  {
    forall p | Untouched(acts2, from, p) ensures SameAt(k0, k2, p) {
      UntouchedPart(acts2, from, acts1, from, p);
      UntouchedPart(acts2, from, acts2, |acts1|, p);
    }
  }

  lemma SameMounts(k: Kernel, k': Kernel, acts: seq<Action>, from: nat)
    requires k'.layers == k.layers && k'.base == k.base
    ensures CalmBetween(k, from, k', acts)
  {
  }

  lemma CalmView(k: Kernel, from: nat, k': Kernel, acts: seq<Action>, p: Path)
    requires CalmBetween(k, from, k', acts) && Untouched(acts, from, p)
    ensures SameAt(k, k', p) && View(k', p) == View(k, p)
  {
    SameView(k, k', p);
  }

  lemma AbsentStays(e: Entry, node: Option<Node>)
    requires e.intent.state == RAbsent
    ensures RecoverEntry(e, node) == e
  {
  }

  lemma PreparingUnread(e: Entry, node: Option<Node>)
    requires e.intent.transport.VirtioFS? && e.intent.state == RPending && e.intent.phase == Preparing
    ensures RecoverEntry(e, node) == RecoverEntry(e, None)
  {
  }

  lemma SameView(k: Kernel, k': Kernel, p: Path)
    requires SameAt(k, k', p)
    ensures View(k', p) == View(k, p)
  {
  }

  /** An existing directory that is no mount point. */
  predicate Openable(k: Kernel, p: Path) { p in k.base && Layers(k, p) == [] && k.base[p].ino != 0 }

  function Class(code: Option<Code>): Option<Code> { if EffectFree(code) then code else None }

  predicate Usable(c: Create, dir: Dir) { c.Made? && c.mid != 0 && c.mid != dir.mid }

  /** The mount that `Create` made for the record. */
  function OwnMount(id: ShareId, r: Record, c: Create): Mount requires c.Made? {
    Mount(r.uid, r.mid, c.dev, c.ino, true, r.source, r.ro, Some(Owner(id, r.gen)))
  }

  /** The first call that fails from the detached mount on. */
  function AttachError(dir: Dir, n: MountNative): BackendError {
    if n.create.NotMade? then NoEffect(Class(n.create.code))
    else if !Usable(n.create, dir) then NoEffect(Some(MissingPrerequisite))
    else if n.attaching != Written then JournalFailure
    else if n.move.Fails? then NoEffect(Class(n.move.code))
    else if !n.verify then JournalFailure
    else NoFailure
  }

  /** The first call that fails in the mount of a virtiofs share whose target nobody else touches. */
  function VirtioFSError(k: Kernel, s: Request, n: MountNative): BackendError {
    if n.target.Fails? then NoEffect(Class(n.target.code))
    else if !Openable(k, s.path) || !ValidShareId(s.source) || s.rest != "" then NoEffect(None)
    else if n.discovery.Fails? then NoEffect(Class(n.discovery.code))
    else AttachError(k.base[s.path], n)
  }

  /** The target shows one mount, the record's own. */
  predicate OwnMounted(k: Kernel, p: Path, id: ShareId, r: Record, c: Create) {
    && c.Made? && Layers(k, p) == [OwnMount(id, r, c)] && p in k.base && k.base[p] == r.target
    && r.uid != 0 && r.mid == c.mid && r.mid != 0 && r.mid != r.target.mid && r.state == RMounted && r.path == p
  }

  lemma TopRecoverable(k: Kernel, p: Path, id: ShareId, r: Record, c: Create)
    requires OwnMounted(k, p, id, r, c)
    ensures Recoverable(r, View(k, p))
  {
  }

  /** The mount is the record's, and the target is still the recorded, empty directory. */
  predicate Landable(k: Kernel, id: ShareId, r: Record, m: Mount, c: Create) {
    && Layers(k, r.path) == [] && r.path in k.base && k.base[r.path] == r.target && Usable(c, r.target)
    && r.uid != 0 && r.mid == c.mid && m == OwnMount(id, r, c)
  }

  lemma StillLandable(k: Kernel, k': Kernel, id: ShareId, r: Record, m: Mount, c: Create)
    requires Layers(k, r.path) == [] && r.path in k.base && k.base[r.path] == r.target && SameAt(k, k', r.path)
    requires Usable(c, r.target) && r.uid != 0 && r.mid == c.mid && m == OwnMount(id, r, c)
    ensures Landable(k', id, r, m, c)
  {
  }

  lemma SameOn(k: Kernel, k': Kernel, k'': Kernel, p: Path)
    requires SameAt(k, k', p)
    ensures SameAt(k', k'', p) ==> SameAt(k, k'', p)
  {
  }

  lemma MovedOnTop(k: Kernel, k2: Kernel, k': Kernel, id: ShareId, r: Record, m: Mount, c: Create)
    requires Landable(k, id, r, m, c) && SameAt(Push(k, r.path, m), k2, r.path) && SameAt(k2, k', r.path)
    ensures OwnMounted(k', r.path, id, r.(state := RMounted), c) && Recoverable(r.(state := RMounted), View(k', r.path))
  {
    TopRecoverable(k', r.path, id, r.(state := RMounted), c);
  }

  function OtherError(a: OtherAnswer): BackendError {
    match a
    case Mounts(certain) => if certain then NoFailure else Uncertain
    case MountsNot(NoEffect(code)) => NoEffect(Class(code))
    case MountsNot(JournalFailure) => JournalFailure
    case MountsNot(_) => Uncertain
  }

  /** How a mount answers for its pending result `e`: the error's code is given only once "absent" is durable, and
      "mounted" only once that is. */
  function FinalAnswer(e: ShareResult, err: BackendError, captured: bool, n: MountNative): ShareResult {
    match err
    case JournalFailure => e
    case NoEffect(code) => if n.absent == Written then Plain(e.id, e.gen, code.GetOr(MountFailed)) else e
    case Uncertain => Plain(e.id, e.gen, MountFailed)
    case NoFailure => if captured && n.mounted == Written then WithState(e, Mounted) else e
  }

  /** What the entry then says. */
  function FinalResult(e: ShareResult, err: BackendError, captured: bool, n: MountNative): ShareResult {
    match err
    case NoEffect(_) => if n.absent == Written then Plain(e.id, e.gen, NoError) else e
    case NoFailure => if captured && n.mounted == Written then WithState(e, Mounted) else e
    case _ => e
  }

  /** Every native call of the mount of a virtiofs share does what it should. */
  predicate AllWork(k: Kernel, s: Request, n: MountNative) {
    && n.pending == Written && n.target.Works? && Openable(k, s.path) && ValidShareId(s.source) && s.rest == "" && n.discovery.Works?
    && Usable(n.create, k.base[s.path]) && n.attaching == Written && n.move.Works? && n.verify && n.capture && n.mounted == Written
  }

  lemma TopCaptured(k: Kernel, p: Path, id: ShareId, r: Record, c: Create)
    requires OwnMounted(k, p, id, r, c)
    ensures Captured(r, View(k, p)) && View(k, p).value.mid == r.mid && r.(mid := r.mid, state := RMounted) == r
  {
  }

  lemma StillMounted(k: Kernel, k': Kernel, p: Path, id: ShareId, r: Record, c: Create)
    requires OwnMounted(k, p, id, r, c) && SameAt(k, k', p)
    ensures OwnMounted(k', p, id, r, c)
  {
  }

  lemma OtherCaptured(r: Record, node: Option<Node>)
    requires !r.transport.VirtioFS?
    ensures Captured(r, node) <==> node.Some? && node.value.mid != node.value.parentMid
  {
  }

  /** What an admitted mount answers and leaves.  A virtiofs share whose target nobody else touches (`quiet`) ends as
      its native calls decide; another transport as its backend and the final look at the target decide. */
  ghost predicate MountEnds(s: Request, boot: nat, k: Kernel, n: MountNative, quiet: bool,
                            e: Entry, k': Kernel, disk': map<ShareId, Record>, r: ShareResult) {
    var pending := PendingResult(NewRecord(s, boot));
    if n.pending != Written then r == pending && e == NewEntry(s, boot)
    else if s.transport.VirtioFS? then
      quiet ==>
        var err := VirtioFSError(k, s, n);
        && r == FinalAnswer(pending, err, n.capture, n) && e.result == FinalResult(pending, err, n.capture, n)
        && (err.NoFailure? ==>
              && OwnMounted(k', s.path, s.id, e.intent, n.create)
              && e.cleanup == Some(Own(e.intent)) && Recoverable(e.intent, View(k', s.path)))
        && (err.NoEffect? || n.attaching != Written ==> SameAt(k, k', s.path))
        && (r.ok ==> s.id in disk' && disk'[s.id] == e.intent)
        && (err.NoEffect? && n.absent == Written ==> s.id in disk' && disk'[s.id].state == RAbsent)
    else
      var err := OtherError(n.other);
      var c := n.capture && View(k', s.path).Some? && View(k', s.path).value.mid != View(k', s.path).value.parentMid;
      && r == FinalAnswer(pending, err, c, n) && e.result == FinalResult(pending, err, c, n)
      && e.cleanup == (if n.other.Mounts? then Some(Opaque) else None)
      && (r.ok ==> s.id in disk' && disk'[s.id] == e.intent && e.intent.state == RMounted)
      && (err.NoEffect? && n.absent == Written ==> s.id in disk' && disk'[s.id].state == RAbsent)
  }

  lemma VirtioFSEnds(s: Request, boot: nat, k: Kernel, n: MountNative, was: Record, e: Entry, k': Kernel, disk': map<ShareId, Record>, r: ShareResult)
    requires s.transport.VirtioFS? && n.pending == Written
    requires var err := VirtioFSError(k, s, n);
             var c := Captured(was, if n.capture then View(k', s.path) else None);
             && r == FinalAnswer(PendingResult(NewRecord(s, boot)), err, c, n) && e.result == FinalResult(PendingResult(NewRecord(s, boot)), err, c, n)
             && (err.NoFailure? ==> OwnMounted(k', s.path, s.id, was, n.create) && e.cleanup == Some(Own(was)))
             && (err.NoEffect? || n.attaching != Written ==> SameAt(k, k', s.path))
             && (err.NoFailure? && c ==> e.intent == was.(mid := View(k', s.path).value.mid, state := RMounted))
             && (err.NoFailure? && !c ==> e.intent == was)
             && (err.NoEffect? && n.absent == Written ==> s.id in disk' && disk'[s.id].state == RAbsent)
    requires r.ok ==> s.id in disk' && disk'[s.id] == e.intent
    ensures MountEnds(s, boot, k, n, true, e, k', disk', r)
  {
    hide VirtioFSError, NewRecord, SameAt;
    if VirtioFSError(k, s, n).NoFailure? {
      TopCaptured(k', s.path, s.id, was, n.create);
      TopRecoverable(k', s.path, s.id, was, n.create);
    }
  }

  lemma PendingEnds(s: Request, boot: nat, k: Kernel, n: MountNative, quiet: bool, e: Entry, k': Kernel, disk': map<ShareId, Record>)
    requires n.pending != Written && e == NewEntry(s, boot)
    ensures MountEnds(s, boot, k, n, quiet, e, k', disk', e.result)
  {
  }

  lemma EndsQuiet(s: Request, boot: nat, k: Kernel, n: MountNative, quiet: bool, quiet': bool, e: Entry, k': Kernel, disk': map<ShareId, Record>, r: ShareResult)
    requires MountEnds(s, boot, k, n, quiet, e, k', disk', r) && (quiet' ==> quiet)
    ensures MountEnds(s, boot, k, n, quiet', e, k', disk', r)
  {
  }

  /** The answer is OK, and mounted, exactly when every native call does what it should. */
  lemma MountSucceeds(s: Request, boot: nat, k: Kernel, n: MountNative, e: Entry, k': Kernel, disk': map<ShareId, Record>, r: ShareResult)
    requires s.transport.VirtioFS? && MountEnds(s, boot, k, n, true, e, k', disk', r)
    ensures r.ok <==> AllWork(k, s, n)
    ensures r.ok ==> r.state == Mounted && r == e.result && disk'[s.id].state == RMounted && Recoverable(disk'[s.id], View(k', s.path))
    ensures r.ok ==> forall u: UnmountNative :: u.read && u.unmount == Unmounted ==> Removes(e, k', u)
  {
  }

  /** The entry's cleanup finds its mount, where it knows it, and the unmount is made. */
  predicate Removes(e: Entry, k: Kernel, n: UnmountNative) {
    && e.cleanup.Some? && n.unmount == Unmounted
    && (e.cleanup.value.Own? ==> n.read && Recoverable(e.cleanup.value.r, View(k, e.cleanup.value.r.path)))
  }

  /** It finds its mount, and the mount is in use. */
  predicate FindsBusy(e: Entry, k: Kernel, n: UnmountNative) {
    && e.cleanup.Some? && n.unmount == BusyRefused
    && (e.cleanup.value.Own? ==> n.read && Recoverable(e.cleanup.value.r, View(k, e.cleanup.value.r.path)))
  }

  /** What unmounting an entry without a cleanup answers: the retry of its last save, or nothing. */
  predicate WithoutCleanup(e: Entry, n: UnmountNative, e': Entry, disk': map<ShareId, Record>, r: ShareResult) {
    && r == e'.result
    && e' == (if e.intent.state == RAbsent && n.gone == Written then e.(result := WithState(e.result, Absent)) else e)
    && (e.intent.state == RAbsent && n.gone == Written ==> e.result.id in disk' && disk'[e.result.id].state == RAbsent)
  }

  /** What unmounting an entry with a cleanup answers and leaves, when nobody else touches its target: without the
      "detaching" record nothing happens; with it the mount goes and the entry is absent once that is durable, or
      everything stays and the answer says whether the mount was in use. */
  ghost predicate UnmountEnds(e: Entry, k: Kernel, n: UnmountNative, e': Entry, k': Kernel, disk': map<ShareId, Record>, r: ShareResult) {
    var p := e.intent.path;
    if n.detaching != Written then
      r == WithState(e.result, RecoveryRequired) && e'.result == e.result && e'.cleanup == e.cleanup && SameAt(k, k', p)
    else if Removes(e, k, n) then
      && e'.cleanup == None && e'.intent.state == RAbsent && r == e'.result
      && (if e.cleanup.value.Own? then Layers(k, p) != [] && Layers(k', p) == Layers(k, p)[..|Layers(k, p)| - 1] else SameAt(k, k', p))
      && (if n.gone == Written then r.ok && r.state == Absent && r.code == NoError && e.result.id in disk' && disk'[e.result.id].state == RAbsent
          else !r.ok && r.state == RecoveryRequired)
    else
      && e'.result == e.result && e'.cleanup == e.cleanup && SameAt(k, k', p)
      && r == e.result.(ok := false, code := if FindsBusy(e, k, n) then Busy else if e.result.state == RecoveryRequired then RecoveryRequiredCode else UnmountFailed)
  }

  /** The entry of that generation, or why there is none. */
  function Lookup(entries: map<ShareId, Entry>, id: ShareId, gen: nat): ShareResult {
    if !ValidShareId(id) || gen == 0 then Plain(id, gen, InvalidRequest)
    else if id !in entries then Plain(id, gen, NotFound)
    else if entries[id].result.gen != gen then Plain(id, gen, StaleGeneration)
    else entries[id].result
  }

  /** There is something to unmount. */
  predicate ToUnmount(entries: map<ShareId, Entry>, id: ShareId, gen: nat) {
    ValidShareId(id) && gen != 0 && id in entries && entries[id].result.gen == gen && entries[id].result.state != Absent
  }

  lemma NotDetached(e: Entry, k: Kernel, n: UnmountNative, e': Entry, disk': map<ShareId, Record>)
    requires n.detaching != Written && e' == e.(intent := TornDown(e.intent))
    ensures UnmountEnds(e, k, n, e', k, disk', WithState(e.result, RecoveryRequired))
  {
  }

  /** Whether the mount was in use is still visible at the end: nothing was removed. */
  lemma OneAnswer(e: Entry, e2: Entry, n: UnmountNative, k: Kernel, k': Kernel)
    requires e2.cleanup == e.cleanup && (!Removes(e2, k, n) ==> k' == k)
    ensures FindsBusy(e2, k, n) <==> FindsBusy(e, k', n)
  {
    hide Recoverable, View;
  }

  lemma UnmountEndsFrom(e: Entry, k: Kernel, e2: Entry, k2: Kernel, n: UnmountNative, e': Entry, k': Kernel, disk': map<ShareId, Record>, r: ShareResult)
    requires UnmountEnds(e2, k2, n, e', k', disk', r) && n.detaching == Written
    requires e2 == e.(intent := TornDown(e.intent)) && SameAt(k, k2, e.intent.path) && View(k2, e.intent.path) == View(k, e.intent.path)
    requires e.cleanup.Some? && e.cleanup.value.Own? ==> e.cleanup.value.r.path == e.intent.path
    ensures UnmountEnds(e, k, n, e', k', disk', r)
  {
    hide Recoverable, View;
  }

  /** The host: what survives the agent.  Its methods are the native calls; each one is one step. */
  class Host {
    var boot: nat
    var disk: map<ShareId, Record>
    var kernel: Kernel
    ghost var invoked: seq<Invocation>
    ghost var touched: set<Path>
    ghost var run: seq<Sys>
    ghost var acts: seq<Action>

    ghost predicate Traced()
      reads `run, `acts
    {
      && IsRun(run, acts) && Init(run[0])
    }

    /** A journal write: on failure the old or the new content is there. */
    method Save(records: map<ShareId, Record>, how: Write) returns (ok: bool)
      modifies `disk
      ensures ok <==> how == Written
      ensures disk == if how == KeptOld then old(disk) else records
    {
      ok := how == Written;
      if how != KeptOld {
        disk := records;
      }
    }

    method ReadBootId(works: bool) returns (id: Option<nat>)
      ensures id == if works then Some(boot) else None
    {
      id := if works then Some(boot) else None;
    }

    /** Reading the identity at a target, which may fail. */
    method ReadNode(p: Path, works: bool) returns (node: Option<Node>)
      ensures node == if works then View(kernel, p) else None
    {
      node := if works then View(kernel, p) else None;
    }

    /** Opening a target: an existing, empty directory that is no mount point. */
    method OpenTarget(p: Path, works: bool) returns (dir: Option<Dir>)
      ensures dir.Some? <==> works && Openable(kernel, p)
      ensures dir.Some? ==> dir.value == kernel.base[p]
    {
      dir := if works && Openable(kernel, p) then Some(kernel.base[p]) else None;
    }

    /** Everything from fsopen to the two identity reads: a detached mount, or no effect. */
    method CreateDetached(source: string, ro: bool, oldMid: nat, owner: Owner, c: Create) returns (m: Option<Mount>)
      modifies `kernel
      ensures m.Some? <==> c.Made? && c.mid != 0 && c.mid != oldMid
      ensures m.None? ==> kernel == old(kernel)
      ensures m.Some? ==> kernel == old(kernel).(nextUid := old(kernel).nextUid + 1)
      ensures m.Some? ==> m.value == Mount(old(kernel).nextUid, c.mid, c.dev, c.ino, true, source, ro, Some(owner))
    {
      if c.Made? && c.mid != 0 && c.mid != oldMid {
        m := Some(Mount(kernel.nextUid, c.mid, c.dev, c.ino, true, source, ro, Some(owner)));
        kernel := kernel.(nextUid := kernel.nextUid + 1);
      } else {
        m := None;
      }
    }

    method MoveMount(p: Path, dir: Dir, m: Mount, works: bool) returns (ok: bool)
      modifies `kernel
      ensures ok <==> works && p in old(kernel).base && old(kernel).base[p] == dir
      ensures kernel == if ok then Push(old(kernel), p, m) else old(kernel)
    {
      ok := works && p in kernel.base && kernel.base[p] == dir;
      if ok {
        kernel := Push(kernel, p, m);
      }
    }

    /** The check of the cleanup closure and the unmount, as one step. */
    method CheckedUnmount(r: Record, read: bool, unmount: Unmounting) returns (ok: bool, busy: bool)
      requires KernelOk(kernel)
      modifies `kernel
      ensures ok <==> read && Recoverable(r, View(old(kernel), r.path)) && unmount == Unmounted
      ensures busy <==> read && Recoverable(r, View(old(kernel), r.path)) && unmount == BusyRefused
      ensures ok ==> Layers(old(kernel), r.path) != []
      ensures kernel == if ok then Pop(old(kernel), r.path) else old(kernel)
    {
      var found := read && Recoverable(r, View(kernel, r.path));
      ok, busy := found && unmount == Unmounted, found && unmount == BusyRefused;
      if ok {
        kernel := Pop(kernel, r.path);
      }
    }
  }

  class ShareManager {
    const host: Host
    var entries: map<ShareId, Entry>
    var loaded: bool
    ghost var present: bool
    ghost var todo: set<ShareId>
    ghost var hand: Hand

    ghost function Memory(): Mem
      reads this
    {
      Mem(entries, loaded, todo, hand)
    }

    ghost function Now(): Sys
      reads this, host
    {
      Sys(host.boot, host.disk, host.kernel, if present then Some(Memory()) else None, host.invoked, host.touched)
    }

    /** The history of the host is a run of the protocol that ends in the present state. */
    ghost predicate Valid()
      reads this, host
    {
      && host.run != [] && host.Traced() && host.run[|host.run| - 1] == Now()
      && (loaded ==> present)
    }

    /** The history only grows. */
    twostate predicate Grown()
      reads host
    {
      old(host.run) <= host.run && old(host.acts) <= host.acts
    }

    /** Targets at which nobody else acted are as they were. */
    twostate predicate Calm()
      reads host
    {
      CalmBetween(old(host.kernel), |old(host.acts)|, host.kernel, host.acts)
    }

    lemma Invariant()
      requires Valid()
      ensures Inv(Now())
    {
      hide Init, Next, Inv;
      InitInv(host.run[0]);
      RunInv(host.run, host.acts, |host.run| - 1);
    }

    /** Adds one step to the history. */
    ghost method Note(a: Action)
      requires host.run != [] && host.Traced() && Next(host.run[|host.run| - 1], a, Now()) && (loaded ==> present)
      modifies host`run, host`acts
      ensures Valid() && host.run == old(host.run) + [Now()] && host.acts == old(host.acts) + [a]
    {
      hide Init, Next;
      host.run := host.run + [Now()];
      host.acts := host.acts + [a];
    }

    /** A new agent process on a host whose previous agent, if any, is dead. */
    constructor (h: Host)
      requires h.Traced()
      requires var s := h.run[|h.run| - 1];
               s.boot == h.boot && s.disk == h.disk && s.kernel == h.kernel && s.invoked == h.invoked && s.touched == h.touched
      modifies h`run, h`acts
      ensures host == h && Valid() && !loaded && hand == Idle && h.acts == old(h.acts) + [Crash]
    {
      host := h;
      entries, loaded, present, todo, hand := map[], false, false, {}, Idle;
      new;
      Note(Crash);
    }

    /** Other software acts: any number of changes at any targets. */
    method Interfere()
      requires Valid()
      modifies host`kernel, host`touched, host`run, host`acts
      ensures Valid() && Grown() && Calm() && old(host.touched) <= host.touched
    {
    }

    // ---- Start and recovery -----------------------------------------------

    /** recoverShareBatch for one entry. */
    method RecoverRecord(id: ShareId, readable: bool)
      requires Valid() && present && !loaded && hand == Idle && id in todo && id in entries && entries[id].intent.state != RAbsent
      modifies this`entries, this`todo, host`kernel, host`touched, host`run, host`acts
      ensures Valid() && Grown() && Calm()
      ensures todo == old(todo) - {id}
      ensures entries == old(entries)[id := RecoverEntry(old(entries)[id], if readable then View(host.kernel, old(entries)[id].intent.path) else None)]
      ensures host.acts != [] && host.acts[|host.acts| - 1].RecoverOne? && host.acts[|host.acts| - 1].id == id
    {
      hide Init, Host.Traced, View, RecoverEntry, EnvStep, Recoverable, RebootStep, LoadStep, SaveStep, BeginStep, InvokeStep, OpenStep, CreateStep, AttachStep, AdoptStep,
           OtherReturnsStep, CaptureStep, AbortStep, GiveUpStep, LeaveStep, DetachStep, RetryStep, Untouched, SameAt, CalmBetween;
      Interfere();
      ghost var acts := host.acts;
      var e := entries[id];
      var r := e.intent;
      var node: Option<Node> := None;
      if !(r.transport.VirtioFS? && r.state == RPending && r.phase == Preparing) {
        node := host.ReadNode(r.path, readable);
      } else {
        PreparingUnread(e, if readable then View(host.kernel, r.path) else None);
      }
      e := Reconcile(e, node);
      entries := entries[id := e];
      todo := todo - {id};
      Note(RecoverOne(id, node));
      CalmLonger(old(host.kernel), |old(host.acts)|, host.kernel, acts, |old(host.acts)|, host.acts);
    }

    method LoadJournal()
      requires Valid() && hand == Idle && !loaded
      modifies this, host`run, host`acts
      ensures Valid() && hand == Idle && !loaded && present && Grown()
      ensures entries == Loaded(host.disk).entries && todo == Loaded(host.disk).todo
      ensures host.acts == old(host.acts) + [Load]
    {
      hide Init, Host.Traced, Inv, EnvStep, SaveStep, RebootStep, RecoverOneStep, BeginStep, InvokeStep, OpenStep, CreateStep, AttachStep, AdoptStep,
           OtherReturnsStep, CaptureStep, AbortStep, GiveUpStep, LeaveStep, DetachStep, RetryStep;
      entries := map a | a in host.disk :: LoadEntry(host.disk[a]);
      present, todo := true, Loaded(host.disk).todo;
      assert entries == Loaded(host.disk).entries;
      Note(Load);
    }

    /** An entry was recovered from what its target showed, if nobody touched it. */
    twostate predicate Recovered(a: ShareId, unreadable: set<ShareId>)
      requires a in entries && old(a in entries)
      reads this, host
    {
      Untouched(host.acts, |old(host.acts)|, old(entries)[a].intent.path) ==>
        entries[a] == RecoverEntry(old(entries)[a], if a in unreadable then None else View(old(host.kernel), old(entries)[a].intent.path))
    }

    /** recoverShareBatch. */
    method RecoverBatch(unreadable: set<ShareId>)
      requires Valid() && hand == Idle && !loaded && present
      requires todo == (set a | a in entries && entries[a].intent.state != RAbsent)
      modifies this`entries, this`todo, host`kernel, host`touched, host`run, host`acts
      ensures Valid() && Grown() && Calm() && todo == {}
      ensures entries.Keys == old(entries.Keys)
      ensures forall a :: a in entries && Untouched(host.acts, |old(host.acts)|, old(entries)[a].intent.path) ==>
                entries[a] == RecoverEntry(old(entries)[a], if a in unreadable then None else View(old(host.kernel), old(entries)[a].intent.path))
    {
      hide Init, Host.Traced, Inv, Next, Valid, Now, Memory, View, RecoverEntry, SameAt, Untouched, CalmBetween;
      var rest := set a | a in entries && entries[a].intent.state != RAbsent;
      forall a | a in entries && a !in rest ensures Recovered(a, unreadable) {
        AbsentStays(entries[a], if a in unreadable then None else View(host.kernel, entries[a].intent.path));
      }
      Still(host.kernel, |host.acts|, host.acts);
      while rest != {}
        invariant Valid() && present && !loaded && hand == Idle && Grown() && Calm()
        invariant rest == todo && rest <= entries.Keys && entries.Keys == old(entries.Keys)
        invariant forall a :: a in rest ==> entries[a] == old(entries)[a] && entries[a].intent.state != RAbsent
        invariant forall a :: a in entries && a !in rest ==> Recovered(a, unreadable)
        decreases rest
      {
        var a :| a in rest;
        ghost var acts, kernel, before := host.acts, host.kernel, entries;
        RecoverRecord(a, a !in unreadable);
        CalmOn(old(host.kernel), |old(host.acts)|, kernel, acts, host.kernel, host.acts);
        forall b | b in entries && (b == a || b !in rest) ensures Recovered(b, unreadable) {
          if Untouched(host.acts, |old(host.acts)|, old(entries)[b].intent.path) {
            UntouchedPart(host.acts, |old(host.acts)|, acts, |old(host.acts)|, old(entries)[b].intent.path);
            CalmView(old(host.kernel), |old(host.acts)|, host.kernel, host.acts, old(entries)[b].intent.path);
          }
        }
        rest := rest - {a};
      }
    }

    method FinishLoad(how: Write) returns (ok: bool)
      requires Valid() && hand == Idle && !loaded && present && todo == {}
      modifies this`loaded, host`disk, host`run, host`acts
      ensures Valid() && loaded == ok && Grown()
      ensures ok == (how == Written) && (ok ==> host.disk == Intents(entries))
      ensures host.acts == old(host.acts) + [Save(ok)]
    {
      hide Init, Host.Traced, Inv, EnvStep, LoadStep, RebootStep, RecoverOneStep, BeginStep, InvokeStep, OpenStep, CreateStep, AttachStep, AdoptStep,
           OtherReturnsStep, CaptureStep, AbortStep, GiveUpStep, LeaveStep, DetachStep, RetryStep;
      ok := host.Save(Intents(entries), how);
      loaded := ok;
      Note(Save(ok));
    }

    /** Refreshes the boot identity; loads and recovers the journal before the first operation. */
    method Prepare(expected: nat, n: PrepareNative) returns (err: PrepareError)
      requires Valid() && hand == Idle
      modifies this, host`disk, host`kernel, host`touched, host`run, host`acts
      ensures Valid() && hand == Idle && Grown()
      ensures err == PrepareAnswer(old(loaded), host.boot, expected, n)
      ensures loaded <==> old(loaded) || err.Ready?
      ensures old(loaded) ==> entries == old(entries) && host.disk == old(host.disk) && host.run == old(host.run)
      ensures old(loaded) ==> host.kernel == old(host.kernel) && host.acts == old(host.acts)
      ensures !old(loaded) && err.Ready? ==>
                && Rebuilt(old(host.disk), old(host.kernel), n.unreadable, host.acts, |old(host.acts)|, entries)
                && host.disk == Intents(entries) && Calm()
    {
      hide Host.Traced, Inv, Next, Init, Valid, Now, View, RecoverEntry, SameAt, Untouched, CalmBetween;
      var id := host.ReadBootId(n.bootId);
      if id.None? {
        return NoBootId;
      }
      if expected != id.value {
        return WrongBoot;
      }
      if loaded {
        return PrepareError.Ready;
      }
      if !n.load {
        return NoJournal;
      }
      LoadJournal();
      ghost var started, unread, kernel := |host.acts|, entries, host.kernel;
      RecoverBatch(n.unreadable);
      ghost var acts := host.acts;
      var ok := FinishLoad(n.recovered);
      RebuiltAll(old(host.disk), kernel, n.unreadable, host.acts, |old(host.acts)|, unread, entries, acts, started);
      CalmLonger(kernel, started, host.kernel, acts, |old(host.acts)|, host.acts);
      if !ok {
        return NoJournal;
      }
      return PrepareError.Ready;
    }

    // ---- Mount ------------------------------------------------------------

    /** The loop of `mount` over all entries. */
    method PathClaimed(path: Path) returns (used: bool)
      ensures used <==> exists id :: id in entries && Claims(entries[id]) && Overlap(entries[id].result.path, path)
    {
      var rest := entries.Keys;
      while rest != {}
        invariant rest <= entries.Keys
        invariant forall id :: id in entries && id !in rest ==> !(Claims(entries[id]) && Overlap(entries[id].result.path, path))
        decreases rest
      {
        var id :| id in rest;
        if Claims(entries[id]) && Overlap(entries[id].result.path, path) {
          return true;
        }
        rest := rest - {id};
      }
      return false;
    }

    /** The entry of the running operation changes; every other entry stays. */
    twostate predicate OnlyEntry(id: ShareId)
      reads this
    {
      && id in entries && old(id in entries)
      && entries.Keys == old(entries.Keys)
      && (forall a :: a in entries && a != id ==> entries[a] == old(entries[a]))
      && entries[id].result == old(entries[id].result)
      && entries[id].intent.transport == old(entries[id].intent.transport) && entries[id].intent.path == old(entries[id].intent.path)
      && entries[id].intent.gen == old(entries[id].intent.gen) && entries[id].intent.id == old(entries[id].intent.id)
    }

    /** mountTarget and the identity of the target directory. */
    method OpenShareTarget(id: ShareId, t: Try) returns (dir: Option<Dir>)
      requires Valid() && loaded && hand == Invoked(id) && id in entries && entries[id].intent.transport.VirtioFS?
      modifies this`hand, host`kernel, host`touched, host`run, host`acts
      ensures Valid() && Grown() && Calm()
      ensures dir.Some? <==> t.Works? && Openable(host.kernel, entries[id].intent.path)
      ensures dir.Some? ==> dir.value == host.kernel.base[entries[id].intent.path]
      ensures hand == if dir.Some? then Opened(id, dir.value) else Invoked(id)
    {
      hide Init, Host.Traced, Inv, EnvStep, RebootStep, LoadStep, RecoverOneStep, SaveStep, BeginStep, InvokeStep, CreateStep, AttachStep, AdoptStep,
           OtherReturnsStep, CaptureStep, AbortStep, GiveUpStep, LeaveStep, DetachStep, RetryStep, SameAt, Untouched, CalmBetween;
      Interfere();
      var p := entries[id].intent.path;
      ghost var acts := host.acts;
      dir := host.OpenTarget(p, t.Works?);
      if dir.Some? {
        hand := Opened(id, dir.value);
        host.touched := host.touched - {p};
        Note(Open(id));
      }
      CalmLonger(old(host.kernel), |old(host.acts)|, host.kernel, acts, |old(host.acts)|, host.acts);
    }

    /** fsopen to fsmount: a detached mount, whose identity enters the record in memory. */
    method CreateMount(id: ShareId, dir: Dir, c: Create) returns (m: Option<Mount>)
      requires Valid() && loaded && hand == Opened(id, dir) && id in entries && entries[id].intent.transport.VirtioFS?
      modifies this`entries, this`hand, host`kernel, host`touched, host`run, host`acts
      ensures Valid() && Grown() && Calm()
      ensures m.Some? <==> Usable(c, dir)
      ensures m.None? ==> entries == old(entries)
      ensures m.Some? ==>
                var r := old(entries)[id].intent.(mid := c.mid, uid := m.value.uid, target := dir, phase := Attaching);
                0 < r.uid && m.value == OwnMount(id, r, c) && entries == old(entries)[id := old(entries)[id].(intent := r)]
      ensures hand == if m.Some? then Holding(id, m.value) else Opened(id, dir)
    {
      hide Init, Host.Traced, Inv, EnvStep, RebootStep, LoadStep, RecoverOneStep, SaveStep, BeginStep, InvokeStep, OpenStep, AttachStep, AdoptStep,
           OtherReturnsStep, CaptureStep, AbortStep, GiveUpStep, LeaveStep, DetachStep, RetryStep, Untouched, CalmBetween, SameAt;
      Interfere();
      assert 0 < host.kernel.nextUid by { NowKernel(); }
      EntryNamed(id);
      ghost var acts, kernel := host.acts, host.kernel;
      var r := entries[id].intent;
      m := host.CreateDetached(r.source, r.ro, dir.mid, Owner(id, r.gen), c);
      if m.Some? {
        entries := entries[id := entries[id].(intent := r.(mid := m.value.mid, uid := m.value.uid, target := dir, phase := Attaching))];
        hand := Holding(id, m.value);
        Note(Create(id, m.value));
      }
      SameMounts(kernel, host.kernel, host.acts, |acts|);
      CalmOn(old(host.kernel), |old(host.acts)|, kernel, acts, host.kernel, host.acts);
    }

    /** The record with the identity is saved before anything is attached. */
    method PersistIdentity(id: ShareId, m: Mount, how: Write) returns (ok: bool)
      requires Valid() && loaded && hand == Holding(id, m)
      modifies this`hand, host`disk, host`run, host`acts
      ensures Valid() && Grown() && host.acts == old(host.acts) + [Save(ok)]
      ensures (ok <==> how == Written) && (ok ==> host.disk == Intents(entries))
      ensures hand == if ok then Armed(id, m) else Idle
    {
      hide Init, Host.Traced, Inv, EnvStep, RebootStep, LoadStep, RecoverOneStep, BeginStep, InvokeStep, OpenStep, CreateStep, AttachStep, AdoptStep,
           OtherReturnsStep, CaptureStep, AbortStep, GiveUpStep, LeaveStep, DetachStep, RetryStep;
      ok := host.Save(Intents(entries), how);
      hand := if ok then Armed(id, m) else Idle;
      Note(Save(ok));
    }

    method MoveMount(id: ShareId, m: Mount, t: Try) returns (ok: bool)
      requires Valid() && loaded && hand == Armed(id, m) && id in entries && entries[id].intent.transport.VirtioFS?
      modifies this`entries, this`hand, host`kernel, host`touched, host`run, host`acts
      ensures Valid() && Grown()
      ensures entries == if ok then old(entries)[id := old(entries)[id].(intent := old(entries)[id].intent.(state := RMounted))] else old(entries)
      ensures hand == if ok then Landed(id) else Armed(id, m)
      ensures var p := old(entries)[id].intent.path;
              Untouched(host.acts, |old(host.acts)|, p) ==>
                && (ok <==> t.Works? && p in old(host.kernel).base && old(host.kernel).base[p] == old(entries)[id].intent.target)
                && SameAt(if ok then Push(old(host.kernel), p, m) else old(host.kernel), host.kernel, p)
    {
      hide Init, Host.Traced, Inv, EnvStep, RebootStep, LoadStep, RecoverOneStep, SaveStep, BeginStep, InvokeStep, OpenStep, CreateStep, AdoptStep,
           OtherReturnsStep, CaptureStep, AbortStep, GiveUpStep, LeaveStep, DetachStep, RetryStep, Untouched, CalmBetween;
      Interfere();
      ghost var acts, kernel := host.acts, host.kernel;
      var r := entries[id].intent;
      ok := host.MoveMount(r.path, r.target, m, t.Works?);
      if ok {
        entries := entries[id := entries[id].(intent := r.(state := RMounted))];
        hand := Landed(id);
        Note(Attach(id));
      }
      if Untouched(host.acts, |old(host.acts)|, r.path) {
        UntouchedPart(host.acts, |old(host.acts)|, acts, |old(host.acts)|, r.path);
        CalmView(old(host.kernel), |old(host.acts)|, kernel, acts, r.path);
      }
    }

    /** recoverShareIntent right after the move: what is at the target must be the recorded mount. */
    method VerifyMoved(id: ShareId, read: bool) returns (cleanup: Option<Cleanup>)
      requires Valid() && loaded && hand == Landed(id) && id in entries && entries[id].intent.transport.VirtioFS?
      modifies this`hand, host`kernel, host`touched, host`run, host`acts
      ensures Valid() && Grown() && Calm()
      ensures cleanup == if read && Recoverable(entries[id].intent, View(host.kernel, entries[id].intent.path)) then Some(Own(entries[id].intent)) else None
      ensures hand == if cleanup.Some? then Landed(id) else Idle
    {
      hide Init, Host.Traced, Inv, EnvStep, RebootStep, LoadStep, RecoverOneStep, SaveStep, BeginStep, InvokeStep, OpenStep, CreateStep, AttachStep,
           AdoptStep, OtherReturnsStep, CaptureStep, AbortStep, LeaveStep, DetachStep, RetryStep, Untouched, CalmBetween, View, SameAt, Verified;
      Interfere();
      ghost var acts := host.acts;
      var r := entries[id].intent;
      var node := host.ReadNode(r.path, read);
      if Recoverable(r, node) {
        cleanup := Some(Own(r));
      } else {
        cleanup := None;
        hand := Idle;
        Note(GiveUp);
      }
      CalmLonger(old(host.kernel), |old(host.acts)|, host.kernel, acts, |old(host.acts)|, host.acts);
    }

    /** mountManagedShareIntent for a virtiofs share. */
    method MountVirtioFS(s: Request, n: MountNative) returns (cleanup: Option<Cleanup>, err: BackendError)
      requires Valid() && loaded && hand == Invoked(s.id) && s.id in entries && entries[s.id].intent.transport.VirtioFS? && entries[s.id].intent.path == s.path
      modifies this`entries, this`hand, host`disk, host`kernel, host`touched, host`run, host`acts
      ensures Valid() && Grown() && OnlyEntry(s.id)
      ensures cleanup == if err.NoFailure? then Some(Own(entries[s.id].intent)) else None
      ensures err.NoFailure? ==> hand == Landed(s.id) && Recoverable(entries[s.id].intent, View(host.kernel, s.path))
      ensures err.NoEffect? ==> (hand.Invoked? || hand.Opened? || hand.Armed?) && hand.id == s.id && EffectFree(err.code)
      ensures err.JournalFailure? ==> hand == Idle
      ensures !err.Uncertain?
      ensures Untouched(host.acts, |old(host.acts)|, s.path) ==>
                && err == VirtioFSError(old(host.kernel), s, n)
                && (err.NoEffect? || n.attaching != Written ==> SameAt(old(host.kernel), host.kernel, s.path))
                && (err.NoFailure? ==> OwnMounted(host.kernel, s.path, s.id, entries[s.id].intent, n.create))
    {
      hide Init, Host.Traced, Inv, Next, Recoverable, View, Valid, Now, Memory, Untouched, CalmBetween, Usable, OwnMount;
      var dir := OpenShareTarget(s.id, n.target);
      ghost var acts, kernel := host.acts, host.kernel;
      if Untouched(host.acts, |old(host.acts)|, s.path) {
        CalmView(old(host.kernel), |old(host.acts)|, host.kernel, host.acts, s.path);
      }
      if dir.None? || !ValidShareId(s.source) || s.rest != "" {
        return None, NoEffect(if n.target.Fails? then Class(n.target.code) else None);
      }
      if n.discovery.Fails? {
        return None, NoEffect(Class(n.discovery.code));
      }
      cleanup, err := AttachNew(s.id, dir.value, n);
      if Untouched(host.acts, |old(host.acts)|, s.path) {
        UntouchedPart(host.acts, |old(host.acts)|, acts, |old(host.acts)|, s.path);
        UntouchedPart(host.acts, |old(host.acts)|, host.acts, |acts|, s.path);
      }
    }

    /** mountVirtioFSDetached, once the target is open. */
    method AttachNew(id: ShareId, dir: Dir, n: MountNative) returns (cleanup: Option<Cleanup>, err: BackendError)
      requires Valid() && loaded && hand == Opened(id, dir) && id in entries && entries[id].intent.transport.VirtioFS?
      modifies this`entries, this`hand, host`disk, host`kernel, host`touched, host`run, host`acts
      ensures Valid() && Grown() && OnlyEntry(id)
      ensures cleanup == if err.NoFailure? then Some(Own(entries[id].intent)) else None
      ensures err.NoFailure? ==> hand == Landed(id) && Recoverable(entries[id].intent, View(host.kernel, entries[id].intent.path))
      ensures err.NoEffect? ==> (hand.Opened? || hand.Armed?) && hand.id == id && EffectFree(err.code)
      ensures err.JournalFailure? ==> hand == Idle
      ensures !err.Uncertain?
      ensures var p := old(entries)[id].intent.path;
              Untouched(host.acts, |old(host.acts)|, p) && p in old(host.kernel).base && old(host.kernel).base[p] == dir && Layers(old(host.kernel), p) == [] ==>
                && err == AttachError(dir, n)
                && (err.NoEffect? || n.attaching != Written ==> SameAt(old(host.kernel), host.kernel, p))
                && (err.NoFailure? ==> OwnMounted(host.kernel, p, id, entries[id].intent, n.create))
    {
      hide Init, Host.Traced, Inv, Next, Recoverable, View, Valid, Now, Memory, Untouched, CalmBetween, OwnMounted, OwnMount, SameAt, Landable;
      ghost var p, k := entries[id].intent.path, host.kernel;
      var m: Option<Mount>;
      m, err := ArmMount(id, dir, n);
      ghost var acts, k1, r := host.acts, host.kernel, entries[id].intent;
      if Untouched(acts, |old(host.acts)|, p) {
        CalmView(k, |old(host.acts)|, k1, acts, p);
      }
      if m.None? {
        return None, err;
      }
      cleanup, err := LandMount(id, m.value, n);
      if Untouched(host.acts, |old(host.acts)|, p) {
        UntouchedPart(host.acts, |old(host.acts)|, acts, |old(host.acts)|, p);
        UntouchedPart(host.acts, |old(host.acts)|, host.acts, |acts|, p);
        SameOn(k, k1, host.kernel, p);
        if p in k.base && k.base[p] == dir && Layers(k, p) == [] {
          StillLandable(k, k1, id, r, m.value, n.create);
        }
      }
    }

    /** Up to the durable identity: nothing has been attached, and what fails does not depend on the target. */
    method ArmMount(id: ShareId, dir: Dir, n: MountNative) returns (m: Option<Mount>, err: BackendError)
      requires Valid() && loaded && hand == Opened(id, dir) && id in entries && entries[id].intent.transport.VirtioFS?
      modifies this`entries, this`hand, host`disk, host`kernel, host`touched, host`run, host`acts
      ensures Valid() && Grown() && Calm() && OnlyEntry(id)
      ensures m.Some? <==> Usable(n.create, dir) && n.attaching == Written
      ensures m.Some? ==>
                && hand == Armed(id, m.value) && m.value == OwnMount(id, entries[id].intent, n.create)
                && 0 < entries[id].intent.uid && entries[id].intent.mid == n.create.mid && entries[id].intent.target == dir
      ensures m.None? ==> err == AttachError(dir, n) && if err.NoEffect? then hand == Opened(id, dir) && EffectFree(err.code) else hand == Idle
    {
      hide Init, Host.Traced, Inv, Next, Recoverable, View, Valid, Now, Memory, Untouched, CalmBetween, SameAt;
      m := CreateMount(id, dir, n.create);
      ghost var acts := host.acts;
      if m.None? {
        return None, NoEffect(if n.create.NotMade? then Class(n.create.code) else Some(MissingPrerequisite));
      }
      var durable := PersistIdentity(id, m.value, n.attaching);
      CalmLonger(old(host.kernel), |old(host.acts)|, host.kernel, acts, |old(host.acts)|, host.acts);
      if !durable {
        return None, JournalFailure;
      }
      err := NoFailure;
    }

    /** From move_mount on: the target must still be the recorded directory, and show the mount afterwards. */
    method LandMount(id: ShareId, m: Mount, n: MountNative) returns (cleanup: Option<Cleanup>, err: BackendError)
      requires Valid() && loaded && hand == Armed(id, m) && id in entries && entries[id].intent.transport.VirtioFS?
      modifies this`entries, this`hand, host`kernel, host`touched, host`run, host`acts
      ensures Valid() && Grown() && OnlyEntry(id)
      ensures cleanup == if err.NoFailure? then Some(Own(entries[id].intent)) else None
      ensures err.NoFailure? ==> hand == Landed(id) && Recoverable(entries[id].intent, View(host.kernel, entries[id].intent.path))
      ensures err.NoEffect? ==> hand == Armed(id, m) && EffectFree(err.code)
      ensures err.JournalFailure? ==> hand == Idle
      ensures !err.Uncertain?
      ensures var r := old(entries)[id].intent;
              Untouched(host.acts, |old(host.acts)|, r.path) && Landable(old(host.kernel), id, r, m, n.create) ==>
                && err == (if n.move.Fails? then NoEffect(Class(n.move.code)) else if !n.verify then JournalFailure else NoFailure)
                && (err.NoEffect? ==> SameAt(old(host.kernel), host.kernel, r.path))
                && (err.NoFailure? ==> OwnMounted(host.kernel, r.path, id, entries[id].intent, n.create))
    {
      hide Init, Host.Traced, Inv, Next, Recoverable, View, Valid, Now, Memory, Untouched, CalmBetween, OwnMounted, SameAt, Push;
      ghost var p, r := entries[id].intent.path, entries[id].intent;
      var moved := MoveMount(id, m, n.move);
      if !moved {
        return None, NoEffect(Class(if n.move.Fails? then n.move.code else None));
      }
      ghost var acts, k := host.acts, host.kernel;
      cleanup := VerifyMoved(id, n.verify);
      err := if cleanup.Some? then NoFailure else JournalFailure;
      if Untouched(host.acts, |old(host.acts)|, p) {
        UntouchedPart(host.acts, |old(host.acts)|, acts, |old(host.acts)|, p);
        UntouchedPart(host.acts, |old(host.acts)|, host.acts, |acts|, p);
        CalmView(k, |acts|, host.kernel, host.acts, p);
        if Landable(old(host.kernel), id, r, m, n.create) {
          MovedOnTop(old(host.kernel), k, host.kernel, id, r, m, n.create);
        }
      }
    }

    /** Any other backend, whose mounts are to the protocol those of other software. */
    method MountOther(s: Request, a: OtherAnswer) returns (cleanup: Option<Cleanup>, err: BackendError)
      requires Valid() && loaded && hand == Invoked(s.id) && s.id in entries && !entries[s.id].intent.transport.VirtioFS?
      modifies host`kernel, host`touched, host`run, host`acts
      ensures Valid() && Grown()
      ensures cleanup == if a.Mounts? then Some(Opaque) else None
      ensures err == OtherError(a)
      ensures cleanup.Some? ==> !err.JournalFailure? && !err.NoEffect?
      ensures err.NoEffect? ==> EffectFree(err.code)
      ensures err.NoFailure? ==> cleanup.Some?
    {
      Interfere();
      match a
      case Mounts(certain) =>
        cleanup, err := Some(Opaque), if certain then NoFailure else Uncertain;
      case MountsNot(e) =>
        cleanup := None;
        err := match e case NoEffect(code) => NoEffect(Class(code)) case JournalFailure => JournalFailure case _ => Uncertain;
    }

    /** The entry of an admitted request, in memory. */
    method BeginMount(s: Request)
      requires Valid() && loaded && hand == Idle && Admissible(entries, s)
      modifies this`entries, this`hand, host`run, host`acts
      ensures Valid() && Grown() && hand == Starting(s.id)
      ensures entries == old(entries)[s.id := NewEntry(s, host.boot)]
    {
      hide Init, Host.Traced, Inv, EnvStep, RebootStep, LoadStep, RecoverOneStep, SaveStep, InvokeStep, OpenStep, CreateStep, AttachStep, AdoptStep,
           OtherReturnsStep, CaptureStep, AbortStep, GiveUpStep, LeaveStep, DetachStep, RetryStep;
      entries := entries[s.id := NewEntry(s, host.boot)];
      hand := Starting(s.id);
      Note(Begin(s));
    }

    /** The record is durable before the backend is called; false if the save failed. */
    method PersistPending(id: ShareId, how: Write) returns (ok: bool)
      requires Valid() && loaded && hand == Starting(id) && id in entries
      modifies this`hand, host`disk, host`invoked, host`run, host`acts
      ensures Valid() && Grown()
      ensures (ok <==> how == Written) && (ok ==> host.disk == Intents(entries))
      ensures hand == if ok then Invoked(id) else Idle
      ensures host.invoked == old(host.invoked) + if ok then [Invocation(host.boot, id, entries[id].intent.gen)] else []
    {
      hide Init, Host.Traced, Inv, EnvStep, RebootStep, LoadStep, RecoverOneStep, BeginStep, InvokeStep, OpenStep, CreateStep, AttachStep, AdoptStep,
           OtherReturnsStep, CaptureStep, AbortStep, GiveUpStep, LeaveStep, DetachStep, RetryStep;
      ok := host.Save(Intents(entries), how);
      hand := if ok then Hand.Ready(id) else Idle;
      Note(Save(ok));
      if ok {
        Call(id);
      }
    }

    /** From here on the backend may have been called. */
    ghost method Call(id: ShareId)
      requires Valid() && loaded && hand == Hand.Ready(id) && id in entries
      modifies this`hand, host`invoked, host`run, host`acts
      ensures Valid() && Grown() && hand == Invoked(id)
      ensures host.invoked == old(host.invoked) + [Invocation(host.boot, id, entries[id].intent.gen)]
    {
      hide Init, Host.Traced, Inv, EnvStep, RebootStep, LoadStep, RecoverOneStep, SaveStep, BeginStep, OpenStep, CreateStep, AttachStep, AdoptStep,
           OtherReturnsStep, CaptureStep, AbortStep, GiveUpStep, LeaveStep, DetachStep, RetryStep;
      hand := Invoked(id);
      host.invoked := host.invoked + [Invocation(host.boot, id, entries[id].intent.gen)];
      Note(Invoke(id));
    }

    method MarkAbsent(id: ShareId)
      requires Valid() && loaded && (hand.Invoked? || hand.Opened? || hand.Armed?) && hand.id == id && id in entries
      modifies this`entries, this`hand, host`run, host`acts
      ensures Valid() && hand == Aborting(id) && Grown()
      ensures entries == old(entries)[id := old(entries)[id].(intent := old(entries)[id].intent.(state := RAbsent))]
    {
      hide Init, Host.Traced, Inv, EnvStep, RebootStep, LoadStep, RecoverOneStep, SaveStep, BeginStep, InvokeStep, OpenStep, CreateStep, AttachStep,
           AdoptStep, OtherReturnsStep, CaptureStep, GiveUpStep, LeaveStep, DetachStep, RetryStep;
      entries := entries[id := entries[id].(intent := entries[id].intent.(state := RAbsent))];
      hand := Aborting(id);
      Note(Abort(id));
    }

    method PersistAbsent(id: ShareId, how: Write) returns (ok: bool)
      requires Valid() && loaded && hand == Aborting(id) && id in entries
      modifies this`entries, this`hand, host`disk, host`run, host`acts
      ensures Valid() && hand == Idle && Grown()
      ensures ok <==> how == Written
      ensures ok ==> host.disk == Intents(old(entries))
      ensures entries == old(entries)[id := if ok then old(entries)[id].(result := Plain(old(entries)[id].result.id, old(entries)[id].result.gen, NoError))
                                            else old(entries)[id].(intent := old(entries)[id].intent.(state := RPending))]
    {
      hide Init, Host.Traced, Inv, EnvStep, RebootStep, LoadStep, RecoverOneStep, BeginStep, InvokeStep, OpenStep, CreateStep, AttachStep, AdoptStep,
           OtherReturnsStep, CaptureStep, AbortStep, GiveUpStep, LeaveStep, DetachStep, RetryStep;
      ok := host.Save(Intents(entries), how);
      hand := Idle;
      var e := entries[id];
      if ok {
        entries := entries[id := e.(result := Plain(e.result.id, e.result.gen, NoError))];
      } else {
        entries := entries[id := e.(intent := e.intent.(state := RPending))];
      }
      Note(Save(ok));
    }

    /** A failure without effect: the share becomes absent if that can be saved. */
    method AbortMount(id: ShareId, code: Option<Code>, how: Write) returns (r: ShareResult)
      requires Valid() && loaded && (hand.Invoked? || hand.Opened? || hand.Armed?) && hand.id == id && id in entries
      requires entries[id].result.id == id && !entries[id].result.ok && EffectFree(code)
      modifies this`entries, this`hand, host`disk, host`run, host`acts
      ensures Valid() && hand == Idle && Grown()
      ensures id in entries && entries.Keys == old(entries.Keys) && (forall a :: a in entries && a != id ==> entries[a] == old(entries[a]))
      ensures entries[id].cleanup == old(entries)[id].cleanup
      ensures var e := old(entries)[id].result;
              if how == Written then
                && r == Plain(id, e.gen, code.GetOr(MountFailed)) && entries[id].result == Plain(id, e.gen, NoError)
                && id in host.disk && host.disk[id].state == RAbsent
              else r == e && entries[id].result == e && entries[id].intent.state == RPending
    {
      hide Init, Host.Traced, Inv, Next, Valid, Now;
      MarkAbsent(id);
      var ok := PersistAbsent(id, how);
      var e := entries[id];
      return if ok then Plain(id, e.result.gen, code.GetOr(MountFailed)) else e.result;
    }

    /** The operation ends without a further save. */
    ghost method GiveUpMount()
      requires Valid() && (hand.Landed? || hand.Adopted? || hand.Invoked? || hand.Cleared?) && present
      requires hand.Invoked? && hand.id in entries ==> !entries[hand.id].intent.transport.VirtioFS?
      modifies this`hand, host`run, host`acts
      ensures Valid() && hand == Idle && Grown()
    {
      hide Init, Host.Traced, Inv, EnvStep, RebootStep, LoadStep, RecoverOneStep, SaveStep, BeginStep, InvokeStep, OpenStep, CreateStep, AttachStep,
           AdoptStep, OtherReturnsStep, CaptureStep, AbortStep, LeaveStep, DetachStep, RetryStep;
      hand := Idle;
      Note(GiveUp);
    }

    /** The backend returned a cleanup: the entry owns the native resources. */
    method AdoptCleanup(id: ShareId, cleanup: Cleanup)
      requires Valid() && loaded && id in entries
      requires if entries[id].intent.transport.VirtioFS?
               then hand == Landed(id) && cleanup == Own(entries[id].intent) && Recoverable(entries[id].intent, View(host.kernel, entries[id].intent.path))
               else hand == Invoked(id) && cleanup == Opaque
      modifies this`entries, this`hand, host`run, host`acts
      ensures Valid() && hand == Adopted(id) && Grown()
      ensures entries == old(entries)[id := old(entries)[id].(cleanup := Some(cleanup))]
    {
      if entries[id].intent.transport.VirtioFS? {
        AdoptOwn(id);
      } else {
        AdoptOpaque(id);
      }
    }

    method AdoptOwn(id: ShareId)
      requires Valid() && loaded && id in entries && entries[id].intent.transport.VirtioFS?
      requires hand == Landed(id) && Recoverable(entries[id].intent, View(host.kernel, entries[id].intent.path))
      modifies this`entries, this`hand, host`run, host`acts
      ensures Valid() && hand == Adopted(id) && Grown()
      ensures entries == old(entries)[id := old(entries)[id].(cleanup := Some(Own(old(entries)[id].intent)))]
    {
      hide Init, Host.Traced, Inv, EnvStep, RebootStep, LoadStep, RecoverOneStep, SaveStep, BeginStep, InvokeStep, OpenStep, CreateStep, AttachStep,
           OtherReturnsStep, CaptureStep, AbortStep, GiveUpStep, LeaveStep, DetachStep, RetryStep, Recoverable, View;
      entries := entries[id := entries[id].(cleanup := Some(Own(entries[id].intent)))];
      hand := Adopted(id);
      Note(Adopt(id));
    }

    method AdoptOpaque(id: ShareId)
      requires Valid() && loaded && id in entries && !entries[id].intent.transport.VirtioFS? && hand == Invoked(id)
      modifies this`entries, this`hand, host`run, host`acts
      ensures Valid() && hand == Adopted(id) && Grown()
      ensures entries == old(entries)[id := old(entries)[id].(cleanup := Some(Opaque))]
    {
      hide Init, Host.Traced, Inv, EnvStep, RebootStep, LoadStep, RecoverOneStep, SaveStep, BeginStep, InvokeStep, OpenStep, CreateStep, AttachStep,
           AdoptStep, CaptureStep, AbortStep, GiveUpStep, LeaveStep, DetachStep, RetryStep;
      entries := entries[id := entries[id].(cleanup := Some(Opaque))];
      hand := Adopted(id);
      Note(OtherReturns(id));
    }

    /** captureShareIntent: the target must still show the mount. */
    method CaptureMount(id: ShareId, read: bool) returns (ok: bool)
      requires Valid() && loaded && hand == Adopted(id) && id in entries
      modifies this`entries, this`hand, host`run, host`acts
      ensures Valid() && Grown() && OnlyEntry(id) && entries[id].cleanup == old(entries)[id].cleanup
      ensures ok <==> Captured(old(entries)[id].intent, if read then View(host.kernel, old(entries)[id].intent.path) else None)
      ensures entries[id].intent == if ok then old(entries)[id].intent.(mid := View(host.kernel, old(entries)[id].intent.path).value.mid, state := RMounted) else old(entries)[id].intent
      ensures hand == if ok then Landing(id) else Idle
    {
      hide Verified, View, Init, Host.Traced, Inv, EnvStep, RebootStep, LoadStep, RecoverOneStep, SaveStep, BeginStep, InvokeStep, OpenStep, CreateStep, AttachStep,
           AdoptStep, OtherReturnsStep, AbortStep, LeaveStep, DetachStep, RetryStep;
      var rec := entries[id].intent;
      var node := host.ReadNode(rec.path, read);
      ok := Captured(rec, node);
      if ok {
        entries := entries[id := entries[id].(intent := rec.(mid := node.value.mid, state := RMounted))];
        hand := Landing(id);
        Note(Capture(id, node.value.mid));
      } else {
        hand := Idle;
        Note(GiveUp);
      }
    }

    /** The record as mounted; the reply is "mounted" only if that is durable. */
    method CommitMount(id: ShareId, how: Write) returns (r: ShareResult)
      requires Valid() && loaded && hand == Landing(id) && id in entries
      modifies this`entries, this`hand, host`disk, host`run, host`acts
      ensures Valid() && hand == Idle && Grown()
      ensures r == if how == Written then WithState(old(entries)[id].result, Mounted) else old(entries)[id].result
      ensures entries == old(entries)[id := old(entries)[id].(result := r)]
      ensures how == Written ==> host.disk == Intents(old(entries))
    {
      hide Init, Host.Traced, Inv, EnvStep, RebootStep, LoadStep, RecoverOneStep, BeginStep, InvokeStep, OpenStep, CreateStep, AttachStep, AdoptStep,
           OtherReturnsStep, CaptureStep, AbortStep, GiveUpStep, LeaveStep, DetachStep, RetryStep;
      var ok := host.Save(Intents(entries), how);
      hand := Idle;
      if ok {
        entries := entries[id := entries[id].(result := WithState(entries[id].result, Mounted))];
      } else {
        assert entries == entries[id := entries[id]];
      }
      Note(Save(ok));
      r := entries[id].result;
    }

    /** What `mount` does with the answer of the backend. */
    method FinishMount(id: ShareId, cleanup: Option<Cleanup>, err: BackendError, n: MountNative) returns (r: ShareResult)
      requires Valid() && loaded && id in entries && entries[id].result.id == id && entries[id].result.state == RecoveryRequired && !entries[id].result.ok
      requires cleanup.Some? ==> if entries[id].intent.transport.VirtioFS?
               then hand == Landed(id) && cleanup.value == Own(entries[id].intent) && Recoverable(entries[id].intent, View(host.kernel, entries[id].intent.path))
               else hand == Invoked(id) && cleanup.value == Opaque
      requires cleanup.None? && err.JournalFailure? ==> hand == Idle || (hand == Invoked(id) && !entries[id].intent.transport.VirtioFS?)
      requires cleanup.None? && err.NoEffect? ==> (hand.Invoked? || hand.Opened? || hand.Armed?) && hand.id == id && EffectFree(err.code)
      requires cleanup.None? && err.Uncertain? ==> hand == Invoked(id) && !entries[id].intent.transport.VirtioFS?
      requires (err.NoFailure? ==> cleanup.Some?) && (cleanup.Some? ==> err.NoFailure? || err.Uncertain?)
      modifies this`entries, this`hand, host`disk, host`kernel, host`touched, host`run, host`acts
      ensures Valid() && hand == Idle && Grown() && Calm()
      ensures id in entries && entries.Keys == old(entries.Keys) && (forall a :: a in entries && a != id ==> entries[a] == old(entries[a]))
      ensures entries[id].cleanup == if cleanup.Some? then cleanup else old(entries)[id].cleanup
      ensures var was := old(entries)[id].intent;
              var c := Captured(was, if n.capture then View(host.kernel, was.path) else None);
              && r == FinalAnswer(old(entries)[id].result, err, c, n)
              && entries[id].result == FinalResult(old(entries)[id].result, err, c, n)
              && (err.NoFailure? ==> entries[id].intent == if c then was.(mid := View(host.kernel, was.path).value.mid, state := RMounted) else was)
      ensures r.ok ==> id in host.disk && host.disk[id] == entries[id].intent
      ensures err.NoEffect? && n.absent == Written ==> id in host.disk && host.disk[id].state == RAbsent
    {
      hide Init, Host.Traced, Inv, Next, Recoverable, View, Valid, Now, Memory, Captured, Untouched, CalmBetween;
      assert loaded ==> present by { LoadedPresent(); }
      ghost var k := host.kernel;
      if cleanup.Some? {
        AdoptCleanup(id, cleanup.value);
      }
      ghost var acts := host.acts;
      match err {
        case JournalFailure =>
          if hand != Idle {
            GiveUpMount();
          }
          r := entries[id].result;
          Still(k, |old(host.acts)|, host.acts);
        case NoEffect(code) =>
          r := AbortMount(id, code, n.absent);
          Still(k, |old(host.acts)|, host.acts);
        case Uncertain =>
          GiveUpMount();
          r := Plain(id, entries[id].result.gen, MountFailed);
          Still(k, |old(host.acts)|, host.acts);
        case NoFailure =>
          r := Conclude(id, n);
          CalmLonger(k, |acts|, host.kernel, host.acts, |old(host.acts)|, host.acts);
      }
    }

    /** Capture the mount's identity and save "mounted". */
    method Conclude(id: ShareId, n: MountNative) returns (r: ShareResult)
      requires Valid() && loaded && hand == Adopted(id) && id in entries && entries[id].result.id == id
      requires entries[id].result.state == RecoveryRequired && !entries[id].result.ok
      modifies this`entries, this`hand, host`disk, host`kernel, host`touched, host`run, host`acts
      ensures Valid() && hand == Idle && Grown() && Calm()
      ensures id in entries && entries.Keys == old(entries.Keys) && (forall a :: a in entries && a != id ==> entries[a] == old(entries[a]))
      ensures entries[id].cleanup == old(entries)[id].cleanup && entries[id].result == r
      ensures var was := old(entries)[id].intent;
              var c := Captured(was, if n.capture then View(host.kernel, was.path) else None);
              && r == FinalAnswer(old(entries)[id].result, NoFailure, c, n)
              && entries[id].intent == if c then was.(mid := View(host.kernel, was.path).value.mid, state := RMounted) else was
      ensures r.ok ==> id in host.disk && host.disk[id] == entries[id].intent
    {
      hide Init, Host.Traced, Inv, Next, Recoverable, View, Valid, Now, Memory, Captured, Untouched, CalmBetween;
      Interfere();
      ghost var acts := host.acts;
      var captured := CaptureMount(id, n.capture);
      if captured {
        r := CommitMount(id, n.mounted);
      } else {
        r := entries[id].result;
      }
      CalmLonger(old(host.kernel), |old(host.acts)|, host.kernel, acts, |old(host.acts)|, host.acts);
    }

    lemma LoadedPresent()
      requires Valid()
      ensures loaded ==> present
    {
    }

    lemma CleanupPath(id: ShareId)
      requires Valid() && present && id in entries && entries[id].cleanup.Some?
      ensures entries[id].cleanup.value.Own? ==> entries[id].cleanup.value.r.path == entries[id].intent.path
    {
      Facts(id);
    }

    lemma EntryNamed(id: ShareId)
      requires Valid() && present && id in entries
      ensures entries[id].intent.id == id
    {
      Facts(id);
    }

    lemma Facts(id: ShareId)
      requires Valid() && present && id in entries
      ensures EntryOk(id, entries[id])
    {
      hide Valid, Init, Host.Traced, RecOk, DescribesAll, JournalOk, EntriesOk, LinkOk, HandOk, EntryOk, InvokedOk, KernelOk, Unique;
      Invariant();
      EntryFacts(entries, id, host.kernel, host.touched, host.boot) by { NowParts(); }
    }

    lemma NowParts()
      requires Valid() && present
      ensures EntriesOk(entries, host.kernel, host.touched, host.boot) && KernelOk(host.kernel)
    {
      hide Init, Host.Traced, JournalOk, EntriesOk, LinkOk, HandOk, EntryOk, InvokedOk, KernelOk, Unique;
      Invariant();
    }

    /** An OK reply tells the simple machine's state, unless other software touched the target. */
    lemma Truth(id: ShareId, gen: nat)
      requires Valid() && loaded && Status(Memory(), id, gen).ok
      ensures Status(Memory(), id, gen).state == Absent ==> Abs(Now(), id) == Share.Share(gen, false)
      ensures Status(Memory(), id, gen).state == Mounted && entries[id].intent.transport.VirtioFS? && entries[id].intent.path !in host.touched ==>
                Abs(Now(), id) == Share.Share(gen, true)
    {
      hide Init, Host.Traced, Inv, Abs;
      Invariant();
      RepliesAreTrue(Now(), Memory(), id, gen);
    }

    function PrepareFailure(id: ShareId, gen: nat, err: PrepareError): ShareResult {
      Plain(id, gen, match err case WrongBoot => BootMismatch case NoJournal => RecoveryRequiredCode case _ => BootIdUnavailable)
    }

    /** The checks of `mount` against the known entries. */
    method Admit(s: Request) returns (refused: Option<ShareResult>)
      requires Valid() && loaded && ValidRequest(s)
      ensures refused == Refusal(entries, s)
      ensures refused.None? ==> Admissible(entries, s)
      ensures refused.Some? && refused.value.ok ==> refused.value == Status(Memory(), s.id, s.gen) && refused.value.state == Mounted
    {
      hide Init, Host.Traced, Inv, Next, Recoverable, View, Valid, Now, EntryOk;
      assert loaded ==> present by { LoadedPresent(); }
      if s.id in entries {
        var known := entries[s.id];
        Facts(s.id);
        EntryResult(s.id, known);
        if known.result.state == RecoveryRequired {
          return Some(known.result);
        }
        if s.gen < known.result.gen || (s.gen == known.result.gen && known.result.state == Absent) {
          return Some(Plain(s.id, s.gen, StaleGeneration));
        }
        if known.result.state == Mounted {
          if s.gen == known.result.gen && known.intent.fingerprint == s {
            return Some(known.result);
          }
          return Some(Plain(s.id, s.gen, Conflict));
        }
      }
      var used := PathClaimed(s.path);
      if used {
        return Some(Plain(s.id, s.gen, Code.PathInUse));
      }
      return None;
    }

    method CallVirtioFS(s: Request, n: MountNative) returns (r: ShareResult)
      requires Valid() && loaded && hand == Invoked(s.id) && s.id in entries && entries[s.id] == NewEntry(s, host.boot)
      requires n.pending == Written && s.transport.VirtioFS?
      modifies this`entries, this`hand, host`disk, host`kernel, host`touched, host`run, host`acts
      ensures Valid() && hand == Idle && Grown()
      ensures s.id in entries && entries.Keys == old(entries.Keys) && (forall a :: a in entries && a != s.id ==> entries[a] == old(entries[a]))
      ensures r.ok ==> r == entries[s.id].result && r.state == Mounted && r.gen == s.gen
      ensures MountEnds(s, host.boot, old(host.kernel), n, Untouched(host.acts, |old(host.acts)|, s.path), entries[s.id], host.kernel, host.disk, r)
    {
      hide Init, Host.Traced, Inv, Next, Recoverable, View, Valid, Now, EntryOk, Untouched, CalmBetween, VirtioFSError, Captured, OwnMounted;
      var cleanup, failure := MountVirtioFS(s, n);
      ghost var acts, kernel, was := host.acts, host.kernel, entries[s.id].intent;
      r := FinishMount(s.id, cleanup, failure, n);
      if Untouched(host.acts, |old(host.acts)|, s.path) {
        UntouchedPart(host.acts, |old(host.acts)|, acts, |old(host.acts)|, s.path);
        UntouchedPart(host.acts, |old(host.acts)|, host.acts, |acts|, s.path);
        CalmView(kernel, |acts|, host.kernel, host.acts, s.path);
        if failure.NoFailure? {
          StillMounted(kernel, host.kernel, s.path, s.id, was, n.create);
        }
        VirtioFSEnds(s, host.boot, old(host.kernel), n, was, entries[s.id], host.kernel, host.disk, r);
      }
    }

    method CallOther(s: Request, n: MountNative) returns (r: ShareResult)
      requires Valid() && loaded && hand == Invoked(s.id) && s.id in entries && entries[s.id] == NewEntry(s, host.boot)
      requires n.pending == Written && !s.transport.VirtioFS?
      modifies this`entries, this`hand, host`disk, host`kernel, host`touched, host`run, host`acts
      ensures Valid() && hand == Idle && Grown()
      ensures s.id in entries && entries.Keys == old(entries.Keys) && (forall a :: a in entries && a != s.id ==> entries[a] == old(entries[a]))
      ensures r.ok ==> r == entries[s.id].result && r.state == Mounted && r.gen == s.gen
      ensures MountEnds(s, host.boot, old(host.kernel), n, Untouched(host.acts, |old(host.acts)|, s.path), entries[s.id], host.kernel, host.disk, r)
    {
      hide Init, Host.Traced, Inv, Next, Recoverable, View, Valid, Now, EntryOk, Untouched, CalmBetween, OtherError, Captured;
      var cleanup, failure := MountOther(s, n.other);
      ghost var was := entries[s.id].intent;
      r := FinishMount(s.id, cleanup, failure, n);
      OtherCaptured(was, if n.capture then View(host.kernel, s.path) else None);
    }

    method CallBackend(s: Request, n: MountNative) returns (r: ShareResult)
      requires Valid() && loaded && hand == Invoked(s.id) && s.id in entries && entries[s.id] == NewEntry(s, host.boot)
      requires n.pending == Written
      modifies this`entries, this`hand, host`disk, host`kernel, host`touched, host`run, host`acts
      ensures Valid() && hand == Idle && Grown()
      ensures s.id in entries && entries.Keys == old(entries.Keys) && (forall a :: a in entries && a != s.id ==> entries[a] == old(entries[a]))
      ensures r.ok ==> r == Status(Memory(), s.id, s.gen) && r.state == Mounted
      ensures MountEnds(s, host.boot, old(host.kernel), n, Untouched(host.acts, |old(host.acts)|, s.path), entries[s.id], host.kernel, host.disk, r)
    {
      hide Init, Host.Traced, Inv, Next, Valid, Now, MountEnds, Untouched;
      if s.transport.VirtioFS? {
        r := CallVirtioFS(s, n);
      } else {
        r := CallOther(s, n);
      }
    }

    method MountPrepared(s: Request, n: MountNative) returns (r: ShareResult)
      requires Valid() && hand == Idle && loaded
      modifies this, host`disk, host`kernel, host`invoked, host`touched, host`run, host`acts
      ensures Valid() && hand == Idle && Grown() && loaded
      ensures r.ok ==> r == Status(Memory(), s.id, s.gen) && r.state == Mounted
      ensures host.invoked == old(host.invoked) || host.invoked == old(host.invoked) + [Invocation(host.boot, s.id, s.gen)]
      ensures forall a :: a in old(entries) && a != s.id ==> a in entries && entries[a] == old(entries)[a]
      ensures if !ValidRequest(s) then r == Plain(s.id, s.gen, InvalidRequest) && entries == old(entries) && host.acts == old(host.acts)
              else if Refusal(old(entries), s).Some? then r == Refusal(old(entries), s).value && entries == old(entries) && host.acts == old(host.acts)
              else s.id in entries && MountEnds(s, host.boot, old(host.kernel), n, Untouched(host.acts, |old(host.acts)|, s.path), entries[s.id], host.kernel, host.disk, r)
    {
      hide Init, Host.Traced, Inv, Next, Recoverable, View, Valid, Now, Memory, EntryOk, KernelOk, Untouched, CalmBetween, MountEnds, Refusal, ValidRequest, Admissible, Status;
      if !ValidRequest(s) {
        return Plain(s.id, s.gen, InvalidRequest);
      }
      var refused := Admit(s);
      if refused.Some? {
        return refused.value;
      }
      BeginMount(s);
      var durable := PersistPending(s.id, n.pending);
      if !durable {
        PendingEnds(s, host.boot, host.kernel, n, Untouched(host.acts, |old(host.acts)|, s.path), entries[s.id], host.kernel, host.disk);
        return entries[s.id].result;
      }
      ghost var acts := host.acts;
      r := CallBackend(s, n);
      if Untouched(host.acts, |old(host.acts)|, s.path) {
        UntouchedPart(host.acts, |old(host.acts)|, host.acts, |acts|, s.path);
      }
      EndsQuiet(s, host.boot, old(host.kernel), n, Untouched(host.acts, |acts|, s.path), Untouched(host.acts, |old(host.acts)|, s.path), entries[s.id], host.kernel, host.disk, r);
    }

    /** mount.  An OK answer means the share is mounted at this generation; a refused request changes
        nothing; the backend is called at most once; what an admitted request answers is decided by its native calls. */
    method Mount(s: Request, expected: nat, n: MountNative) returns (r: ShareResult, ghost start: Start)
      requires Valid() && hand == Idle
      modifies this, host`disk, host`kernel, host`invoked, host`touched, host`run, host`acts
      ensures Valid() && hand == Idle && Grown()
      ensures r.ok ==> loaded && r == Status(Memory(), s.id, s.gen) && r.state == Mounted
      ensures host.invoked == old(host.invoked) || host.invoked == old(host.invoked) + [Invocation(host.boot, s.id, s.gen)]
      ensures old(loaded) ==> start == Start(old(entries), old(host.kernel), old(host.acts))
      ensures var err := PrepareAnswer(old(loaded), host.boot, expected, n.prepare);
              !err.Ready? ==> r == PrepareFailure(s.id, s.gen, err) && (old(loaded) ==> entries == old(entries) && host.run == old(host.run))
      ensures PrepareAnswer(old(loaded), host.boot, expected, n.prepare).Ready? ==>
                && start.acts <= host.acts
                && (!old(loaded) ==> Rebuilt(old(host.disk), old(host.kernel), n.prepare.unreadable, start.acts, |old(host.acts)|, start.entries))
                && (forall a :: a in start.entries && a != s.id ==> a in entries && entries[a] == start.entries[a])
                && (if !ValidRequest(s) then r == Plain(s.id, s.gen, InvalidRequest) && entries == start.entries && host.acts == start.acts
                    else if Refusal(start.entries, s).Some? then r == Refusal(start.entries, s).value && entries == start.entries && host.acts == start.acts
                    else s.id in entries && MountEnds(s, host.boot, start.kernel, n, Untouched(host.acts, |start.acts|, s.path), entries[s.id], host.kernel, host.disk, r))
    {
      hide Init, Host.Traced, Inv, Next, Valid, Now, Memory, Rebuilt, Untouched, CalmBetween, MountEnds, Refusal, ValidRequest;
      var err := Prepare(expected, n.prepare);
      start := Start(entries, host.kernel, host.acts);
      if !err.Ready? {
        return PrepareFailure(s.id, s.gen, err), start;
      }
      r := MountPrepared(s, n);
    }

    // ---- Status and unmount -----------------------------------------------

    /** An OK answer is the state of the simple machine (Truth). */
    method StatusOf(id: ShareId, gen: nat, expected: nat, n: PrepareNative) returns (r: ShareResult)
      requires Valid() && hand == Idle
      modifies this, host`disk, host`kernel, host`touched, host`run, host`acts
      ensures Valid() && hand == Idle && Grown()
      ensures r.ok ==> loaded && r == Status(Memory(), id, gen)
      ensures old(loaded) ==> entries == old(entries) && host.run == old(host.run)
      ensures var err := PrepareAnswer(old(loaded), host.boot, expected, n);
              && (!err.Ready? ==> r == PrepareFailure(id, gen, err))
              && (err.Ready? ==>
                    && r == Lookup(entries, id, gen)
                    && (!old(loaded) ==> Rebuilt(old(host.disk), old(host.kernel), n.unreadable, host.acts, |old(host.acts)|, entries)))
    {
      hide Init, Host.Traced, Inv, Next, Valid, Now, Rebuilt;
      var err := Prepare(expected, n);
      if !err.Ready? {
        return PrepareFailure(id, gen, err);
      }
      r := Lookup(entries, id, gen);
    }

    method LeaveShare(id: ShareId)
      requires Valid() && loaded && hand == Idle && id in entries && Claims(entries[id]) && entries[id].cleanup.Some?
      modifies this`entries, this`hand, host`run, host`acts
      ensures Valid() && Grown() && hand == Leaving(id)
      ensures entries == old(entries)[id := old(entries)[id].(intent := TornDown(old(entries)[id].intent))]
    {
      hide Init, Host.Traced, Inv, EnvStep, RebootStep, LoadStep, RecoverOneStep, SaveStep, BeginStep, InvokeStep, OpenStep, CreateStep, AttachStep,
           AdoptStep, OtherReturnsStep, CaptureStep, AbortStep, GiveUpStep, DetachStep, RetryStep;
      var r := entries[id].intent.(state := RPending);
      if r.transport.VirtioFS? && r.uid != 0 {
        r := r.(phase := Detaching);
      }
      entries := entries[id := entries[id].(intent := r)];
      hand := Leaving(id);
      Note(Leave(id));
    }

    /** The record says "detaching" before anything is unmounted. */
    method PersistDetaching(id: ShareId, how: Write) returns (ok: bool)
      requires Valid() && loaded && hand == Leaving(id)
      modifies this`hand, host`disk, host`run, host`acts
      ensures Valid() && Grown() && host.acts == old(host.acts) + [Save(ok)]
      ensures (ok <==> how == Written) && (ok ==> host.disk == Intents(entries))
      ensures hand == if ok then Cleared(id) else Idle
    {
      hide Init, Host.Traced, Inv, EnvStep, RebootStep, LoadStep, RecoverOneStep, BeginStep, InvokeStep, OpenStep, CreateStep, AttachStep, AdoptStep,
           OtherReturnsStep, CaptureStep, AbortStep, GiveUpStep, LeaveStep, DetachStep, RetryStep;
      ok := host.Save(Intents(entries), how);
      hand := if ok then Cleared(id) else Idle;
      Note(Save(ok));
    }

    /** The cleanup closure. */
    method RunCleanup(id: ShareId, n: UnmountNative) returns (ok: bool, busy: bool)
      requires Valid() && loaded && hand == Cleared(id) && id in entries && entries[id].cleanup.Some?
      modifies this`entries, this`hand, host`kernel, host`run, host`acts
      ensures Valid() && Grown()
      ensures ok <==> Removes(old(entries)[id], old(host.kernel), n)
      ensures busy <==> FindsBusy(old(entries)[id], old(host.kernel), n)
      ensures ok && old(entries)[id].cleanup.value.Own? ==>
                var p := old(entries)[id].cleanup.value.r.path;
                Layers(old(host.kernel), p) != [] && host.kernel == Pop(old(host.kernel), p)
      ensures !ok || old(entries)[id].cleanup.value.Opaque? ==> host.kernel == old(host.kernel)
      ensures ok ==> hand == Gone(id) && entries == old(entries)[id := Entry(WithState(old(entries)[id].result, RecoveryRequired), None, old(entries)[id].intent.(state := RAbsent))]
      ensures !ok ==> hand == Idle && entries == old(entries)
    {
      hide Recoverable, View, KernelOk, Init, Host.Traced, Inv, EnvStep, RebootStep, LoadStep, RecoverOneStep, SaveStep, BeginStep, InvokeStep, OpenStep, CreateStep, AttachStep,
           AdoptStep, OtherReturnsStep, CaptureStep, AbortStep, GiveUpStep, LeaveStep, RetryStep;
      var e := entries[id];
      if e.cleanup.value.Own? {
        assert KernelOk(host.kernel) by { NowKernel(); }
        ok, busy := host.CheckedUnmount(e.cleanup.value.r, n.read, n.unmount);
      } else {
        ok, busy := n.unmount == Unmounted, n.unmount == BusyRefused;
      }
      if ok {
        entries := entries[id := Entry(WithState(e.result, RecoveryRequired), None, e.intent.(state := RAbsent))];
        hand := Gone(id);
        Note(Detach(id));
      } else {
        GiveUpMount();
      }
    }

    lemma NowKernel()
      requires Valid() && loaded
      ensures KernelOk(host.kernel)
    {
      hide Init, Host.Traced, JournalOk, EntriesOk, LinkOk, HandOk, EntryOk, InvokedOk, KernelOk, Unique;
      Invariant();
    }

    /** The final save of an unmount, and its retry: "absent" is reported only once it is durable. */
    method PersistGone(id: ShareId, how: Write) returns (ok: bool)
      requires Valid() && loaded && hand == Gone(id) && id in entries
      modifies this`entries, this`hand, host`disk, host`run, host`acts
      ensures Valid() && hand == Idle && Grown()
      ensures (ok <==> how == Written) && (ok ==> host.disk == Intents(old(entries)))
      ensures entries == old(entries)[id := old(entries)[id].(result := if ok then WithState(old(entries)[id].result, Absent) else old(entries)[id].result)]
    {
      hide Init, Host.Traced, Inv, EnvStep, RebootStep, LoadStep, RecoverOneStep, BeginStep, InvokeStep, OpenStep, CreateStep, AttachStep, AdoptStep,
           OtherReturnsStep, CaptureStep, AbortStep, GiveUpStep, LeaveStep, DetachStep, RetryStep;
      ok := host.Save(Intents(entries), how);
      hand := Idle;
      if ok {
        entries := entries[id := entries[id].(result := WithState(entries[id].result, Absent))];
      } else {
        assert entries == entries[id := entries[id]];
      }
      Note(Save(ok));
    }

    ghost method RetryUnmount(id: ShareId)
      requires Valid() && loaded && hand == Idle && id in entries && Claims(entries[id]) && entries[id].cleanup.None? && entries[id].intent.state == RAbsent
      modifies this`hand, host`run, host`acts
      ensures Valid() && hand == Gone(id) && Grown()
    {
      hide Init, Host.Traced, Inv, EnvStep, RebootStep, LoadStep, RecoverOneStep, SaveStep, BeginStep, InvokeStep, OpenStep, CreateStep, AttachStep,
           AdoptStep, OtherReturnsStep, CaptureStep, AbortStep, GiveUpStep, LeaveStep, DetachStep;
      hand := Gone(id);
      Note(Retry(id));
    }

    /** The cleanup closure, and the final save if it removed the mount. */
    method FinishUnmount(id: ShareId, n: UnmountNative) returns (r: ShareResult)
      requires Valid() && loaded && hand == Cleared(id) && id in entries && entries[id].cleanup.Some? && entries[id].result.id == id
      requires Claims(entries[id]) && n.detaching == Written
      requires entries[id].cleanup.value.Own? ==> entries[id].cleanup.value.r.path == entries[id].intent.path
      modifies this`entries, this`hand, host`disk, host`kernel, host`run, host`acts
      ensures Valid() && hand == Idle && Grown()
      ensures id in entries && entries.Keys == old(entries.Keys) && (forall a :: a in entries && a != id ==> entries[a] == old(entries[a]))
      ensures r.ok ==> r == entries[id].result && r.state == Absent && entries[id].result.gen == old(entries[id].result.gen)
      ensures r.ok <==> entries[id].result.state == Absent
      ensures !Removes(old(entries)[id], old(host.kernel), n) ==> host.kernel == old(host.kernel)
      ensures r.code == Busy <==> FindsBusy(old(entries)[id], old(host.kernel), n)
      ensures UnmountEnds(old(entries)[id], old(host.kernel), n, entries[id], host.kernel, host.disk, r)
    {
      hide Init, Host.Traced, Inv, Next, Valid, Now, Recoverable, View;
      r := entries[id].result;
      var done, busy := RunCleanup(id, n);
      if done {
        var saved := PersistGone(id, n.gone);
        r := entries[id].result;
      } else {
        r := r.(ok := false, code := if busy then Busy else if r.state == RecoveryRequired then RecoveryRequiredCode else UnmountFailed);
      }
    }

    method TearDown(id: ShareId, n: UnmountNative) returns (r: ShareResult)
      requires Valid() && loaded && hand == Idle && id in entries && Claims(entries[id]) && entries[id].cleanup.Some? && entries[id].result.id == id
      modifies this`entries, this`hand, host`disk, host`kernel, host`touched, host`run, host`acts
      ensures Valid() && hand == Idle && Grown()
      ensures id in entries && entries.Keys == old(entries.Keys) && (forall a :: a in entries && a != id ==> entries[a] == old(entries[a]))
      ensures r.ok ==> r == entries[id].result && r.state == Absent && entries[id].result.gen == old(entries[id].result.gen)
      ensures r.ok <==> entries[id].result.state == Absent
      ensures r.code == Busy <==> n.detaching == Written && FindsBusy(old(entries)[id], host.kernel, n)
      ensures Untouched(host.acts, |old(host.acts)|, old(entries)[id].intent.path) ==>
                UnmountEnds(old(entries)[id], old(host.kernel), n, entries[id], host.kernel, host.disk, r)
    {
      hide Init, Host.Traced, Inv, Next, Valid, Now, Untouched, CalmBetween, Removes, FindsBusy, EntryOk, UnmountEnds, View, SameAt;
      assert loaded ==> present by { LoadedPresent(); }
      CleanupPath(id);
      ghost var p, e, k := entries[id].intent.path, entries[id], host.kernel;
      r := entries[id].result;
      LeaveShare(id);
      var durable := PersistDetaching(id, n.detaching);
      if !durable {
        r := WithState(r, RecoveryRequired);
        NotDetached(e, k, n, entries[id], host.disk);
        return;
      }
      ghost var acts1 := host.acts;
      Interfere();
      ghost var acts2, k2, e2 := host.acts, host.kernel, entries[id];
      r := FinishUnmount(id, n);
      OneAnswer(e, e2, n, k2, host.kernel);
      if Untouched(host.acts, |old(host.acts)|, p) {
        UntouchedPart(host.acts, |old(host.acts)|, acts2, |acts1|, p);
        CalmView(k, |acts1|, k2, acts2, p);
        UnmountEndsFrom(e, k, e2, k2, n, entries[id], host.kernel, host.disk, r);
      }
    }

    method UnmountPrepared(id: ShareId, gen: nat, n: UnmountNative) returns (r: ShareResult)
      requires Valid() && hand == Idle && loaded
      modifies this, host`disk, host`kernel, host`touched, host`run, host`acts
      ensures Valid() && hand == Idle && Grown() && loaded
      ensures r.ok ==> r == Status(Memory(), id, gen) && r.state == Absent
      ensures forall a :: a in old(entries) && a != id ==> a in entries && entries[a] == old(entries)[a]
      ensures !ToUnmount(old(entries), id, gen) ==> r == Lookup(old(entries), id, gen) && entries == old(entries) && host.acts == old(host.acts)
      ensures ToUnmount(old(entries), id, gen) ==>
                && id in entries && (r.ok <==> entries[id].result.state == Absent)
                && var e := old(entries)[id];
                && (e.cleanup.None? ==> WithoutCleanup(e, n, entries[id], host.disk, r) && host.kernel == old(host.kernel))
                && (e.cleanup.Some? ==>
                      && (r.code == Busy <==> n.detaching == Written && FindsBusy(e, host.kernel, n))
                      && (Untouched(host.acts, |old(host.acts)|, e.intent.path) ==>
                            UnmountEnds(e, old(host.kernel), n, entries[id], host.kernel, host.disk, r)))
    {
      hide Init, Host.Traced, Inv, Next, Valid, Now, TornDown, EntryOk, Untouched, UnmountEnds, FindsBusy;
      r := Lookup(entries, id, gen);
      if !ToUnmount(entries, id, gen) {
        return;
      }
      assert loaded ==> present by { LoadedPresent(); }
      Facts(id);
      EntryResult(id, entries[id]);
      if entries[id].cleanup.None? {
        if entries[id].intent.state == RAbsent {
          RetryUnmount(id);
          var retried := PersistGone(id, n.gone);
          r := entries[id].result;
        }
        return;
      }
      r := TearDown(id, n);
    }

    /** unmount.  An OK answer means the share is durably absent; only this entry changes; what it answers is decided
        by what its native calls find and answer. */
    method Unmount(id: ShareId, gen: nat, expected: nat, n: UnmountNative) returns (r: ShareResult, ghost start: Start)
      requires Valid() && hand == Idle
      modifies this, host`disk, host`kernel, host`touched, host`run, host`acts
      ensures Valid() && hand == Idle && Grown()
      ensures r.ok ==> loaded && r == Status(Memory(), id, gen) && r.state == Absent
      ensures old(loaded) ==> start == Start(old(entries), old(host.kernel), old(host.acts))
      ensures var err := PrepareAnswer(old(loaded), host.boot, expected, n.prepare);
              !err.Ready? ==> r == PrepareFailure(id, gen, err) && (old(loaded) ==> entries == old(entries) && host.run == old(host.run))
      ensures PrepareAnswer(old(loaded), host.boot, expected, n.prepare).Ready? ==>
                && start.acts <= host.acts
                && (!old(loaded) ==> Rebuilt(old(host.disk), old(host.kernel), n.prepare.unreadable, start.acts, |old(host.acts)|, start.entries))
                && (forall a :: a in start.entries && a != id ==> a in entries && entries[a] == start.entries[a])
                && (!ToUnmount(start.entries, id, gen) ==> r == Lookup(start.entries, id, gen) && entries == start.entries && host.acts == start.acts)
                && (ToUnmount(start.entries, id, gen) ==>
                      && id in entries && (r.ok <==> entries[id].result.state == Absent)
                      && var e := start.entries[id];
                      && (e.cleanup.None? ==> WithoutCleanup(e, n, entries[id], host.disk, r) && host.kernel == start.kernel)
                      && (e.cleanup.Some? ==>
                            && (r.code == Busy <==> n.detaching == Written && FindsBusy(e, host.kernel, n))
                            && (Untouched(host.acts, |start.acts|, e.intent.path) ==>
                                  UnmountEnds(e, start.kernel, n, entries[id], host.kernel, host.disk, r))))
    {
      hide Init, Host.Traced, Inv, Next, Valid, Now, Memory, Rebuilt, Untouched, CalmBetween, UnmountEnds, FindsBusy;
      var err := Prepare(expected, n.prepare);
      start := Start(entries, host.kernel, host.acts);
      if !err.Ready? {
        return PrepareFailure(id, gen, err), start;
      }
      r := UnmountPrepared(id, gen, n);
    }
  }

  lemma EntryResult(id: ShareId, e: Entry)
    requires EntryOk(id, e)
    ensures e.result.state == RecoveryRequired ==> !e.result.ok
    ensures e.result.state != RecoveryRequired ==> e.result.ok
    ensures e.result.id == id
    ensures e.result.state == Mounted ==> e.cleanup.Some?
  {
  }

  /** recoverVirtioFSPending and recoverShareIntent on one entry, once the target has been read. */
  method Reconcile(e: Entry, node: Option<Node>) returns (e': Entry)
    requires e.intent.state != RAbsent
    ensures e' == RecoverEntry(e, node)
  {
    var r := e.intent;
    e' := e;
    if r.transport.VirtioFS? && r.state == RPending && r.phase != NoPhase {
      if r.phase == Preparing {
        e' := e.(intent := r.(state := RAbsent), result := WithState(e.result, Absent));
      } else if r.uid != 0 && r.mid != 0 && r.target.ino != 0 && r.target.mid != 0 && node.Some? {
        var n := node.value;
        if n.mid == r.target.mid && n.dev == r.target.dev && n.ino == r.target.ino {
          e' := e.(intent := r.(state := RAbsent), result := WithState(e.result, Absent));
        } else if n.mid == r.mid && Recoverable(r.(state := RMounted), node) {
          r := r.(state := RMounted);
          e' := Entry(WithState(e.result, Mounted), Some(Own(r)), r);
        }
      }
    } else if Recoverable(r, node) {
      e' := e'.(cleanup := Some(if r.transport.VirtioFS? then Own(r) else Opaque));
      if r.transport.VirtioFS? {
        e' := e'.(result := WithState(e.result, Mounted));
      }
    } else {
      e' := e'.(cleanup := None);
    }
  }
}
