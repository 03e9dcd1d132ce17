/** The crash-safe protocol of the share manager as a transition system: the durable journal, the
    kernel's mounts, the volatile manager and its place inside the running operation.  A crash may
    happen between any two steps, and other software may act between any two steps. */
module ShareProtocol {
  import opened Options
  import opened Paths
  import opened ShareModel

  /** Where the running operation is, and what only its stack frame holds. */
  datatype Hand =
    | Idle
    | Starting(id: ShareId)          // the entry is in memory, the record not yet known durable
    | Ready(id: ShareId)             // the record is durable, the backend not yet called
    | Invoked(id: ShareId)           // inside the backend
    | Opened(id: ShareId, dir: Dir)  // virtiofs: the target was opened, empty and unmounted
    | Holding(id: ShareId, m: Mount) // a detached mount exists, its identity is in memory
    | Armed(id: ShareId, m: Mount)   // its identity is durable
    | Landed(id: ShareId)            // move_mount succeeded
    | Adopted(id: ShareId)           // the backend returned a cleanup
    | Landing(id: ShareId)           // "mounted" is in memory, not yet durable
    | Aborting(id: ShareId)          // "absent" is in memory after a failure without effect
    | Leaving(id: ShareId)           // "detaching" is in memory
    | Cleared(id: ShareId)           // "detaching" is durable
    | Gone(id: ShareId)              // unmounted, "absent" not yet durable

  datatype Mem = Mem(entries: map<ShareId, Entry>, loaded: bool, todo: set<ShareId>, hand: Hand)

  datatype Invocation = Invocation(boot: nat, id: ShareId, gen: nat)

  /** `touched` are the targets other software changed since the agent last opened them. */
  datatype Sys = Sys(boot: nat, disk: map<ShareId, Record>, kernel: Kernel, mem: Option<Mem>,
                     invoked: seq<Invocation>, touched: set<Path>)

  datatype Action =
    | Crash | Reboot | Env(p: Path)
    | Load | RecoverOne(id: ShareId, node: Option<Node>) | Save(ok: bool)
    | Begin(s: Request) | Invoke(id: ShareId) | Open(id: ShareId) | Create(id: ShareId, m: Mount) | Attach(id: ShareId)
    | Adopt(id: ShareId) | OtherReturns(id: ShareId) | Capture(id: ShareId, mid: nat) | Abort(id: ShareId) | GiveUp
    | Leave(id: ShareId) | Detach(id: ShareId) | Retry(id: ShareId)

  // ---- Volatile state -----------------------------------------------------

  function Intents(entries: map<ShareId, Entry>): map<ShareId, Record> {
    map id | id in entries :: entries[id].intent
  }

  function LoadEntry(r: Record): Entry {
    Entry(if r.state == RAbsent then WithState(PendingResult(r), Absent) else PendingResult(r), None, r)
  }

  /** recoverShareBatch on one entry. */
  function RecoverEntry(e: Entry, node: Option<Node>): Entry {
    var r := e.intent;
    if r.state == RAbsent then e
    else if r.transport.VirtioFS? && r.state == RPending && r.phase != NoPhase then
      match PendingVerdict(r, node)
      case SaysAbsent => e.(intent := r.(state := RAbsent), result := WithState(e.result, Absent))
      case SaysMounted => Entry(WithState(e.result, Mounted), Some(Own(r.(state := RMounted))), r.(state := RMounted))
      case Undecided => e
    else if Recoverable(r, node) then
      e.(cleanup := Some(if r.transport.VirtioFS? then Own(r) else Opaque),
         result := if r.transport.VirtioFS? then WithState(e.result, Mounted) else e.result)
    else e.(cleanup := None)
  }

  function NewEntry(s: Request, boot: nat): Entry {
    Entry(PendingResult(NewRecord(s, boot)), None, NewRecord(s, boot))
  }

  predicate Claims(e: Entry) { e.result.state != Absent }

  /** The checks of `mount` before it touches anything. */
  predicate Admissible(entries: map<ShareId, Entry>, s: Request) {
    && s.gen != 0
    && (s.id in entries ==> entries[s.id].result.state == Absent && entries[s.id].result.gen < s.gen)
    && (forall id :: id in entries && Claims(entries[id]) ==> !Overlap(entries[id].result.path, s.path))
  }

  function SetIntent(m: Mem, id: ShareId, r: Record, h: Hand): Mem
    requires id in m.entries
  {
    m.(entries := m.entries[id := m.entries[id].(intent := r)], hand := h)
  }

  function TornDown(r: Record): Record {
    r.(state := RPending, phase := if r.transport.VirtioFS? && r.uid != 0 then Detaching else r.phase)
  }

  /** What a save, successful or not, leads to. */
  function AfterSave(m: Mem, ok: bool): Mem {
    if !m.loaded then m.(loaded := ok)
    else match m.hand
      case Starting(id) => m.(hand := if ok then Ready(id) else Idle)
      case Holding(id, x) => m.(hand := if ok then Armed(id, x) else Idle)
      case Landing(id) =>
        if ok && id in m.entries then m.(hand := Idle, entries := m.entries[id := m.entries[id].(result := WithState(m.entries[id].result, Mounted))])
        else m.(hand := Idle)
      case Aborting(id) =>
        if id !in m.entries then m
        else if ok then m.(hand := Idle, entries := m.entries[id := m.entries[id].(result := Plain(m.entries[id].result.id, m.entries[id].result.gen, NoError))])
        else SetIntent(m, id, m.entries[id].intent.(state := RPending), Idle)
      case Leaving(id) => m.(hand := if ok then Cleared(id) else Idle)
      case Gone(id) =>
        if ok && id in m.entries then m.(hand := Idle, entries := m.entries[id := m.entries[id].(result := WithState(m.entries[id].result, Absent))])
        else m.(hand := Idle)
      case _ => m
  }

  predicate CanSave(m: Mem) {
    if !m.loaded then m.todo == {}
    else m.hand.Starting? || m.hand.Holding? || m.hand.Landing? || m.hand.Aborting? || m.hand.Leaving? || m.hand.Gone?
  }

  // ---- Steps --------------------------------------------------------------

  ghost predicate Init(s: Sys) {
    && s.disk == map[] && s.mem == None && s.invoked == [] && s.touched == {}
    && KernelOk(s.kernel) && Unique(s.kernel) && NoAgentMounts(s.kernel)
  }

  ghost predicate NoAgentMounts(k: Kernel) {
    forall p, i :: 0 <= i < |Layers(k, p)| ==> Layers(k, p)[i].owner.None?
  }

  ghost predicate RebootStep(s: Sys, s': Sys) {
    && s'.boot == s.boot + 1 && s'.invoked == s.invoked && s'.disk == map[] && s'.mem == None && s'.touched == {}
    && KernelOk(s'.kernel) && Unique(s'.kernel) && NoAgentMounts(s'.kernel)
  }

  ghost predicate EnvStep(s: Sys, p: Path, s': Sys) {
    ForeignChange(s.kernel, s'.kernel, p) && s' == s.(kernel := s'.kernel, touched := s.touched + {p})
  }

  function Loaded(disk: map<ShareId, Record>): Mem {
    Mem(map id | id in disk :: LoadEntry(disk[id]), false, (set id | id in disk && disk[id].state != RAbsent), Idle)
  }

  ghost predicate LoadStep(s: Sys, s': Sys) {
    && (s.mem.Some? ==> !s.mem.value.loaded)
    && s' == s.(mem := Some(Loaded(s.disk)))
  }

  ghost predicate RecoverOneStep(s: Sys, m: Mem, id: ShareId, node: Option<Node>, s': Sys) {
    && !m.loaded && id in m.todo && id in m.entries
    && (node == None || node == View(s.kernel, m.entries[id].intent.path))
    && s' == s.(mem := Some(m.(todo := m.todo - {id}, entries := m.entries[id := RecoverEntry(m.entries[id], node)])))
  }

  /** A failed save leaves the old or the new content. */
  ghost predicate SaveStep(s: Sys, m: Mem, ok: bool, s': Sys) {
    && CanSave(m)
    && (s'.disk == Intents(m.entries) || (!ok && s'.disk == s.disk))
    && s' == s.(disk := s'.disk, mem := Some(AfterSave(m, ok)))
  }

  ghost predicate BeginStep(s: Sys, m: Mem, q: Request, s': Sys) {
    && m.loaded && m.hand == Idle && Admissible(m.entries, q)
    && s' == s.(mem := Some(m.(entries := m.entries[q.id := NewEntry(q, s.boot)], hand := Starting(q.id))))
  }

  ghost predicate InvokeStep(s: Sys, m: Mem, id: ShareId, s': Sys) {
    && m.hand == Ready(id) && id in m.entries
    && s' == s.(mem := Some(m.(hand := Invoked(id))), invoked := s.invoked + [Invocation(s.boot, id, m.entries[id].intent.gen)])
  }

  ghost predicate OpenStep(s: Sys, m: Mem, id: ShareId, s': Sys) {
    && m.hand == Invoked(id) && id in m.entries && m.entries[id].intent.transport.VirtioFS?
    && var p := m.entries[id].intent.path;
    && p in s.kernel.base && Layers(s.kernel, p) == [] && s.kernel.base[p].ino != 0
    && s' == s.(mem := Some(m.(hand := Opened(id, s.kernel.base[p]))), touched := s.touched - {p})
  }

  ghost predicate CreateStep(s: Sys, m: Mem, id: ShareId, x: Mount, s': Sys) {
    && m.hand.Opened? && m.hand.id == id && id in m.entries
    && var r := m.entries[id].intent;
    && x.uid == s.kernel.nextUid && x.mid != 0 && x.mid != m.hand.dir.mid
    && x.virtiofs && x.source == r.source && x.ro == r.ro && x.owner == Some(Owner(id, r.gen))
    && s' == s.(kernel := s.kernel.(nextUid := x.uid + 1),
                mem := Some(SetIntent(m, id, r.(mid := x.mid, uid := x.uid, target := m.hand.dir, phase := Attaching), Holding(id, x))))
  }

  ghost predicate AttachStep(s: Sys, m: Mem, id: ShareId, s': Sys) {
    && m.hand.Armed? && m.hand.id == id && id in m.entries
    && var r := m.entries[id].intent;
    && r.path in s.kernel.base && s.kernel.base[r.path] == r.target
    && s' == s.(kernel := Push(s.kernel, r.path, m.hand.m), mem := Some(SetIntent(m, id, r.(state := RMounted), Landed(id))))
  }

  ghost predicate AdoptStep(s: Sys, m: Mem, id: ShareId, s': Sys) {
    && m.hand == Landed(id) && id in m.entries
    && var r := m.entries[id].intent;
    && Recoverable(r, View(s.kernel, r.path))
    && s' == s.(mem := Some(m.(entries := m.entries[id := m.entries[id].(cleanup := Some(Own(r)))], hand := Adopted(id))))
  }

  ghost predicate OtherReturnsStep(s: Sys, m: Mem, id: ShareId, s': Sys) {
    && m.hand == Invoked(id) && id in m.entries && !m.entries[id].intent.transport.VirtioFS?
    && s' == s.(mem := Some(m.(entries := m.entries[id := m.entries[id].(cleanup := Some(Opaque))], hand := Adopted(id))))
  }

  ghost predicate CaptureStep(s: Sys, m: Mem, id: ShareId, mid: nat, s': Sys) {
    && m.hand == Adopted(id) && id in m.entries
    && (m.entries[id].intent.transport.VirtioFS? ==> mid == m.entries[id].intent.mid)
    && s' == s.(mem := Some(SetIntent(m, id, m.entries[id].intent.(mid := mid, state := RMounted), Landing(id))))
  }

  /** A failure without effect: an error before the mount was attached. */
  ghost predicate AbortStep(s: Sys, m: Mem, id: ShareId, s': Sys) {
    && (m.hand.Invoked? || m.hand.Opened? || m.hand.Armed?) && m.hand.id == id && id in m.entries
    && s' == s.(mem := Some(SetIntent(m, id, m.entries[id].intent.(state := RAbsent), Aborting(id))))
  }

  /** The operation returns without a further save: an uncertain failure. */
  ghost predicate GiveUpStep(s: Sys, m: Mem, s': Sys) {
    && (m.hand.Landed? || m.hand.Adopted? || m.hand.Invoked? || m.hand.Cleared?)
    && (m.hand.Invoked? && m.hand.id in m.entries ==> !m.entries[m.hand.id].intent.transport.VirtioFS?)
    && s' == s.(mem := Some(m.(hand := Idle)))
  }

  ghost predicate LeaveStep(s: Sys, m: Mem, id: ShareId, s': Sys) {
    && m.loaded && m.hand == Idle && id in m.entries && m.entries[id].cleanup.Some? && Claims(m.entries[id])
    && s' == s.(mem := Some(SetIntent(m, id, TornDown(m.entries[id].intent), Leaving(id))))
  }

  /** The cleanup closure: the identity check and the unmount are one step. */
  ghost predicate DetachStep(s: Sys, m: Mem, id: ShareId, s': Sys) {
    && m.hand == Cleared(id) && id in m.entries && m.entries[id].cleanup.Some?
    && var e := m.entries[id];
    && (e.cleanup.value.Own? ==>
          && Recoverable(e.cleanup.value.r, View(s.kernel, e.cleanup.value.r.path))
          && Layers(s.kernel, e.cleanup.value.r.path) != [])
    && s' == s.(kernel := if e.cleanup.value.Own? then Pop(s.kernel, e.cleanup.value.r.path) else s.kernel,
                mem := Some(m.(entries := m.entries[id := Entry(WithState(e.result, RecoveryRequired), None, e.intent.(state := RAbsent))],
                               hand := Gone(id))))
  }

  ghost predicate RetryStep(s: Sys, m: Mem, id: ShareId, s': Sys) {
    && m.loaded && m.hand == Idle && id in m.entries && m.entries[id].cleanup.None? && Claims(m.entries[id])
    && m.entries[id].intent.state == RAbsent
    && s' == s.(mem := Some(m.(hand := Gone(id))))
  }

  ghost predicate Next(s: Sys, a: Action, s': Sys) {
    match a
    case Crash => s' == s.(mem := None)
    case Reboot => RebootStep(s, s')
    case Env(p) => EnvStep(s, p, s')
    case Load => LoadStep(s, s')
    case _ => s.mem.Some? && Operate(s, s.mem.value, a, s')
  }

  ghost predicate Operate(s: Sys, m: Mem, a: Action, s': Sys) {
    match a
    case RecoverOne(id, node) => RecoverOneStep(s, m, id, node, s')
    case Save(ok) => SaveStep(s, m, ok, s')
    case Begin(q) => BeginStep(s, m, q, s')
    case Invoke(id) => InvokeStep(s, m, id, s')
    case Open(id) => OpenStep(s, m, id, s')
    case Create(id, x) => CreateStep(s, m, id, x, s')
    case Attach(id) => AttachStep(s, m, id, s')
    case Adopt(id) => AdoptStep(s, m, id, s')
    case OtherReturns(id) => OtherReturnsStep(s, m, id, s')
    case Capture(id, mid) => CaptureStep(s, m, id, mid, s')
    case Abort(id) => AbortStep(s, m, id, s')
    case GiveUp => GiveUpStep(s, m, s')
    case Leave(id) => LeaveStep(s, m, id, s')
    case Detach(id) => DetachStep(s, m, id, s')
    case Retry(id) => RetryStep(s, m, id, s')
    case _ => false
  }

  // ---- Invariant ----------------------------------------------------------

  ghost predicate Attached(k: Kernel, id: ShareId, gen: nat) {
    exists p, i :: 0 <= i < |Layers(k, p)| && Layers(k, p)[i].owner == Some(Owner(id, gen))
  }

  /** At an untouched target there is the recorded directory, with at most the agent's own mount on it. */
  ghost predicate QuietOk(r: Record, k: Kernel) {
    && r.path in k.base && k.base[r.path] == r.target
    && (|| (Layers(k, r.path) == [] && r.state != RMounted)
        || (|Layers(k, r.path)| == 1 && Layers(k, r.path)[0].owner == Some(Owner(r.id, r.gen))))
  }

  ghost predicate RecOk(id: ShareId, r: Record, k: Kernel, touched: set<Path>, boot: nat) {
    && r.id == id && r.boot == boot && 0 < r.gen && r.uid < k.nextUid
    && (!r.transport.VirtioFS? ==> r.phase == NoPhase && r.uid == 0)
    && (r.transport.VirtioFS? && r.state != RAbsent ==>
          || (r.phase == Preparing && r.uid == 0 && r.state == RPending)
          || (&& (r.phase == Attaching || r.phase == Detaching)
              && r.uid != 0 && r.mid != 0 && r.target.ino != 0 && r.target.mid != 0 && r.mid != r.target.mid
              && (r.path !in touched ==> QuietOk(r, k))))
    && (forall p, i :: 0 <= i < |Layers(k, p)| && Layers(k, p)[i].uid == r.uid ==> Layers(k, p)[i].owner == Some(Owner(id, r.gen)))
  }

  ghost predicate Describes(r: Record, p: Path, x: Mount, k: Kernel) {
    && r.transport.VirtioFS? && r.state != RAbsent && r.path == p
    && x.owner == Some(Owner(r.id, r.gen)) && r.uid == x.uid && r.mid == x.mid
    && x.virtiofs && x.source == r.source && x.ro == r.ro
    && p in k.base && k.base[p] == r.target
  }

  /** No agent mount without a record that describes it. */
  ghost predicate NoOrphans(rs: map<ShareId, Record>, k: Kernel) {
    forall p, i :: 0 <= i < |Layers(k, p)| && Layers(k, p)[i].owner.Some? ==>
      var id := Layers(k, p)[i].owner.value.id;
      id in rs && Describes(rs[id], p, Layers(k, p)[i], k)
  }

  ghost predicate Disjoint(rs: map<ShareId, Record>) {
    forall a, b :: a in rs && b in rs && a != b && rs[a].state != RAbsent && rs[b].state != RAbsent ==> !Overlap(rs[a].path, rs[b].path)
  }

  ghost predicate UidsDiffer(rs: map<ShareId, Record>) {
    forall a, b :: a in rs && b in rs && a != b && rs[a].uid != 0 ==> rs[a].uid != rs[b].uid
  }

  ghost predicate JournalOk(rs: map<ShareId, Record>, k: Kernel, touched: set<Path>, boot: nat) {
    && (forall id :: id in rs ==> RecOk(id, rs[id], k, touched, boot))
    && Disjoint(rs) && UidsDiffer(rs) && NoOrphans(rs, k)
  }

  ghost predicate EntryOk(id: ShareId, e: Entry) {
    && e.result.id == id && e.intent.id == id && e.result.gen == e.intent.gen
    && (e.result.state == Absent ==> e.result.ok && e.intent.state == RAbsent && e.cleanup.None?)
    && (e.result.state == Mounted ==> e.result.ok && e.cleanup.Some?)
    && (e.result.state == RecoveryRequired ==> !e.result.ok)
    && (Claims(e) ==> e.result.path == e.intent.path)
    && (e.cleanup.Some? ==> e.intent.state != RAbsent && (e.cleanup.value.Own? <==> e.intent.transport.VirtioFS?))
    && (e.cleanup.Some? && e.cleanup.value.Own? ==>
          e.intent.uid != 0 && e.cleanup.value.r == e.intent.(state := RMounted, phase := e.cleanup.value.r.phase))
  }

  ghost predicate ClaimsDisjoint(es: map<ShareId, Entry>) {
    forall a, b :: a in es && b in es && a != b && Claims(es[a]) && Claims(es[b]) ==> !Overlap(es[a].result.path, es[b].result.path)
  }

  /** An entry reported as mounted really is, unless other software touched the target. */
  ghost predicate MountedOk(es: map<ShareId, Entry>, k: Kernel, touched: set<Path>) {
    forall id :: id in es && es[id].result.state == Mounted && es[id].intent.transport.VirtioFS? && es[id].intent.path !in touched ==>
      Attached(k, id, es[id].intent.gen)
  }

  /** How the volatile entries relate to the durable records. */
  ghost predicate LinkOk(disk: map<ShareId, Record>, es: map<ShareId, Entry>, loaded: bool, todo: set<ShareId>) {
    && (forall id :: id in disk ==>
          && id in es && disk[id].gen <= es[id].intent.gen
          && (disk[id].gen < es[id].intent.gen ==> disk[id].state == RAbsent))
    && (if loaded then todo == {} else todo <= es.Keys)
    && (loaded ==>
          forall id :: id in es && !Claims(es[id]) ==> id in disk && disk[id].gen == es[id].intent.gen && disk[id].state == RAbsent)
    && (!loaded ==>
          forall id :: id in es ==>
            id in disk && disk[id].gen == es[id].intent.gen && (disk[id].state == RAbsent || es[id].intent.state == RAbsent ==> !Claims(es[id])))
    && (forall id :: id in es && (es[id].intent.state == RAbsent || es[id].cleanup.Some?) ==> id in disk && disk[id].gen == es[id].intent.gen)
    && (forall id :: id in todo && id in es ==>
          es[id].intent.state != RAbsent && es[id].result.state == RecoveryRequired && es[id].cleanup.None?)
  }

  ghost predicate InvokedBelow(log: seq<Invocation>, boot: nat, id: ShareId, gen: nat) {
    forall i :: 0 <= i < |log| && log[i].boot == boot && log[i].id == id ==> log[i].gen < gen
  }

  ghost predicate Detached(x: Mount, r: Record, k: Kernel) {
    && x.uid == r.uid && x.mid == r.mid && x.virtiofs && x.source == r.source && x.ro == r.ro
    && x.owner == Some(Owner(r.id, r.gen)) && x.mid != r.target.mid && 0 < x.uid
    && (forall p, i :: 0 <= i < |Layers(k, p)| ==> Layers(k, p)[i].uid != x.uid)
  }

  /** What the place inside the operation says about the entry it works on. */
  ghost predicate Stage(h: Hand, e: Entry, k: Kernel, touched: set<Path>, boot: nat) {
    var r := e.intent;
    match h
    case Idle => true
    case Starting(_) => e.cleanup.None? && r.state == RPending && r.uid == 0
    case Ready(_) => e.cleanup.None? && r.state == RPending && r.uid == 0
    case Invoked(_) => e.cleanup.None? && r.state == RPending && r.uid == 0
    case Opened(_, d) =>
      && e.cleanup.None? && r.state == RPending && r.uid == 0 && r.transport.VirtioFS? && d.mid != 0 && d.ino != 0
      && (r.path !in touched ==> r.path in k.base && k.base[r.path] == d && Layers(k, r.path) == [])
    case Holding(_, x) => e.cleanup.None? && r.state == RPending && r.transport.VirtioFS? && r.phase == Attaching && Detached(x, r, k)
    case Armed(_, x) => e.cleanup.None? && r.state == RPending && r.transport.VirtioFS? && r.phase == Attaching && Detached(x, r, k)
    case Landed(_) => e.cleanup.None? && r.state == RMounted && r.transport.VirtioFS?
    case Adopted(_) => e.cleanup.Some? && (r.transport.VirtioFS? ==> r.state == RMounted)
    case Landing(_) => e.cleanup.Some? && r.state == RMounted
    case Aborting(_) => e.cleanup.None? && r.state == RAbsent && RecOk(r.id, r.(state := RPending), k, touched, boot)
    case Leaving(_) => e.cleanup.Some? && r.state == RPending && (r.transport.VirtioFS? ==> r.phase == Detaching)
    case Cleared(_) => e.cleanup.Some? && r.state == RPending && (r.transport.VirtioFS? ==> r.phase == Detaching)
    case Gone(_) => e.cleanup.None? && r.state == RAbsent
  }

  predicate Durable(h: Hand) { h.Ready? || h.Invoked? || h.Opened? || h.Armed? || h.Cleared? }

  ghost predicate HandOk(s: Sys, m: Mem) {
    m.hand != Idle ==>
      var id := m.hand.id;
      && m.loaded && id in m.entries
      && Stage(m.hand, m.entries[id], s.kernel, s.touched, s.boot)
      && Claims(m.entries[id])
      && (!m.hand.Leaving? && !m.hand.Cleared? ==> m.entries[id].result.state == RecoveryRequired)
      && (!m.hand.Starting? ==> id in s.disk && s.disk[id].gen == m.entries[id].intent.gen)
      && (Durable(m.hand) ==> s.disk == Intents(m.entries))
      && (m.hand.Starting? || m.hand.Ready? ==> InvokedBelow(s.invoked, s.boot, id, m.entries[id].intent.gen))
  }

  /** The part of the invariant that speaks of entries and mounts only. */
  ghost predicate EntriesOk(es: map<ShareId, Entry>, k: Kernel, touched: set<Path>, boot: nat) {
    && JournalOk(Intents(es), k, touched, boot)
    && (forall id :: id in es ==> EntryOk(id, es[id]))
    && ClaimsDisjoint(es)
    && MountedOk(es, k, touched)
  }

  ghost predicate MemOk(s: Sys, m: Mem) {
    && EntriesOk(m.entries, s.kernel, s.touched, s.boot)
    && LinkOk(s.disk, m.entries, m.loaded, m.todo)
    && HandOk(s, m)
  }

  /** Backend calls of this boot are covered by the journal; per boot and share, generations increase. */
  ghost predicate InvokedOk(log: seq<Invocation>, boot: nat, disk: map<ShareId, Record>) {
    && (forall i :: 0 <= i < |log| ==> log[i].boot <= boot)
    && (forall i :: 0 <= i < |log| && log[i].boot == boot ==> log[i].id in disk && log[i].gen <= disk[log[i].id].gen)
    && (forall i, j :: 0 <= i < j < |log| && log[i].boot == log[j].boot && log[i].id == log[j].id ==> log[i].gen < log[j].gen)
  }

  ghost predicate Inv(s: Sys) {
    && KernelOk(s.kernel) && Unique(s.kernel)
    && JournalOk(s.disk, s.kernel, s.touched, s.boot)
    && InvokedOk(s.invoked, s.boot, s.disk)
    && (s.mem.Some? ==> MemOk(s, s.mem.value))
  }
}
