/** The records, results and kernel view shared by the managed-share protocol. */
module ShareModel {
  import opened Options
  import opened Paths

  type ShareId = string

  datatype Transport = VirtioFS | OtherTransport(name: string)

  /** A mount request.  `rest` stands for the port, the user and group ids and the credentials. */
  datatype Request = Request(id: ShareId, gen: nat, path: Path, source: string, transport: Transport, ro: bool, rest: string)

  // ---- Kernel -------------------------------------------------------------

  /** A directory seen through the mount `mid` that holds it. */
  datatype Dir = Dir(mid: nat, dev: nat, ino: nat)

  datatype Owner = Owner(id: ShareId, gen: nat)

  /** A mount.  `uid` is never reused, `mid` may be; `owner` is a ghost tag that no decision reads. */
  datatype Mount = Mount(uid: nat, mid: nat, dev: nat, ino: nat, virtiofs: bool, source: string, ro: bool, owner: Option<Owner>)

  /** For each target: its own directory, and the mounts stacked on it, topmost last. */
  datatype Kernel = Kernel(layers: map<Path, seq<Mount>>, base: map<Path, Dir>, nextUid: nat)

  function Layers(k: Kernel, p: Path): seq<Mount> {
    if p in k.layers then k.layers[p] else []
  }

  ghost predicate MountOk(k: Kernel, p: Path, x: Mount) {
    && p in k.base
    && 0 < x.uid < k.nextUid
    && 0 < x.mid && x.mid != k.base[p].mid
  }

  ghost predicate KernelOk(k: Kernel) {
    && (forall p, i :: 0 <= i < |Layers(k, p)| ==> MountOk(k, p, Layers(k, p)[i]))
    && (forall p :: p in k.base ==> 0 < k.base[p].mid)
    && 0 < k.nextUid
  }

  ghost predicate Unique(k: Kernel) {
    forall p, i, q, j :: 0 <= i < |Layers(k, p)| && 0 <= j < |Layers(k, q)| && Layers(k, p)[i].uid == Layers(k, q)[j].uid ==>
      p == q && i == j
  }

  /** What a descriptor opened at a target shows: the topmost mount, or the directory itself. */
  datatype Node = Node(mid: nat, uid: nat, dev: nat, ino: nat, virtiofs: bool, source: string, ro: bool, parentMid: nat)

  function View(k: Kernel, p: Path): Option<Node> {
    if p !in k.base then None
    else if Layers(k, p) == [] then Some(Node(k.base[p].mid, 0, k.base[p].dev, k.base[p].ino, false, "", false, k.base[p].mid))
    else
      var m := Layers(k, p)[|Layers(k, p)| - 1];
      Some(Node(m.mid, m.uid, m.dev, m.ino, m.virtiofs, m.source, m.ro, k.base[p].mid))
  }

  /** Anything other software may do at one target: mount over it, unmount from it, replace its
      directory.  It cannot make a mount the agent created, and it cannot replace the directory
      under a mount that stays. */
  ghost predicate ForeignChange(k: Kernel, k': Kernel, p: Path) {
    && KernelOk(k') && Unique(k')
    && (forall q :: q != p ==> Layers(k', q) == Layers(k, q))
    && (forall q :: q != p ==> (q in k'.base <==> q in k.base))
    && (forall q :: q != p && q in k.base ==> k'.base[q] == k.base[q])
    && k.nextUid <= k'.nextUid
    && (forall i :: 0 <= i < |Layers(k', p)| ==>
          || Layers(k', p)[i] in Layers(k, p)
          || (Layers(k', p)[i].owner.None? && k.nextUid <= Layers(k', p)[i].uid))
    && ((exists i :: 0 <= i < |Layers(k', p)| && Layers(k', p)[i] in Layers(k, p)) ==>
          p in k.base && p in k'.base && k'.base[p] == k.base[p])
  }

  function Push(k: Kernel, p: Path, m: Mount): Kernel {
    k.(layers := k.layers[p := Layers(k, p) + [m]])
  }

  function Pop(k: Kernel, p: Path): Kernel
    requires Layers(k, p) != []
  {
    k.(layers := k.layers[p := Layers(k, p)[..|Layers(k, p)| - 1]])
  }

  // ---- Journal ------------------------------------------------------------

  datatype Phase = NoPhase | Preparing | Attaching | Detaching

  datatype RecState = RPending | RMounted | RAbsent

  /** One journal record.  The request stands for its injective fingerprint. */
  datatype Record = Record(boot: nat, id: ShareId, gen: nat, path: Path, source: string, transport: Transport, ro: bool,
                           mid: nat, uid: nat, target: Dir, phase: Phase, fingerprint: Request, state: RecState)

  const NO_DIR := Dir(0, 0, 0)

  function NewRecord(s: Request, boot: nat): Record {
    Record(boot, s.id, s.gen, s.path, s.source, s.transport, s.ro, 0, 0, NO_DIR,
           if s.transport.VirtioFS? then Preparing else NoPhase, s, RPending)
  }

  datatype ShareState = Absent | Mounted | RecoveryRequired

  datatype Code = NoError | InvalidRequest | BootMismatch | BootIdUnavailable | RecoveryRequiredCode | StaleGeneration
                | Conflict | PathInUse | NotFound | MountFailed | NotImplemented | MissingPrerequisite
                | TransportUnavailable | UnmountFailed | Busy

  datatype ShareResult = ShareResult(ok: bool, id: ShareId, gen: nat, state: ShareState, code: Code,
                                     path: Path, transport: Transport, ro: bool)

  function Plain(id: ShareId, gen: nat, code: Code): ShareResult {
    ShareResult(code == NoError, id, gen, Absent, code, [], OtherTransport(""), false)
  }

  function PendingResult(r: Record): ShareResult {
    ShareResult(false, r.id, r.gen, RecoveryRequired, RecoveryRequiredCode, r.path, r.transport, r.ro)
  }

  function WithState(r: ShareResult, state: ShareState): ShareResult {
    match state
    case RecoveryRequired => r.(ok := false, code := RecoveryRequiredCode, state := state)
    case _ => r.(ok := true, code := NoError, state := state)
  }

  /** The cleanup closure of an entry: for virtiofs it captures a copy of the record. */
  datatype Cleanup = Own(r: Record) | Opaque

  datatype Entry = Entry(result: ShareResult, cleanup: Option<Cleanup>, intent: Record)

  // ---- Recovery of one record --------------------------------------------

  /** The mount at the target is the recorded one: unique id, source and read-only policy agree. */
  predicate Verified(r: Record, n: Node) {
    && r.uid != 0 && n.mid == r.mid && n.uid == r.uid
    && n.virtiofs && n.source == r.source && n.ro == r.ro
  }

  /** recoverShareIntent and the check its cleanup closure repeats; `node` is None when a read fails. */
  predicate Recoverable(r: Record, node: Option<Node>) {
    && r.state == RMounted && r.mid != 0
    && node.Some? && node.value.mid != node.value.parentMid
    && node.value.mid == r.mid
    && (r.transport.VirtioFS? ==> Verified(r, node.value))
  }

  datatype Verdict = SaysAbsent | SaysMounted | Undecided

  /** recoverVirtioFSPending: ours, the original target, or foreign. */
  function PendingVerdict(r: Record, node: Option<Node>): Verdict {
    if r.phase == Preparing then SaysAbsent
    else if r.uid == 0 || r.mid == 0 || r.target.ino == 0 || r.target.mid == 0 || (r.phase != Attaching && r.phase != Detaching) then Undecided
    else if node.None? then Undecided
    else if node.value.mid == r.target.mid && node.value.dev == r.target.dev && node.value.ino == r.target.ino then SaysAbsent
    else if node.value.mid != r.mid then Undecided
    else if Recoverable(r.(state := RMounted), node) then SaysMounted
    else Undecided
  }

  /** What a restart decides about a virtiofs record. */
  function RecoveryVerdict(r: Record, node: Option<Node>): Verdict {
    if r.state == RAbsent then SaysAbsent
    else if r.state == RPending && r.phase != NoPhase then PendingVerdict(r, node)
    else if Recoverable(r, node) then SaysMounted
    else Undecided
  }
}
