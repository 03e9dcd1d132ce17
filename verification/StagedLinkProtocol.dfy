/** Publication of a share's symbolic link through a private staging directory, and its removal, as steps
    between which the agent may be killed.  Other software may put objects at the destination and may
    delete objects, but it does not enter the staging directory. */
module StagedLinkProtocol {
  import opened Options
  import opened Text
  import opened Paths
  import opened LinkRecords

  datatype Kind = Directory | Symlink(target: string) | Plain

  /** `mine` is a ghost tag: the agent made the object. */
  datatype Node = Node(kind: Kind, id: FileId, mine: bool)

  type Disk = map<Path, Node>

  /** Where the publication is; from `Staged` on, `mem` is the record it works on. */
  datatype Pc = Resting | Staged | Recorded | Linked | Known | Readied | Moved | Announced | Emptied

  datatype State = State(disk: Disk, next: nat, durable: LinkRecord, mem: LinkRecord, pc: Pc)

  datatype Action =
    | Crash | Rewrite | Foreign(path: Path) | Vanish(path: Path)
    | MakeStage(stage: Path) | MakeLink | Identify | Move | Persist(ok: bool) | Abandon
    | RemoveDest | RemoveStagedLink | RemoveStage

  function LinkIn(stage: Path): Path { stage + ["link"] }

  /** A symbolic link to the source, with a usable identity. */
  predicate IsLink(disk: Disk, path: Path, source: string) {
    path in disk && disk[path].kind.Symlink? && EqualFold(disk[path].kind.target, source) && disk[path].id.index != 0
  }

  // ---- Steps --------------------------------------------------------------

  predicate Reserved(r: LinkRecord, path: Path) { r.stage.Some? && r.stage.value.path <= path }

  ghost predicate ForeignStep(s: State, path: Path, s': State) {
    && path !in s.disk && !Reserved(s.durable, path) && !Reserved(s.mem, path)
    && path in s'.disk && !s'.disk[path].mine && s'.disk[path].id.index == s.next
    && s' == s.(disk := s.disk[path := s'.disk[path]], next := s.next + 1)
  }

  ghost predicate VanishStep(s: State, path: Path, s': State) {
    && (forall q :: q in s.disk && path <= q ==> q == path)
    && s' == s.(disk := s.disk - {path})
  }

  ghost predicate MakeStageStep(s: State, p: Path, s': State) {
    && s.pc == Resting && s.mem == s.durable && s.durable.phase == Unstaged && s.durable.stage == None && s.durable.link == None
    && (forall q :: q in s.disk ==> !(p <= q) && !s.disk[q].mine)
    && p in s'.disk && s'.disk[p].kind == Directory && s'.disk[p].mine && s'.disk[p].id.index == s.next
    && var r := s.mem.(phase := Staging, stage := Some(Stage(p, s'.disk[p].id)));
    && ValidStage(r) && r.path != p
    && s' == s.(disk := s.disk[p := s'.disk[p]], next := s.next + 1, mem := r, pc := Staged)
  }

  ghost predicate MakeLinkStep(s: State, s': State) {
    && s.pc == Recorded && s.mem.stage.Some?
    && var p := s.mem.stage.value.path;
    && p in s.disk && LinkIn(p) !in s.disk
    && IsLink(s'.disk, LinkIn(p), s.mem.source) && s'.disk[LinkIn(p)].mine && s'.disk[LinkIn(p)].id.index == s.next
    && s' == s.(disk := s.disk[LinkIn(p) := s'.disk[LinkIn(p)]], next := s.next + 1, pc := Linked)
  }

  ghost predicate IdentifyStep(s: State, s': State) {
    && s.pc == Linked && s.mem.stage.Some?
    && var l := LinkIn(s.mem.stage.value.path);
    && IsLink(s.disk, l, s.mem.source)
    && s' == s.(mem := s.mem.(link := Some(s.disk[l].id), phase := Ready), pc := Known)
  }

  ghost predicate MoveStep(s: State, s': State) {
    && s.pc == Readied && s.mem.stage.Some? && s.mem.path !in s.disk
    && var l := LinkIn(s.mem.stage.value.path);
    && l in s.disk
    && s' == s.(disk := (s.disk - {l})[s.mem.path := s.disk[l]], mem := s.mem.(phase := Published), pc := Moved)
  }

  function AfterPersist(pc: Pc): Pc {
    match pc
    case Staged => Recorded
    case Known => Readied
    case Moved => Announced
    case _ => Resting
  }

  /** A failed save leaves the old or the new record. */
  ghost predicate PersistStep(s: State, ok: bool, s': State) {
    && s.pc in {Staged, Known, Moved, Emptied}
    && (s'.durable == s.mem || (!ok && s'.durable == s.durable))
    && s' == s.(durable := s'.durable, pc := if ok then AfterPersist(s.pc) else Resting)
  }

  ghost predicate RemoveDestStep(s: State, s': State) {
    && s.pc == Resting && IsLink(s.disk, s.durable.path, s.durable.source) && s.durable.link == Some(s.disk[s.durable.path].id)
    && s' == s.(disk := s.disk - {s.durable.path})
  }

  ghost predicate RemoveStagedLinkStep(s: State, s': State) {
    && s.pc in {Resting, Announced} && s.durable.stage.Some?
    && var d := s.durable.stage.value;
    && d.path in s.disk && s.disk[d.path].id == d.id && IsLink(s.disk, LinkIn(d.path), s.durable.source)
    && (s.durable.link == None || s.durable.link == Some(s.disk[LinkIn(d.path)].id))
    && s' == s.(disk := s.disk - {LinkIn(d.path)})
  }

  ghost predicate RemoveStageStep(s: State, s': State) {
    && s.pc in {Resting, Announced} && s.durable.stage.Some?
    && var d := s.durable.stage.value;
    && d.path in s.disk && s.disk[d.path].id == d.id && LinkIn(d.path) !in s.disk
    && s' == s.(disk := s.disk - {d.path})
  }

  /** Leaving the publication: with its directory gone the record in memory forgets it, otherwise it is an error. */
  ghost predicate AbandonStep(s: State, s': State) {
    if s.pc == Announced && s.mem.stage.Some? && s.mem.stage.value.path !in s.disk
    then s' == s.(mem := s.mem.(stage := None), pc := Emptied) || s' == s.(pc := Resting)
    else s' == s.(pc := Resting)
  }

  ghost predicate Next(s: State, a: Action, s': State) {
    match a
    case Crash => s' == s.(pc := Resting, mem := s.durable)
    case Rewrite => s.pc == Resting && s' == s.(durable := s.mem)
    case Foreign(p) => ForeignStep(s, p, s')
    case Vanish(p) => VanishStep(s, p, s')
    case MakeStage(p) => MakeStageStep(s, p, s')
    case MakeLink => MakeLinkStep(s, s')
    case Identify => IdentifyStep(s, s')
    case Move => MoveStep(s, s')
    case Persist(ok) => PersistStep(s, ok, s')
    case Abandon => AbandonStep(s, s')
    case RemoveDest => RemoveDestStep(s, s')
    case RemoveStagedLink => RemoveStagedLinkStep(s, s')
    case RemoveStage => RemoveStageStep(s, s')
  }

  // ---- Invariant ----------------------------------------------------------

  /** What is at the destination and the agent's is the link the record names. */
  ghost predicate DestOk(disk: Disk, r: LinkRecord) {
    r.path in disk && disk[r.path].mine ==> IsLink(disk, r.path, r.source) && r.link == Some(disk[r.path].id)
  }

  /** The staging directory, if there, is the recorded one and holds at most the link. */
  ghost predicate StageOk(disk: Disk, r: LinkRecord) {
    r.stage.Some? ==>
      && ValidStage(r) && r.path != r.stage.value.path
      && var p := r.stage.value.path; var l := LinkIn(r.stage.value.path);
      && (p in disk ==> disk[p].kind == Directory && disk[p].id == r.stage.value.id && disk[p].mine)
      && (l in disk ==> IsLink(disk, l, r.source) && disk[l].mine && (r.link == None || r.link == Some(disk[l].id)))
  }

  ghost predicate InsideOk(disk: Disk, r: LinkRecord) {
    r.stage.Some? ==>
      forall q :: q in disk && r.stage.value.path <= q && q != r.stage.value.path ==> q == LinkIn(r.stage.value.path) && r.stage.value.path in disk
  }

  /** The record covers everything the agent made. */
  ghost predicate Covered(disk: Disk, r: LinkRecord) {
    forall q :: q in disk && disk[q].mine ==>
      q == r.path || (r.stage.Some? && (q == r.stage.value.path || q == LinkIn(r.stage.value.path)))
  }

  ghost predicate Foreigners(s: State) {
    && s.next > 0
    && (forall q :: q in s.disk ==> s.disk[q].id.index < s.next)
    && (forall q :: q in s.disk && !s.disk[q].mine ==> s.durable.link != Some(s.disk[q].id) && s.mem.link != Some(s.disk[q].id))
    && (forall p, q :: p in s.disk && q in s.disk && s.disk[p].mine && !s.disk[q].mine ==> s.disk[p].id != s.disk[q].id)
  }

  ghost predicate RecordOk(disk: Disk, next: nat, r: LinkRecord) {
    && DestOk(disk, r) && StageOk(disk, r) && InsideOk(disk, r)
    && (r.link.Some? ==> 0 < r.link.value.index < next)
    && if r.phase == Unstaged then r.stage == None && r.link == None else Covered(disk, r)
  }

  ghost predicate PcOk(s: State) {
    match s.pc
    case Resting => true
    case Staged => s.mem.phase == Staging && s.mem.link == None && s.durable.phase == Unstaged && s.mem.stage.Some?
    case Recorded => s.durable == s.mem && s.mem.phase == Staging && s.mem.link == None && s.mem.stage.Some?
    case Linked => s.durable == s.mem && s.mem.phase == Staging && s.mem.link == None && s.mem.stage.Some?
    case Known => s.mem.phase == Ready && s.mem.link.Some? && s.durable == s.mem.(phase := Staging, link := None) && s.mem.stage.Some?
    case Readied => s.durable == s.mem && s.mem.phase == Ready && s.mem.link.Some? && s.mem.stage.Some?
    case Moved => s.mem.phase == Published && s.durable == s.mem.(phase := Ready) && s.mem.link.Some? && s.mem.stage.Some?
    case Announced => s.durable == s.mem && s.mem.phase == Published && s.mem.link.Some? && s.mem.stage.Some?
    case Emptied => s.mem == s.durable.(stage := None) && s.mem.phase == Published && s.durable.stage.Some? && s.durable.stage.value.path !in s.disk
  }

  ghost predicate Agree(s: State) {
    && s.durable.path == s.mem.path && s.durable.source == s.mem.source
    && (s.durable.phase != Unstaged ==> s.mem.phase != Unstaged)
  }

  ghost predicate Inv(s: State) {
    RecordOk(s.disk, s.next, s.durable) && RecordOk(s.disk, s.next, s.mem) && Foreigners(s) && PcOk(s) && Agree(s)
  }

  ghost predicate Init(s: State) {
    && s.pc == Resting && s.mem == s.durable
    && s.durable.phase == Unstaged && s.durable.link == None && s.durable.stage == None && s.next > 0
    && forall q :: q in s.disk ==> !s.disk[q].mine && s.disk[q].id.index < s.next
  }

  lemma CrashKeeps(s: State, a: Action, s': State)
    requires Inv(s) && a.Crash? && Next(s, a, s')
    ensures Inv(s')
  {
  }

  lemma RewriteKeeps(s: State, a: Action, s': State)
    requires Inv(s) && a.Rewrite? && Next(s, a, s')
    ensures Inv(s')
  {
  }

  lemma ForeignKeeps(s: State, a: Action, s': State)
    requires Inv(s) && a.Foreign? && Next(s, a, s')
    ensures Inv(s')
  {
    ForeignRecord(s, a.path, s', s.durable);
    ForeignRecord(s, a.path, s', s.mem);
    hide RecordOk;
  }

  lemma ForeignRecord(s: State, p: Path, s': State, r: LinkRecord)
    requires ForeignStep(s, p, s') && RecordOk(s.disk, s.next, r) && !Reserved(r, p)
    ensures RecordOk(s'.disk, s'.next, r)
  {
  }

  lemma VanishKeeps(s: State, a: Action, s': State)
    requires Inv(s) && a.Vanish? && Next(s, a, s')
    ensures Inv(s')
  {
    VanishRecord(s, a.path, s', s.durable);
    VanishRecord(s, a.path, s', s.mem);
    hide RecordOk;
  }

  lemma VanishRecord(s: State, p: Path, s': State, r: LinkRecord)
    requires VanishStep(s, p, s') && RecordOk(s.disk, s.next, r)
    ensures RecordOk(s'.disk, s'.next, r)
  {
  }

  lemma MakeStageKeeps(s: State, a: Action, s': State)
    requires Inv(s) && a.MakeStage? && Next(s, a, s')
    ensures Inv(s')
  {
  }

  lemma MakeLinkKeeps(s: State, a: Action, s': State)
    requires Inv(s) && a.MakeLink? && Next(s, a, s')
    ensures Inv(s')
  {
  }

  lemma IdentifyKeeps(s: State, a: Action, s': State)
    requires Inv(s) && a.Identify? && Next(s, a, s')
    ensures Inv(s')
  {
  }

  lemma MoveKeeps(s: State, a: Action, s': State)
    requires Inv(s) && a.Move? && Next(s, a, s')
    ensures Inv(s')
  {
  }

  lemma PersistKeeps(s: State, a: Action, s': State)
    requires Inv(s) && a.Persist? && Next(s, a, s')
    ensures Inv(s')
  {
  }

  lemma AbandonKeeps(s: State, a: Action, s': State)
    requires Inv(s) && a.Abandon? && Next(s, a, s')
    ensures Inv(s')
  {
  }

  lemma RemoveDestKeeps(s: State, a: Action, s': State)
    requires Inv(s) && a.RemoveDest? && Next(s, a, s')
    ensures Inv(s')
  {
  }

  lemma RemoveStagedLinkKeeps(s: State, a: Action, s': State)
    requires Inv(s) && a.RemoveStagedLink? && Next(s, a, s')
    ensures Inv(s')
  {
  }

  lemma RemoveStageKeeps(s: State, a: Action, s': State)
    requires Inv(s) && a.RemoveStage? && Next(s, a, s')
    ensures Inv(s')
  {
  }

  lemma NextInv(s: State, a: Action, s': State)
    requires Inv(s) && Next(s, a, s')
    ensures Inv(s')
  {
    hide Inv, Next;
    match a
    case Crash => CrashKeeps(s, a, s');
    case Rewrite => RewriteKeeps(s, a, s');
    case Foreign(_) => ForeignKeeps(s, a, s');
    case Vanish(_) => VanishKeeps(s, a, s');
    case MakeStage(_) => MakeStageKeeps(s, a, s');
    case MakeLink => MakeLinkKeeps(s, a, s');
    case Identify => IdentifyKeeps(s, a, s');
    case Move => MoveKeeps(s, a, s');
    case Persist(_) => PersistKeeps(s, a, s');
    case Abandon => AbandonKeeps(s, a, s');
    case RemoveDest => RemoveDestKeeps(s, a, s');
    case RemoveStagedLink => RemoveStagedLinkKeeps(s, a, s');
    case RemoveStage => RemoveStageKeeps(s, a, s');
  }

  // ---- Removal ------------------------------------------------------------

  datatype Removal = Removal(ok: bool, disk: Disk)

  /** removeStage, when no native call fails. */
  function RemoveStageOf(r: LinkRecord, disk: Disk): Removal {
    if r.stage == None then Removal(true, disk)
    else if !ValidStage(r) then Removal(false, disk)
    else
      var p := r.stage.value.path; var l := LinkIn(p);
      if p !in disk then Removal(true, disk)
      else if disk[p].kind != Directory || disk[p].id != r.stage.value.id then Removal(false, disk)
      else if l in disk && (!IsLink(disk, l, r.source) || (r.link.Some? && r.link.value != disk[l].id)) then Removal(false, disk)
      else if exists q :: q in disk && p <= q && q != p && q != l then Removal(false, disk - {l})
      else Removal(true, disk - {l} - {p})
  }

  /** removeJournalLinks, when no native call fails. */
  function RemoveLinks(r: LinkRecord, disk: Disk): Removal {
    if r.path !in disk then RemoveStageOf(r, disk)
    else if !IsLink(disk, r.path, r.source) || r.link != Some(disk[r.path].id) then Removal(false, disk)
    else RemoveStageOf(r, disk - {r.path})
  }

  /** Whatever the record and the disk: only the recorded link, the recorded directory, and the link inside it go. */
  lemma RemovesOnlyRecorded(r: LinkRecord, disk: Disk, q: Path)
    requires q in disk
    ensures q in RemoveLinks(r, disk).disk ==> RemoveLinks(r, disk).disk[q] == disk[q]
    ensures q !in RemoveLinks(r, disk).disk ==>
              || (q == r.path && r.link == Some(disk[q].id))
              || (r.stage.Some? && q == r.stage.value.path && disk[q].id == r.stage.value.id)
              || (r.stage.Some? && q == LinkIn(r.stage.value.path) && r.stage.value.path in disk
                  && disk[r.stage.value.path].id == r.stage.value.id && (r.link == None || r.link == Some(disk[q].id)))
  {
  }

  function Others(disk: Disk): Disk { map q | q in disk && !disk[q].mine :: disk[q] }

  /** From any crash after the first durable record: removal succeeds unless something foreign is at the
      destination, leaves nothing the agent made, and touches nothing else; otherwise it changes nothing. */
  lemma RemovalIsExact(s: State)
    requires Inv(s) && s.durable.phase != Unstaged
    ensures var d := s.durable; var done := RemoveLinks(d, s.disk);
            if d.path in s.disk && !s.disk[d.path].mine
            then done == Removal(false, s.disk)
            else done == Removal(true, Others(s.disk))
  {
    var d := s.durable; var done := RemoveLinks(d, s.disk);
    if !(d.path in s.disk && !s.disk[d.path].mine) {
      assert done.ok;
      assert forall q :: q in s.disk && s.disk[q].mine ==> q !in done.disk;
      assert done.disk == Others(s.disk);
    }
  }

  /** Removal may stop after any of its steps and start again. */
  lemma RemovalResumes(s: State, a: Action, s': State)
    requires Inv(s) && s.durable.phase != Unstaged && (s.durable.path in s.disk ==> s.disk[s.durable.path].mine)
    requires (a.RemoveDest? || a.RemoveStagedLink? || a.RemoveStage?) && Next(s, a, s')
    ensures RemoveLinks(s'.durable, s'.disk) == RemoveLinks(s.durable, s.disk)
  {
    NextInv(s, a, s');
    hide Inv;
    RemovalIsExact(s);
    RemovalIsExact(s');
    StepRemovesOwn(s, a, s');
  }

  lemma StepRemovesOwn(s: State, a: Action, s': State)
    requires Inv(s) && s.durable.phase != Unstaged
    requires (a.RemoveDest? || a.RemoveStagedLink? || a.RemoveStage?) && Next(s, a, s')
    ensures s'.durable == s.durable && Others(s'.disk) == Others(s.disk)
    ensures s.durable.path in s'.disk ==> s.durable.path in s.disk && s'.disk[s.durable.path] == s.disk[s.durable.path]
  {
  }

  // ---- Runs ---------------------------------------------------------------

  ghost predicate IsRun(ss: seq<State>, acts: seq<Action>) {
    && |ss| == |acts| + 1
    && forall i :: 0 <= i < |acts| ==> Next(ss[i], acts[i], ss[i + 1])
  }

  lemma {:induction false} RunInv(ss: seq<State>, acts: seq<Action>, n: nat)
    requires IsRun(ss, acts) && Init(ss[0]) && n < |ss|
    ensures Inv(ss[n])
  {
    if n > 0 {
      RunInv(ss, acts, n - 1);
      NextInv(ss[n - 1], acts[n - 1], ss[n]);
    }
  }

  /** Over any run with crashes, failed saves and other software: removal by the durable record is exact. */
  lemma CrashSafe(ss: seq<State>, acts: seq<Action>, n: nat)
    requires IsRun(ss, acts) && Init(ss[0]) && n < |ss| && ss[n].durable.phase != Unstaged
    ensures var d := ss[n].durable;
            if d.path in ss[n].disk && !ss[n].disk[d.path].mine
            then RemoveLinks(d, ss[n].disk) == Removal(false, ss[n].disk)
            else RemoveLinks(d, ss[n].disk) == Removal(true, Others(ss[n].disk))
  {
    RunInv(ss, acts, n);
    RemovalIsExact(ss[n]);
  }
}
