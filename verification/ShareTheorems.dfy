/** What holds over every run of the share protocol. */
module ShareTheorems {
  import opened Options
  import opened Paths
  import opened ShareModel
  import opened ShareProtocol
  import opened ShareInvariant

  // ---- Runs ---------------------------------------------------------------

  lemma InitInv(s: Sys)
    requires Init(s)
    ensures Inv(s)
  {
  }

  lemma RebootKeeps(s: Sys, s': Sys)
    requires Inv(s) && RebootStep(s, s')
    ensures Inv(s')
  {
    hide ForeignChange;
  }

  /** Every step, crashes and interference included, keeps the invariant. */
  lemma NextInv(s: Sys, a: Action, s': Sys)
    requires Inv(s) && Next(s, a, s')
    ensures Inv(s')
  {
    hide KernelOk, Unique, JournalOk, InvokedOk, EntriesOk, LinkOk, HandOk, RecoverEntry, AfterSave, SaveStep, BeginStep, InvokeStep, OpenStep, CreateStep,
         AttachStep, AdoptStep, OtherReturnsStep, CaptureStep, AbortStep, GiveUpStep, LeaveStep, DetachStep, RetryStep, RecoverOneStep, LoadStep, EnvStep, RebootStep;
    if a.Crash? {
    } else if a.Reboot? {
      RebootKeeps(s, s');
    } else if a.Env? {
      EnvKeeps(s, a.p, s');
    } else if a.Load? {
      LoadKeeps(s, s');
    } else {
      var m := s.mem.value;
      match a
      case RecoverOne(id, node) => RecoverOneKeeps(s, m, id, node, s');
      case Save(ok) => SaveKeeps(s, m, ok, s');
      case Begin(q) => BeginKeeps(s, m, q, s');
      case Invoke(id) => InvokeKeeps(s, m, id, s');
      case Open(id) => OpenKeeps(s, m, id, s');
      case Create(id, x) => CreateKeeps(s, m, id, x, s');
      case Attach(id) => AttachKeeps(s, m, id, s');
      case Adopt(id) => AdoptKeeps(s, m, id, s');
      case OtherReturns(id) => OtherReturnsKeeps(s, m, id, s');
      case Capture(id, mid) => CaptureKeeps(s, m, id, mid, s');
      case Abort(id) => AbortKeeps(s, m, id, s');
      case GiveUp => GiveUpKeeps(s, m, s');
      case Leave(id) => LeaveKeeps(s, m, id, s');
      case Detach(id) => DetachKeeps(s, m, id, s');
      case Retry(id) => RetryKeeps(s, m, id, s');
    }
  }

  ghost predicate IsRun(ss: seq<Sys>, acts: seq<Action>) {
    && |ss| == |acts| + 1
    && forall i :: 0 <= i < |acts| ==> Next(ss[i], acts[i], ss[i + 1])
  }

  lemma {:induction false} RunInv(ss: seq<Sys>, acts: seq<Action>, n: nat)
    requires IsRun(ss, acts) && Inv(ss[0]) && n < |ss|
    ensures Inv(ss[n])
  {
    hide Inv, Next;
    if n > 0 {
      RunInv(ss, acts, n - 1);
      NextInv(ss[n - 1], acts[n - 1], ss[n]);
    }
  }

  // ---- Recovery is exact --------------------------------------------------

  /** With nobody else at the target, a restart says "mounted" exactly when the agent's mount is attached. */
  lemma RecoveryExact(rs: map<ShareId, Record>, id: ShareId, k: Kernel, touched: set<Path>, boot: nat)
    requires KernelOk(k) && JournalOk(rs, k, touched, boot) && id in rs && rs[id].transport.VirtioFS?
    requires rs[id].path !in touched || rs[id].phase == Preparing || rs[id].state == RAbsent
    ensures RecoveryVerdict(rs[id], View(k, rs[id].path)) == if Attached(k, id, rs[id].gen) then SaysMounted else SaysAbsent
  {
    var r := rs[id];
    assert RecOk(id, r, k, touched, boot);
    if r.state == RAbsent || r.phase == Preparing {
      AbsentHasNoMounts(rs, k, id);
    } else {
      QuietVerdict(rs, id, k, touched, boot);
    }
  }

  lemma QuietVerdict(rs: map<ShareId, Record>, id: ShareId, k: Kernel, touched: set<Path>, boot: nat)
    requires KernelOk(k) && JournalOk(rs, k, touched, boot) && id in rs && rs[id].transport.VirtioFS?
    requires rs[id].path !in touched && rs[id].phase != Preparing && rs[id].state != RAbsent
    ensures RecoveryVerdict(rs[id], View(k, rs[id].path)) == if Attached(k, id, rs[id].gen) then SaysMounted else SaysAbsent
  {
    var r := rs[id];
    assert RecOk(id, r, k, touched, boot);
    if Layers(k, r.path) == [] {
      forall p, i | 0 <= i < |Layers(k, p)|
        ensures Layers(k, p)[i].owner != Some(Owner(id, r.gen))
      {
        assert Layers(k, p)[i].owner == Some(Owner(id, r.gen)) ==> Describes(r, p, Layers(k, p)[i], k);
      }
    } else {
      assert Describes(r, r.path, Layers(k, r.path)[0], k);
      assert MountOk(k, r.path, Layers(k, r.path)[0]);
    }
  }

  /** Whatever others did: "mounted" means the agent's mount is on top, "absent" means it is attached nowhere. */
  lemma RecoverySound(rs: map<ShareId, Record>, id: ShareId, node: Option<Node>, k: Kernel, touched: set<Path>, boot: nat)
    requires KernelOk(k) && JournalOk(rs, k, touched, boot) && id in rs && rs[id].transport.VirtioFS?
    requires node == None || node == View(k, rs[id].path)
    ensures RecoveryVerdict(rs[id], node) == SaysMounted ==> OwnOnTop(k, id, rs[id])
    ensures RecoveryVerdict(rs[id], node) == SaysAbsent ==> forall gen :: !Attached(k, id, gen)
  {
    var r := rs[id];
    JournalEntry(rs, id, k, touched, boot);
    if RecoveryVerdict(r, node) == SaysMounted {
      TopIsOwn(k, id, r, node, touched, boot);
    } else if RecoveryVerdict(r, node) == SaysAbsent {
      if r.state != RAbsent && r.phase != Preparing {
        TargetMeansGone(id, r, k);
      }
      NoneDescribed(id, r, k);
    }
  }

  lemma NoneDescribed(id: ShareId, r: Record, k: Kernel)
    requires DescribesAll(id, r.(state := RAbsent), k)
    ensures forall gen :: !Attached(k, id, gen)
  {
    forall p, i | 0 <= i < |Layers(k, p)| && Layers(k, p)[i].owner.Some?
      ensures Layers(k, p)[i].owner.value.id != id
    {
      assert Layers(k, p)[i].owner.value.id == id ==> Describes(r.(state := RAbsent), p, Layers(k, p)[i], k);
    }
  }

  /** At any point of any run the agent may be killed: a restart then says of every virtiofs share whose target
      nobody else touched "mounted" if and only if the agent's mount is attached, and "absent" otherwise. */
  lemma RestartIsExact(ss: seq<Sys>, acts: seq<Action>, n: nat, id: ShareId)
    requires IsRun(ss, acts) && Init(ss[0]) && n < |ss| && id in ss[n].disk && ss[n].disk[id].transport.VirtioFS?
    requires ss[n].disk[id].path !in ss[n].touched
    ensures var r := ss[n].disk[id]; var after := RecoverEntry(LoadEntry(r), View(ss[n].kernel, r.path));
            && after.result.state == (if Attached(ss[n].kernel, id, r.gen) then Mounted else Absent)
            && (after.cleanup.Some? <==> Attached(ss[n].kernel, id, r.gen))
  {
    hide Inv, Next, Init, RecoverEntry, RecoveryVerdict;
    InitInv(ss[0]);
    RunInv(ss, acts, n);
    JournalNow(ss[n]);
    RecoveryExact(ss[n].disk, id, ss[n].kernel, ss[n].touched, ss[n].boot);
    RecoverFollowsVerdict(ss[n].disk[id], View(ss[n].kernel, ss[n].disk[id].path));
  }

  lemma JournalNow(s: Sys)
    requires Inv(s)
    ensures KernelOk(s.kernel) && JournalOk(s.disk, s.kernel, s.touched, s.boot)
  {
  }

  /** Recovery of an entry follows the verdict. */
  lemma RecoverFollowsVerdict(r: Record, node: Option<Node>)
    requires r.transport.VirtioFS?
    ensures RecoverEntry(LoadEntry(r), node).result.state ==
            match RecoveryVerdict(r, node) case SaysAbsent => Absent case SaysMounted => Mounted case Undecided => RecoveryRequired
    ensures RecoverEntry(LoadEntry(r), node).cleanup.Some? <==> RecoveryVerdict(r, node) == SaysMounted
  {
  }

  /** A share of another transport stays undecided, and may be cleaned up exactly when its recorded mount is what
      its target shows. */
  lemma RecoverOther(r: Record, node: Option<Node>)
    requires !r.transport.VirtioFS? && r.state != RAbsent
    ensures var e := RecoverEntry(LoadEntry(r), node);
            && e.result.state == RecoveryRequired && !e.result.ok && e.intent == r
            && (e.cleanup == Some(Opaque) || e.cleanup == None)
            && (e.cleanup.Some? <==> r.state == RMounted && r.mid != 0 && node.Some? && node.value.mid == r.mid && node.value.mid != node.value.parentMid)
  {
  }

  // ---- Foreign mounts are never touched -----------------------------------

  /** A virtiofs mount is removed or adopted only if it is the one created for this share and generation,
      with the recorded unique id, source and read-only policy, however plain mount ids were reused. */
  lemma OnlyOwnMounts(s: Sys, a: Action, s': Sys)
    requires Inv(s) && Next(s, a, s') && (a.Detach? || a.Adopt?) && s.mem.Some?
    requires a.id in s.mem.value.entries && s.mem.value.entries[a.id].intent.transport.VirtioFS?
    ensures var r := s.mem.value.entries[a.id].intent;
            && OwnOnTop(s.kernel, a.id, r)
            && var x := Layers(s.kernel, r.path)[|Layers(s.kernel, r.path)| - 1];
               x.virtiofs && x.source == r.source && x.ro == r.ro
  {
    hide JournalOk, EntriesOk, LinkOk, Unique, InvokedOk, RecOk, DescribesAll;
    var m := s.mem.value;
    var e := m.entries[a.id];
    EntryFacts(m.entries, a.id, s.kernel, s.touched, s.boot);
    if a.Detach? {
      OwnCleanup(a.id, e);
    }
    TopIsOwn(s.kernel, a.id, e.intent, View(s.kernel, e.intent.path), s.touched, s.boot);
  }

  // ---- At-most-once effects -----------------------------------------------

  /** Within a boot, a share's backend calls have strictly increasing generations, over any run. */
  lemma AtMostOnce(ss: seq<Sys>, acts: seq<Action>, n: nat, i: nat, j: nat)
    requires IsRun(ss, acts) && Init(ss[0]) && n < |ss|
    requires i < j < |ss[n].invoked| && ss[n].invoked[i].boot == ss[n].invoked[j].boot && ss[n].invoked[i].id == ss[n].invoked[j].id
    ensures ss[n].invoked[i].gen < ss[n].invoked[j].gen
  {
    InitInv(ss[0]);
    RunInv(ss, acts, n);
  }

  /** The backend is called only for a record that is durable, pending and of that generation. */
  lemma DurableBeforeInvoke(s: Sys, id: ShareId, s': Sys)
    requires Inv(s) && Next(s, Invoke(id), s')
    ensures id in s.disk && s.disk[id].state == RPending && s.disk[id] == s.mem.value.entries[id].intent
    ensures s'.invoked == s.invoked + [Invocation(s.boot, id, s.disk[id].gen)]
  {
    hide JournalOk, EntriesOk, LinkOk, Unique, InvokedOk, RecOk;
  }

  /** A mount reaches the tree only after its unique identity is durable. */
  lemma IdentityDurableBeforeAttach(s: Sys, id: ShareId, s': Sys)
    requires Inv(s) && Next(s, Attach(id), s')
    ensures id in s.disk && var r := s.disk[id];
            && r.state == RPending && r.phase == Attaching && r.uid != 0
            && Layers(s'.kernel, r.path) == Layers(s.kernel, r.path) + [s.mem.value.hand.m]
            && s.mem.value.hand.m.uid == r.uid && s.mem.value.hand.m.owner == Some(Owner(id, r.gen))
  {
    hide JournalOk, EntriesOk, LinkOk, Unique, InvokedOk, RecOk, KernelOk, EntryOk, DescribesAll;
    EntryFacts(s.mem.value.entries, id, s.kernel, s.touched, s.boot);
    IntentId(id, s.mem.value.entries[id]);
  }

  // ---- Claimed paths ------------------------------------------------------

  /** All entries that are mounted or undecided, and all durable records not absent, have disjoint paths. */
  lemma ClaimedPathsDisjoint(s: Sys, a: ShareId, b: ShareId)
    requires Inv(s) && a != b
    ensures a in s.disk && b in s.disk && s.disk[a].state != RAbsent && s.disk[b].state != RAbsent ==> !Overlap(s.disk[a].path, s.disk[b].path)
    ensures s.mem.Some? && a in s.mem.value.entries && b in s.mem.value.entries && Claims(s.mem.value.entries[a]) && Claims(s.mem.value.entries[b]) ==>
              !Overlap(s.mem.value.entries[a].result.path, s.mem.value.entries[b].result.path)
  {
    hide RecOk, NoOrphans, HandOk, LinkOk, Unique, KernelOk;
  }
}
