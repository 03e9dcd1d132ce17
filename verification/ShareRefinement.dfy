/** Every crashing run simulates a machine in which a share is only a generation that is mounted or
    not, and an acknowledged outcome is what `status` answers after any crash and restart. */
module ShareRefinement {
  import opened Options
  import opened Paths
  import opened ShareModel
  import opened ShareProtocol
  import opened ShareInvariant
  import opened ShareTheorems

  // ---- The simple machine -------------------------------------------------

  datatype Share = NoShare | Share(gen: nat, mounted: bool)

  ghost function Abs(s: Sys, id: ShareId): Share {
    if id in s.disk then Share.Share(s.disk[id].gen, Attached(s.kernel, id, s.disk[id].gen)) else NoShare
  }

  /** A share starts a newer generation while unmounted, is mounted, is unmounted; nothing else. */
  ghost predicate SimpleNext(a: Action, id: ShareId, x: Share, x': Share) {
    match a
    case Save(_) => x' == x || (x'.Share? && !x'.mounted && (x.NoShare? || (!x.mounted && x.gen < x'.gen)))
    case Attach(i) => if i == id then x.Share? && !x.mounted && x' == x.(mounted := true) else x' == x
    case Detach(i) => x' == x || (i == id && x.Share? && x.mounted && x' == x.(mounted := false))
    case Env(_) => x' == x || (x.Share? && x.mounted && x' == x.(mounted := false))
    case Reboot => x'.NoShare?
    case _ => x' == x
  }

  lemma SubLayersAttached(k: Kernel, k': Kernel, id: ShareId, gen: nat)
    requires forall p, i :: 0 <= i < |Layers(k, p)| ==> Layers(k, p)[i] in Layers(k', p)
    ensures Attached(k, id, gen) ==> Attached(k', id, gen)
  {
    if Attached(k, id, gen) {
      var p, i :| 0 <= i < |Layers(k, p)| && Layers(k, p)[i].owner == Some(Owner(id, gen));
      var j :| 0 <= j < |Layers(k', p)| && Layers(k', p)[j] == Layers(k, p)[i];
    }
  }

  lemma SameLayersSameShare(s: Sys, s': Sys, id: ShareId)
    requires s'.disk == s.disk && s'.kernel.layers == s.kernel.layers
    ensures Abs(s', id) == Abs(s, id)
  {
    assert forall p :: Layers(s'.kernel, p) == Layers(s.kernel, p);
    if id in s.disk {
      SubLayersAttached(s.kernel, s'.kernel, id, s.disk[id].gen);
      SubLayersAttached(s'.kernel, s.kernel, id, s.disk[id].gen);
    }
  }

  /** A save moves a share only to a newer generation that is not mounted. */
  lemma SaveSimulates(s: Sys, m: Mem, ok: bool, s': Sys, id: ShareId)
    requires Inv(s) && s.mem == Some(m) && SaveStep(s, m, ok, s')
    ensures SimpleNext(Save(ok), id, Abs(s, id), Abs(s', id))
  {
    hide RecOk, KernelOk, Unique, InvokedOk, EntriesOk, JournalOk, EntryOk, HandOk, AfterSave, Attached;
    LoadedDone(s.disk, m.entries, m.loaded, m.todo);
    if s'.disk != s.disk && id in s'.disk && (id in s.disk ==> s.disk[id].gen < s'.disk[id].gen) {
      NoMountsOfAbsent(s.disk, s.kernel, s.touched, s.boot, id);
    }
  }

  lemma NoMountsOfAbsent(disk: map<ShareId, Record>, k: Kernel, touched: set<Path>, boot: nat, id: ShareId)
    requires JournalOk(disk, k, touched, boot) && KernelOk(k) && (id in disk ==> disk[id].state == RAbsent)
    ensures forall gen :: !Attached(k, id, gen)
  {
    hide RecOk;
    AbsentHasNoMounts(disk, k, id);
  }

  lemma AttachSimulates(s: Sys, m: Mem, i: ShareId, s': Sys, id: ShareId)
    requires Inv(s) && s.mem == Some(m) && AttachStep(s, m, i, s')
    ensures SimpleNext(Attach(i), id, Abs(s, id), Abs(s', id))
  {
    hide RecOk, KernelOk, Unique, InvokedOk, EntriesOk, JournalOk, EntryOk, LinkOk, DescribesAll;
    var r := m.entries[i].intent;
    EntryFacts(m.entries, i, s.kernel, s.touched, s.boot);
    IntentId(i, m.entries[i]);
    PushAttached(s.kernel, r.path, m.hand.m, i, r.gen, r);
    if id != i && id in s.disk {
      PushOthers(s.kernel, r.path, m.hand.m, id, s.disk[id].gen);
    }
  }

  lemma PushAttached(k: Kernel, p: Path, x: Mount, id: ShareId, gen: nat, r: Record)
    requires x.owner == Some(Owner(id, gen)) && DescribesAll(id, r, k) && Detached(x, r, k)
    ensures !Attached(k, id, gen) && Attached(Push(k, p, x), id, gen)
  {
    forall q, i | 0 <= i < |Layers(k, q)|
      ensures Layers(k, q)[i].owner != Some(Owner(id, gen))
    {
      assert Layers(k, q)[i].uid != x.uid;
    }
    assert Layers(Push(k, p, x), p)[|Layers(k, p)|] == x;
  }

  lemma PushOthers(k: Kernel, p: Path, x: Mount, id: ShareId, gen: nat)
    requires x.owner != Some(Owner(id, gen))
    ensures Attached(Push(k, p, x), id, gen) <==> Attached(k, id, gen)
  {
    var k' := Push(k, p, x);
    SubLayersAttached(k, k', id, gen);
    if Attached(k', id, gen) {
      var q, i :| 0 <= i < |Layers(k', q)| && Layers(k', q)[i].owner == Some(Owner(id, gen));
      assert Layers(k, q)[i].owner == Some(Owner(id, gen));
    }
  }

  lemma PopOthers(k: Kernel, p: Path, id: ShareId, gen: nat)
    requires Layers(k, p) != []
    ensures Attached(Pop(k, p), id, gen) ==> Attached(k, id, gen)
    ensures Layers(k, p)[|Layers(k, p)| - 1].owner != Some(Owner(id, gen)) ==> (Attached(Pop(k, p), id, gen) <==> Attached(k, id, gen))
  {
    var k' := Pop(k, p);
    SubLayersAttached(k', k, id, gen);
    if Attached(k, id, gen) && Layers(k, p)[|Layers(k, p)| - 1].owner != Some(Owner(id, gen)) {
      var q, i :| 0 <= i < |Layers(k, q)| && Layers(k, q)[i].owner == Some(Owner(id, gen));
      assert Layers(k', q)[i].owner == Some(Owner(id, gen));
    }
  }

  lemma DetachSimulates(s: Sys, m: Mem, i: ShareId, s': Sys, id: ShareId)
    requires Inv(s) && s.mem == Some(m) && DetachStep(s, m, i, s')
    ensures SimpleNext(Detach(i), id, Abs(s, id), Abs(s', id))
  {
    hide RecOk, KernelOk, Unique, InvokedOk, EntriesOk, JournalOk, EntryOk, LinkOk, View, DescribesAll;
    var e := m.entries[i];
    EntryFacts(m.entries, i, s.kernel, s.touched, s.boot);
    OwnCleanup(i, e);
    if !e.cleanup.value.Own? {
      SameLayersSameShare(s, s', id);
    } else {
      TopIsOwn(s.kernel, i, e.intent, View(s.kernel, e.intent.path), s.touched, s.boot);
      if id in s.disk {
        PopOthers(s.kernel, e.intent.path, id, s.disk[id].gen);
      }
    }
  }

  lemma EnvSimulates(s: Sys, p: Path, s': Sys, id: ShareId)
    requires Inv(s) && EnvStep(s, p, s')
    ensures SimpleNext(Env(p), id, Abs(s, id), Abs(s', id))
  {
    hide RecOk, KernelOk, Unique, InvokedOk, EntriesOk, JournalOk, LinkOk;
    if id in s.disk && Attached(s'.kernel, id, s.disk[id].gen) {
      var q, i :| 0 <= i < |Layers(s'.kernel, q)| && Layers(s'.kernel, q)[i].owner == Some(Owner(id, s.disk[id].gen));
      var x := Layers(s'.kernel, q)[i];
      assert x in Layers(s.kernel, q);
      var j :| 0 <= j < |Layers(s.kernel, q)| && Layers(s.kernel, q)[j] == x;
    }
  }

  /** Crash, restart and recovery do not change the simple state. */
  predicate Stutters(a: Action) { !a.Save? && !a.Attach? && !a.Detach? && !a.Env? && !a.Reboot? }

  lemma StutterSimulates(s: Sys, a: Action, s': Sys, id: ShareId)
    requires Next(s, a, s') && Stutters(a)
    ensures Abs(s', id) == Abs(s, id)
  {
    assert s'.disk == s.disk && s'.kernel.layers == s.kernel.layers;
    SameLayersSameShare(s, s', id);
  }

  /** The refinement: each step of the crashing system is a step of the simple machine, for every share. */
  lemma Simulates(s: Sys, a: Action, s': Sys, id: ShareId)
    requires Inv(s) && Next(s, a, s')
    ensures SimpleNext(a, id, Abs(s, id), Abs(s', id))
  {
    hide Inv, Abs, SaveStep, AttachStep, DetachStep, EnvStep, RecoverOneStep, BeginStep, InvokeStep, OpenStep, CreateStep, AdoptStep,
         OtherReturnsStep, CaptureStep, AbortStep, GiveUpStep, LeaveStep, RetryStep, LoadStep;
    if a.Save? {
      SaveSimulates(s, s.mem.value, a.ok, s', id);
    } else if a.Attach? {
      AttachSimulates(s, s.mem.value, a.id, s', id);
    } else if a.Detach? {
      DetachSimulates(s, s.mem.value, a.id, s', id);
    } else if a.Env? {
      EnvSimulates(s, a.p, s', id);
    } else if a.Reboot? {
      RebootForgets(s, s', id);
    } else {
      StutterSimulates(s, a, s', id);
    }
  }

  lemma RebootForgets(s: Sys, s': Sys, id: ShareId)
    requires RebootStep(s, s')
    ensures Abs(s', id) == NoShare
  {
  }

  // ---- Replies ------------------------------------------------------------

  /** What `status` answers for a known share and generation. */
  function Status(m: Mem, id: ShareId, gen: nat): ShareResult {
    if id !in m.entries then Plain(id, gen, NotFound)
    else if m.entries[id].result.gen != gen then Plain(id, gen, StaleGeneration)
    else m.entries[id].result
  }

  /** An acknowledged state is the simple machine's state, unless other software touched the target. */
  lemma RepliesAreTrue(s: Sys, m: Mem, id: ShareId, gen: nat)
    requires Inv(s) && s.mem == Some(m) && m.loaded && Status(m, id, gen).ok
    ensures Status(m, id, gen).state == Absent ==> Abs(s, id) == Share.Share(gen, false)
    ensures Status(m, id, gen).state == Mounted && m.entries[id].intent.transport.VirtioFS? && m.entries[id].intent.path !in s.touched ==>
              Abs(s, id) == Share.Share(gen, true)
  {
    hide RecOk, KernelOk, Unique, InvokedOk, JournalOk, HandOk, ClaimsDisjoint, Attached;
    assert id in m.entries && EntryOk(id, m.entries[id]);
    if m.entries[id].result.state == Absent {
      NoMountsOfAbsent(s.disk, s.kernel, s.touched, s.boot, id);
    } else if m.entries[id].intent.transport.VirtioFS? && m.entries[id].intent.path !in s.touched {
      AttachedIsRecorded(s.disk, s.kernel, s.touched, s.boot, id, gen);
    }
  }

  lemma AttachedIsRecorded(disk: map<ShareId, Record>, k: Kernel, touched: set<Path>, boot: nat, id: ShareId, gen: nat)
    requires JournalOk(disk, k, touched, boot) && Attached(k, id, gen)
    ensures id in disk && disk[id].gen == gen && disk[id].state != RAbsent && disk[id].transport.VirtioFS?
  {
    var p, i :| 0 <= i < |Layers(k, p)| && Layers(k, p)[i].owner == Some(Owner(id, gen));
    assert Describes(disk[id], p, Layers(k, p)[i], k);
  }
}
