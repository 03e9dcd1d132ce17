/** Every step of the protocol keeps the invariant. */
module ShareInvariant {
  import opened Options
  import opened Paths
  import opened ShareModel
  import opened ShareProtocol

  // ---- Kernel steps -------------------------------------------------------

  /** Every mount of k', bar x, is a mount of k at the same place. */
  ghost predicate Keeps(k: Kernel, k': Kernel, x: Mount) {
    && k'.base == k.base && k'.nextUid == k.nextUid
    && (forall q, i :: 0 <= i < |Layers(k', q)| && Layers(k', q)[i] != x ==> i < |Layers(k, q)| && Layers(k, q)[i] == Layers(k', q)[i])
  }

  lemma KeepsKernelOk(k: Kernel, k': Kernel, p: Path, x: Mount)
    requires KernelOk(k) && Keeps(k, k', x)
    requires p in k.base && 0 < x.uid < k.nextUid && 0 < x.mid && x.mid != k.base[p].mid
    requires forall q, i :: 0 <= i < |Layers(k', q)| && Layers(k', q)[i].uid == x.uid ==> q == p && i == |Layers(k', p)| - 1
    ensures KernelOk(k')
  {
    forall q, i | 0 <= i < |Layers(k', q)|
      ensures MountOk(k', q, Layers(k', q)[i])
    {
      if Layers(k', q)[i] != x {
        assert MountOk(k, q, Layers(k, q)[i]);
      } else {
        assert Layers(k', q)[i].uid == x.uid;
      }
    }
  }

  lemma KeepsUnique(k: Kernel, k': Kernel, p: Path, x: Mount)
    requires Unique(k) && Keeps(k, k', x)
    requires forall q, i :: 0 <= i < |Layers(k', q)| && Layers(k', q)[i].uid == x.uid ==> q == p && i == |Layers(k', p)| - 1
    ensures Unique(k')
  {
    forall q, i, t, j | 0 <= i < |Layers(k', q)| && 0 <= j < |Layers(k', t)| && Layers(k', q)[i].uid == Layers(k', t)[j].uid
      ensures q == t && i == j
    {
      if Layers(k', q)[i].uid != x.uid {
        assert Layers(k, q)[i] == Layers(k', q)[i] && Layers(k, t)[j] == Layers(k', t)[j];
      }
    }
  }

  lemma PushKeepsKernel(k: Kernel, p: Path, x: Mount)
    requires KernelOk(k) && Unique(k) && p in k.base
    requires 0 < x.uid < k.nextUid && 0 < x.mid && x.mid != k.base[p].mid
    requires forall q, i :: 0 <= i < |Layers(k, q)| ==> Layers(k, q)[i].uid != x.uid
    ensures KernelOk(Push(k, p, x)) && Unique(Push(k, p, x))
    ensures Layers(Push(k, p, x), p) == Layers(k, p) + [x]
    ensures forall q :: q != p ==> Layers(Push(k, p, x), q) == Layers(k, q)
  {
    var k' := Push(k, p, x);
    forall q, i | 0 <= i < |Layers(k', q)| && !(q == p && i == |Layers(k', p)| - 1)
      ensures i < |Layers(k, q)| && Layers(k, q)[i] == Layers(k', q)[i] && Layers(k', q)[i].uid != x.uid
    {
      assert Layers(k, q)[i] == Layers(k', q)[i];
    }
    KeepsKernelOk(k, k', p, x);
    KeepsUnique(k, k', p, x);
  }

  lemma PopKeepsKernel(k: Kernel, p: Path)
    requires KernelOk(k) && Unique(k) && Layers(k, p) != []
    ensures KernelOk(Pop(k, p)) && Unique(Pop(k, p))
    ensures Layers(Pop(k, p), p) == Layers(k, p)[..|Layers(k, p)| - 1]
    ensures forall q :: q != p ==> Layers(Pop(k, p), q) == Layers(k, q)
  {
    var x := Layers(k, p)[|Layers(k, p)| - 1];
    var k' := Pop(k, p);
    forall q, i | 0 <= i < |Layers(k', q)|
      ensures i < |Layers(k, q)| && Layers(k, q)[i] == Layers(k', q)[i] && Layers(k', q)[i].uid != x.uid
    {
      assert Layers(k, q)[i] == Layers(k', q)[i];
    }
    KeepsKernelOk(k, k', p, x);
    KeepsUnique(k, k', p, x);
  }

  // ---- Other software -----------------------------------------------------

  lemma ForeignKeepsRecord(id: ShareId, r: Record, k: Kernel, k': Kernel, p: Path, touched: set<Path>, boot: nat)
    requires ForeignChange(k, k', p) && RecOk(id, r, k, touched, boot)
    ensures RecOk(id, r, k', touched + {p}, boot)
  {
    forall q, i | 0 <= i < |Layers(k', q)| && Layers(k', q)[i].uid == r.uid
      ensures Layers(k', q)[i].owner == Some(Owner(id, r.gen))
    {
      if q == p && Layers(k', p)[i] in Layers(k, p) {
        var j :| 0 <= j < |Layers(k, p)| && Layers(k, p)[j] == Layers(k', p)[i];
      }
    }
  }

  /** The journal's claims survive anything other software does at one target. */
  lemma ForeignKeepsJournal(rs: map<ShareId, Record>, k: Kernel, k': Kernel, p: Path, touched: set<Path>, boot: nat)
    requires ForeignChange(k, k', p) && JournalOk(rs, k, touched, boot)
    ensures JournalOk(rs, k', touched + {p}, boot)
  {
    forall q, i | 0 <= i < |Layers(k', q)| && Layers(k', q)[i].owner.Some?
      ensures Layers(k', q)[i].owner.value.id in rs && Describes(rs[Layers(k', q)[i].owner.value.id], q, Layers(k', q)[i], k')
    {
      var j :| 0 <= j < |Layers(k, q)| && Layers(k, q)[j] == Layers(k', q)[i];
    }
    forall id | id in rs
      ensures RecOk(id, rs[id], k', touched + {p}, boot)
    {
      ForeignKeepsRecord(id, rs[id], k, k', p, touched, boot);
    }
  }

  lemma ForeignKeepsStage(h: Hand, e: Entry, k: Kernel, k': Kernel, p: Path, touched: set<Path>, boot: nat)
    requires ForeignChange(k, k', p) && Stage(h, e, k, touched, boot) && e.intent.uid < k.nextUid
    ensures Stage(h, e, k', touched + {p}, boot)
  {
    if h.Aborting? {
      ForeignKeepsRecord(e.intent.id, e.intent.(state := RPending), k, k', p, touched, boot);
    } else if h.Holding? || h.Armed? {
      forall q, i | 0 <= i < |Layers(k', q)|
        ensures Layers(k', q)[i].uid != h.m.uid
      {
        if q == p && Layers(k', p)[i] in Layers(k, p) {
          var j :| 0 <= j < |Layers(k, p)| && Layers(k, p)[j] == Layers(k', p)[i];
        }
      }
    }
  }

  lemma ForeignKeepsMounted(es: map<ShareId, Entry>, k: Kernel, k': Kernel, p: Path, touched: set<Path>)
    requires ForeignChange(k, k', p) && MountedOk(es, k, touched) && NoOrphans(Intents(es), k)
    ensures MountedOk(es, k', touched + {p})
  {
    forall id | id in es && es[id].result.state == Mounted && es[id].intent.transport.VirtioFS? && es[id].intent.path !in touched + {p}
      ensures Attached(k', id, es[id].intent.gen)
    {
      var q, i :| 0 <= i < |Layers(k, q)| && Layers(k, q)[i].owner == Some(Owner(id, es[id].intent.gen));
      assert Describes(Intents(es)[id], q, Layers(k, q)[i], k);
      assert Layers(k', q)[i].owner == Some(Owner(id, es[id].intent.gen));
    }
  }

  lemma EnvKeeps(s: Sys, p: Path, s': Sys)
    requires Inv(s) && EnvStep(s, p, s')
    ensures Inv(s')
  {
    ForeignKeepsJournal(s.disk, s.kernel, s'.kernel, p, s.touched, s.boot);
    if s.mem.Some? {
      var m := s.mem.value;
        ForeignKeepsJournal(Intents(m.entries), s.kernel, s'.kernel, p, s.touched, s.boot);
      ForeignKeepsMounted(m.entries, s.kernel, s'.kernel, p, s.touched);
      if m.hand != Idle {
        assert RecOk(m.hand.id, Intents(m.entries)[m.hand.id], s.kernel, s.touched, s.boot);
        ForeignKeepsStage(m.hand, m.entries[m.hand.id], s.kernel, s'.kernel, p, s.touched, s.boot);
      }
    }
  }

  // ---- One entry at a time ------------------------------------------------

  /** Every agent mount for `id` is the one `r` describes. */
  ghost predicate DescribesAll(id: ShareId, r: Record, k: Kernel) {
    forall p, i :: 0 <= i < |Layers(k, p)| && Layers(k, p)[i].owner.Some? && Layers(k, p)[i].owner.value.id == id ==>
      Describes(r, p, Layers(k, p)[i], k)
  }

  lemma UpdateJournal(rs: map<ShareId, Record>, id: ShareId, r: Record, k: Kernel, touched: set<Path>, boot: nat)
    requires JournalOk(rs, k, touched, boot) && RecOk(id, r, k, touched, boot) && DescribesAll(id, r, k)
    requires r.state != RAbsent ==> forall a :: a in rs && a != id && rs[a].state != RAbsent ==> !Overlap(rs[a].path, r.path)
    requires r.uid != 0 ==> forall a :: a in rs && a != id ==> rs[a].uid != r.uid
    ensures JournalOk(rs[id := r], k, touched, boot)
  {
  }

  lemma JournalEntry(rs: map<ShareId, Record>, id: ShareId, k: Kernel, touched: set<Path>, boot: nat)
    requires JournalOk(rs, k, touched, boot) && id in rs
    ensures RecOk(id, rs[id], k, touched, boot) && DescribesAll(id, rs[id], k)
    ensures KernelOk(k) && (rs[id].state == RAbsent || rs[id].uid == 0) ==> forall r :: DescribesAll(id, r, k)
  {
    if KernelOk(k) && (rs[id].state == RAbsent || rs[id].uid == 0) {
      AbsentHasNoMounts(rs, k, id);
    }
  }

  lemma AbsentHasNoMounts(rs: map<ShareId, Record>, k: Kernel, id: ShareId)
    requires NoOrphans(rs, k) && (id in rs ==> rs[id].state == RAbsent || rs[id].uid == 0) && KernelOk(k)
    ensures forall r :: DescribesAll(id, r, k)
    ensures forall gen :: !Attached(k, id, gen)
  {
    forall p, i | 0 <= i < |Layers(k, p)| && Layers(k, p)[i].owner.Some?
      ensures Layers(k, p)[i].owner.value.id != id
    {
      assert Describes(rs[Layers(k, p)[i].owner.value.id], p, Layers(k, p)[i], k);
    }
  }

  lemma EntryFacts(es: map<ShareId, Entry>, id: ShareId, k: Kernel, touched: set<Path>, boot: nat)
    requires EntriesOk(es, k, touched, boot) && id in es && KernelOk(k)
    ensures EntryOk(id, es[id])
    ensures RecOk(id, es[id].intent, k, touched, boot) && DescribesAll(id, es[id].intent, k)
    ensures es[id].intent.state == RAbsent || es[id].intent.uid == 0 ==> forall r :: DescribesAll(id, r, k)
  {
    hide RecOk, NoOrphans, DescribesAll, KernelOk;
    JournalEntry(Intents(es), id, k, touched, boot);
  }

  lemma LinkKeeps(disk: map<ShareId, Record>, es: map<ShareId, Entry>, id: ShareId, e: Entry)
    requires LinkOk(disk, es, true, {}) && id in es
    requires e.intent.gen == es[id].intent.gen && Claims(e)
    requires e.intent.state == RAbsent || e.cleanup.Some? ==> id in disk && disk[id].gen == es[id].intent.gen
    ensures LinkOk(disk, es[id := e], true, {})
  {
  }

  lemma IntentsUpdate(es: map<ShareId, Entry>, id: ShareId, e: Entry)
    ensures Intents(es[id := e]) == Intents(es)[id := e.intent]
  {
  }

  lemma OthersApart(es: map<ShareId, Entry>, id: ShareId, path: Path)
    requires forall a :: a in es ==> EntryOk(a, es[a])
    requires forall a :: a in es && a != id && Claims(es[a]) ==> !Overlap(es[a].result.path, path)
    ensures forall a :: a in Intents(es) && a != id && Intents(es)[a].state != RAbsent ==> !Overlap(Intents(es)[a].path, path)
  {
    forall a | a in es && a != id && es[a].intent.state != RAbsent
      ensures !Overlap(es[a].intent.path, path)
    {
      assert EntryOk(a, es[a]);
    }
  }

  ghost predicate NewUid(es: map<ShareId, Entry>, id: ShareId, uid: nat) {
    || uid == 0
    || (id in es && es[id].intent.uid == uid)
    || (forall a :: a in es ==> es[a].intent.uid < uid)
  }

  lemma OthersUids(es: map<ShareId, Entry>, id: ShareId, uid: nat, k: Kernel, touched: set<Path>, boot: nat)
    requires JournalOk(Intents(es), k, touched, boot) && NewUid(es, id, uid)
    ensures uid != 0 ==> forall a :: a in Intents(es) && a != id ==> Intents(es)[a].uid != uid
  {
    hide RecOk, NoOrphans, Disjoint;
    forall a | a in es && a != id && uid != 0
      ensures Intents(es)[a].uid != uid
    {
      assert id in es ==> id in Intents(es) && Intents(es)[id] == es[id].intent;
    }
  }

  /** A new or changed entry whose path no other entry claims. */
  lemma EntryChange(es: map<ShareId, Entry>, id: ShareId, e: Entry, k: Kernel, touched: set<Path>, boot: nat)
    requires EntriesOk(es, k, touched, boot)
    requires EntryOk(id, e) && RecOk(id, e.intent, k, touched, boot) && DescribesAll(id, e.intent, k)
    requires Claims(e) ==> forall a :: a in es && a != id && Claims(es[a]) ==> !Overlap(es[a].result.path, e.result.path)
    requires NewUid(es, id, e.intent.uid)
    requires e.result.state == Mounted && e.intent.transport.VirtioFS? && e.intent.path !in touched ==> Attached(k, id, e.intent.gen)
    ensures EntriesOk(es[id := e], k, touched, boot)
  {
    hide RecOk, NoOrphans, DescribesAll, Disjoint, UidsDiffer, JournalOk, EntryOk, NewUid, Attached;
    IntentsUpdate(es, id, e);
    if e.intent.state != RAbsent {
      assert Claims(e) && e.result.path == e.intent.path by { NonAbsentClaims(id, e); }
      OthersApart(es, id, e.result.path);
    }
    OthersUids(es, id, e.intent.uid, k, touched, boot);
    UpdateJournal(Intents(es), id, e.intent, k, touched, boot);
  }

  lemma NonAbsentClaims(id: ShareId, e: Entry)
    requires EntryOk(id, e) && e.intent.state != RAbsent
    ensures Claims(e) && e.result.path == e.intent.path
  {
  }

  /** The same when the entry already claimed its path. */
  lemma ClaimedChange(es: map<ShareId, Entry>, id: ShareId, e: Entry, k: Kernel, touched: set<Path>, boot: nat)
    requires EntriesOk(es, k, touched, boot) && id in es && Claims(es[id])
    requires EntryOk(id, e) && RecOk(id, e.intent, k, touched, boot) && DescribesAll(id, e.intent, k)
    requires e.intent.path == es[id].intent.path && e.intent.gen == es[id].intent.gen && e.intent.transport == es[id].intent.transport
    requires e.result.state == Mounted ==> es[id].result.state == Mounted
    requires NewUid(es, id, e.intent.uid)
    ensures EntriesOk(es[id := e], k, touched, boot)
  {
    hide RecOk, NoOrphans, DescribesAll, JournalOk;
    assert EntryOk(id, es[id]);
    EntryChange(es, id, e, k, touched, boot);
  }

  // ---- Volatile steps -----------------------------------------------------

  lemma BeginKeeps(s: Sys, m: Mem, q: Request, s': Sys)
    requires Inv(s) && s.mem == Some(m) && BeginStep(s, m, q, s')
    ensures Inv(s')
  {
    hide RecOk, DescribesAll, KernelOk, Unique, JournalOk, EntriesOk;
    if q.id in m.entries {
      EntryFacts(m.entries, q.id, s.kernel, s.touched, s.boot);
    }
    FreshRecord(m.entries, q, s.kernel, s.touched, s.boot);
    EntryChange(m.entries, q.id, NewEntry(q, s.boot), s.kernel, s.touched, s.boot);
    BeginLinks(s.disk, m.entries, q, s.boot);
    assert InvokedBelow(s.invoked, s.boot, q.id, q.gen);
  }

  lemma BeginLinks(disk: map<ShareId, Record>, es: map<ShareId, Entry>, q: Request, boot: nat)
    requires LinkOk(disk, es, true, {}) && Admissible(es, q)
    requires q.id in es ==> es[q.id].result.gen == es[q.id].intent.gen
    ensures LinkOk(disk, es[q.id := NewEntry(q, boot)], true, {})
    ensures q.id in disk ==> disk[q.id].gen < q.gen
  {
  }

  lemma FreshRecord(es: map<ShareId, Entry>, q: Request, k: Kernel, touched: set<Path>, boot: nat)
    requires EntriesOk(es, k, touched, boot) && KernelOk(k) && 0 < q.gen
    requires q.id in es ==> es[q.id].intent.state == RAbsent
    ensures RecOk(q.id, NewRecord(q, boot), k, touched, boot) && DescribesAll(q.id, NewRecord(q, boot), k)
  {
    AbsentHasNoMounts(Intents(es), k, q.id);
  }

  lemma InvokeKeeps(s: Sys, m: Mem, id: ShareId, s': Sys)
    requires Inv(s) && s.mem == Some(m) && InvokeStep(s, m, id, s')
    ensures Inv(s')
  {
    hide RecOk, KernelOk, Unique, JournalOk, EntriesOk;
    assert s.disk[id].gen == m.entries[id].intent.gen;
  }

  /** An aborted mount is attached nowhere. */
  lemma NothingOfAborted(s: Sys, m: Mem, id: ShareId)
    requires Inv(s) && s.mem == Some(m) && (m.hand.Invoked? || m.hand.Opened? || m.hand.Armed?) && m.hand.id == id && id in m.entries
    ensures forall r :: DescribesAll(id, r, s.kernel)
  {
    hide RecOk, DescribesAll, KernelOk, Unique, JournalOk, EntriesOk, InvokedOk, LinkOk;
    EntryFacts(m.entries, id, s.kernel, s.touched, s.boot);
    if m.hand.Armed? { NoMountWithUid(id, m.entries[id].intent, s.kernel); }
  }

  lemma AbortKeeps(s: Sys, m: Mem, id: ShareId, s': Sys)
    requires Inv(s) && s.mem == Some(m) && AbortStep(s, m, id, s')
    ensures Inv(s')
  {
    hide RecOk, DescribesAll, KernelOk, Unique, JournalOk, EntriesOk, InvokedOk, LinkOk, Detached;
    var r := m.entries[id].intent;
    EntryFacts(m.entries, id, s.kernel, s.touched, s.boot);
    AbsentRecord(id, r, s.kernel, s.touched, s.boot);
    assert forall r' :: DescribesAll(id, r', s.kernel) by { NothingOfAborted(s, m, id); }
    LoadedDone(s.disk, m.entries, m.loaded, m.todo);
    ClaimedChange(m.entries, id, m.entries[id].(intent := r.(state := RAbsent)), s.kernel, s.touched, s.boot);
    LinkKeeps(s.disk, m.entries, id, s'.mem.value.entries[id]);
  }

  lemma AbsentRecord(id: ShareId, r: Record, k: Kernel, touched: set<Path>, boot: nat)
    requires RecOk(id, r, k, touched, boot)
    ensures RecOk(id, r.(state := RAbsent), k, touched, boot)
  {
  }

  lemma NoMountWithUid(id: ShareId, r: Record, k: Kernel)
    requires DescribesAll(id, r, k)
    requires forall p, i :: 0 <= i < |Layers(k, p)| ==> Layers(k, p)[i].uid != r.uid
    ensures forall r' :: DescribesAll(id, r', k)
  {
  }

  /** The record of an entry that holds a cleanup is durable. */
  lemma HeldIsDurable(disk: map<ShareId, Record>, es: map<ShareId, Entry>, loaded: bool, todo: set<ShareId>, id: ShareId)
    requires LinkOk(disk, es, loaded, todo) && id in es && es[id].cleanup.Some?
    ensures id in disk && disk[id].gen == es[id].intent.gen
  {
  }

  lemma LeaveKeeps(s: Sys, m: Mem, id: ShareId, s': Sys)
    requires Inv(s) && s.mem == Some(m) && LeaveStep(s, m, id, s')
    ensures Inv(s')
  {
    hide RecOk, DescribesAll, KernelOk, Unique, JournalOk, EntriesOk, InvokedOk, LinkOk, Detached;
    var r := m.entries[id].intent;
    EntryFacts(m.entries, id, s.kernel, s.touched, s.boot);
    TornDownRecord(id, r, s.kernel, s.touched, s.boot);
    LoadedDone(s.disk, m.entries, m.loaded, m.todo);
    HeldIsDurable(s.disk, m.entries, m.loaded, m.todo, id);
    ClaimedChange(m.entries, id, m.entries[id].(intent := TornDown(r)), s.kernel, s.touched, s.boot);
    LinkKeeps(s.disk, m.entries, id, s'.mem.value.entries[id]);
  }

  lemma TornDownRecord(id: ShareId, r: Record, k: Kernel, touched: set<Path>, boot: nat)
    requires RecOk(id, r, k, touched, boot) && DescribesAll(id, r, k) && r.state != RAbsent
    ensures RecOk(id, TornDown(r), k, touched, boot) && DescribesAll(id, TornDown(r), k)
  {
  }

  lemma RetryKeeps(s: Sys, m: Mem, id: ShareId, s': Sys)
    requires Inv(s) && s.mem == Some(m) && RetryStep(s, m, id, s')
    ensures Inv(s')
  {
    hide RecOk, DescribesAll, KernelOk, Unique, JournalOk, EntriesOk, InvokedOk;
    EntryFacts(m.entries, id, s.kernel, s.touched, s.boot);
  }

  lemma GiveUpKeeps(s: Sys, m: Mem, s': Sys)
    requires Inv(s) && s.mem == Some(m) && GiveUpStep(s, m, s')
    ensures Inv(s')
  {
    hide RecOk, KernelOk, Unique, JournalOk, EntriesOk, InvokedOk;
  }

  lemma OtherReturnsKeeps(s: Sys, m: Mem, id: ShareId, s': Sys)
    requires Inv(s) && s.mem == Some(m) && OtherReturnsStep(s, m, id, s')
    ensures Inv(s')
  {
    hide RecOk, DescribesAll, KernelOk, Unique, JournalOk, EntriesOk, InvokedOk;
    EntryFacts(m.entries, id, s.kernel, s.touched, s.boot);
    ClaimedChange(m.entries, id, m.entries[id].(cleanup := Some(Opaque)), s.kernel, s.touched, s.boot);
    LinkKeeps(s.disk, m.entries, id, s'.mem.value.entries[id]);
  }

  lemma CaptureKeeps(s: Sys, m: Mem, id: ShareId, mid: nat, s': Sys)
    requires Inv(s) && s.mem == Some(m) && CaptureStep(s, m, id, mid, s')
    ensures Inv(s')
  {
    hide RecOk, DescribesAll, KernelOk, Unique, JournalOk, EntriesOk, InvokedOk;
    var r := m.entries[id].intent;
    EntryFacts(m.entries, id, s.kernel, s.touched, s.boot);
    CapturedRecord(id, r, mid, s.kernel, s.touched, s.boot);
    ClaimedChange(m.entries, id, m.entries[id].(intent := r.(mid := mid, state := RMounted)), s.kernel, s.touched, s.boot);
    LinkKeeps(s.disk, m.entries, id, s'.mem.value.entries[id]);
  }

  lemma CapturedRecord(id: ShareId, r: Record, mid: nat, k: Kernel, touched: set<Path>, boot: nat)
    requires RecOk(id, r, k, touched, boot) && DescribesAll(id, r, k)
    requires r.transport.VirtioFS? ==> r.state == RMounted && mid == r.mid
    ensures RecOk(id, r.(mid := mid, state := RMounted), k, touched, boot)
    ensures DescribesAll(id, r.(mid := mid, state := RMounted), k)
  {
  }

  // ---- Saves --------------------------------------------------------------

  lemma SaveLinks(es: map<ShareId, Entry>)
    requires forall id :: id in es ==> EntryOk(id, es[id])
    ensures LinkOk(Intents(es), es, true, {})
    ensures (forall id :: id in es && es[id].intent.state == RAbsent ==> !Claims(es[id])) ==> LinkOk(Intents(es), es, false, {})
  {
    hide EntryOk;
    forall id | id in es
      ensures Claims(es[id]) || es[id].intent.state == RAbsent
    {
      EntryClaims(id, es[id]);
    }
  }

  lemma EntryClaims(id: ShareId, e: Entry)
    requires EntryOk(id, e)
    ensures Claims(e) || e.intent.state == RAbsent
  {
  }

  lemma SaveInvoked(log: seq<Invocation>, boot: nat, disk: map<ShareId, Record>, es: map<ShareId, Entry>)
    requires InvokedOk(log, boot, disk)
    requires forall id :: id in disk ==> id in es && disk[id].gen <= es[id].intent.gen
    ensures InvokedOk(log, boot, Intents(es))
  {
  }

  lemma EntriesParts(es: map<ShareId, Entry>, k: Kernel, touched: set<Path>, boot: nat)
    requires EntriesOk(es, k, touched, boot)
    ensures JournalOk(Intents(es), k, touched, boot)
    ensures forall id :: id in es ==> EntryOk(id, es[id])
  {
  }

  /** The entry whose result changes when its save succeeds. */
  lemma SettledEntry(es: map<ShareId, Entry>, id: ShareId, result: ShareResult, k: Kernel, touched: set<Path>, boot: nat)
    requires EntriesOk(es, k, touched, boot) && id in es && Claims(es[id]) && KernelOk(k)
    requires result.ok && result.id == es[id].result.id && result.gen == es[id].result.gen
    requires result.state == Absent || (result.state == Mounted && result.path == es[id].result.path)
    requires result.state == Absent ==> es[id].intent.state == RAbsent && es[id].cleanup.None?
    requires result.state == Mounted ==> es[id].intent.state == RMounted && es[id].cleanup.Some?
    ensures var es' := es[id := es[id].(result := result)];
            EntriesOk(es', k, touched, boot) && Intents(es') == Intents(es)
  {
    hide NoOrphans, DescribesAll, KernelOk, JournalOk, EntriesOk;
    EntryFacts(es, id, k, touched, boot);
    var e := es[id].(result := result);
    if result.state == Mounted && e.intent.transport.VirtioFS? && e.intent.path !in touched {
      assert QuietOk(e.intent, k);
      assert Layers(k, e.intent.path)[0].owner == Some(Owner(id, e.intent.gen));
    }
    ClaimsApart(es, id, k, touched, boot);
    EntryChange(es, id, e, k, touched, boot);
  }

  lemma ClaimsApart(es: map<ShareId, Entry>, id: ShareId, k: Kernel, touched: set<Path>, boot: nat)
    requires EntriesOk(es, k, touched, boot) && id in es && Claims(es[id])
    ensures forall a :: a in es && a != id && Claims(es[a]) ==> !Overlap(es[a].result.path, es[id].result.path)
  {
  }

  lemma SaveDisk(s: Sys, m: Mem, ok: bool, s': Sys)
    requires Inv(s) && s.mem == Some(m) && SaveStep(s, m, ok, s')
    ensures JournalOk(s'.disk, s'.kernel, s'.touched, s'.boot) && InvokedOk(s'.invoked, s'.boot, s'.disk)
    ensures LinkOk(s'.disk, m.entries, m.loaded, {}) && m.todo == {}
    ensures ok ==> LinkOk(s'.disk, m.entries, true, {})
  {
    hide RecOk, NoOrphans, KernelOk, Unique, JournalOk, EntriesOk, InvokedOk, EntryOk, Stage;
    EntriesParts(m.entries, s.kernel, s.touched, s.boot);
    SaveInvoked(s.invoked, s.boot, s.disk, m.entries);
    SaveLinks(m.entries);
  }

  lemma SaveKeeps(s: Sys, m: Mem, ok: bool, s': Sys)
    requires Inv(s) && s.mem == Some(m) && SaveStep(s, m, ok, s')
    ensures Inv(s')
  {
    hide RecOk, DescribesAll, NoOrphans, KernelOk, Unique, JournalOk, EntriesOk, InvokedOk, EntryOk, LinkOk;
    SaveDisk(s, m, ok, s');
    assert m.hand != Idle ==> m.loaded;
    if m.loaded && ok && (m.hand.Landing? || m.hand.Aborting? || m.hand.Gone?) {
      var id := m.hand.id;
      SettledEntry(m.entries, id, s'.mem.value.entries[id].result, s.kernel, s.touched, s.boot);
      EntriesParts(s'.mem.value.entries, s.kernel, s.touched, s.boot);
      SaveLinks(s'.mem.value.entries);
    } else if m.loaded && m.hand.Aborting? {
      var id := m.hand.id;
      var e := m.entries[id].(intent := m.entries[id].intent.(state := RPending));
      EntryFacts(m.entries, id, s.kernel, s.touched, s.boot);
      AbortedEntry(id, m.entries[id]);
      ClaimedChange(m.entries, id, e, s.kernel, s.touched, s.boot);
      AbortedLink(s'.disk, m.entries, id, e);
    }
  }

  lemma AbortedEntry(id: ShareId, e: Entry)
    requires EntryOk(id, e) && e.intent.state == RAbsent && Claims(e)
    ensures EntryOk(id, e.(intent := e.intent.(state := RPending))) && e.intent.id == id
  {
  }

  lemma AbortedLink(disk: map<ShareId, Record>, es: map<ShareId, Entry>, id: ShareId, e: Entry)
    requires LinkOk(disk, es, true, {}) && id in es && Claims(es[id]) && es[id].intent.state == RAbsent
    requires e == es[id].(intent := es[id].intent.(state := RPending))
    ensures LinkOk(disk, es[id := e], true, {})
  {
    LinkKeeps(disk, es, id, e);
  }

  // ---- Native steps -------------------------------------------------------

  /** Opening an empty, unmounted target: from here on a change by other software is noticed. */
  lemma OpenKeeps(s: Sys, m: Mem, id: ShareId, s': Sys)
    requires Inv(s) && s.mem == Some(m) && OpenStep(s, m, id, s')
    ensures Inv(s')
  {
    hide RecOk, DescribesAll, KernelOk, Unique, JournalOk, EntriesOk, InvokedOk, EntryOk, LinkOk;
    assert s.disk == Intents(m.entries);
    EntryFacts(m.entries, id, s.kernel, s.touched, s.boot);
    OpenedJournal(m.entries, id, s.kernel, s.touched, s.boot);
    EntriesParts(m.entries, s.kernel, s'.touched, s.boot);
    assert s.kernel.base[m.entries[id].intent.path].mid != 0 by { BasePositive(s.kernel, m.entries[id].intent.path); }
  }

  lemma BasePositive(k: Kernel, p: Path)
    requires KernelOk(k) && p in k.base
    ensures 0 < k.base[p].mid
  {
  }

  lemma OpenedJournal(es: map<ShareId, Entry>, id: ShareId, k: Kernel, touched: set<Path>, boot: nat)
    requires EntriesOk(es, k, touched, boot) && id in es && Claims(es[id])
    requires es[id].intent.state == RPending && es[id].intent.uid == 0 && es[id].result.state == RecoveryRequired
    ensures EntriesOk(es, k, touched - {es[id].intent.path}, boot)
  {
    var p := es[id].intent.path;
    hide NoOrphans, Describes;
    assert EntryOk(id, es[id]);
    forall a | a in es
      ensures RecOk(a, es[a].intent, k, touched - {p}, boot)
      ensures a != id && Claims(es[a]) ==> es[a].intent.path != p
    {
      assert EntryOk(a, es[a]) && RecOk(a, Intents(es)[a], k, touched, boot);
      if a != id && es[a].intent.state != RAbsent {
        assert Claims(es[a]) && !Overlap(es[a].result.path, es[id].result.path);
      }
    }
  }

  lemma CreateKeeps(s: Sys, m: Mem, id: ShareId, x: Mount, s': Sys)
    requires Inv(s) && s.mem == Some(m) && CreateStep(s, m, id, x, s')
    ensures Inv(s')
  {
    hide RecOk, DescribesAll, KernelOk, Unique, JournalOk, EntriesOk, InvokedOk, EntryOk, LinkOk, Detached;
    var e := m.entries[id];
    var r' := s'.mem.value.entries[id].intent;
    NextUidKernel(s.kernel);
    NextUidJournal(s.disk, s.kernel, s.touched, s.boot);
    NextUidEntries(m.entries, s.kernel, s.touched, s.boot);
    EntryFacts(m.entries, id, s'.kernel, s.touched, s.boot);
    CreatedRecord(id, e, r', x, m.hand.dir, s.kernel, s.touched, s.boot);
    ClaimedChange(m.entries, id, e.(intent := r'), s'.kernel, s.touched, s.boot);
    assert m.loaded && m.todo == {} by { LoadedDone(s.disk, m.entries, m.loaded, m.todo); }
    LinkKeeps(s.disk, m.entries, id, e.(intent := r'));
  }

  lemma LoadedDone(disk: map<ShareId, Record>, es: map<ShareId, Entry>, loaded: bool, todo: set<ShareId>)
    requires LinkOk(disk, es, loaded, todo)
    ensures loaded ==> todo == {}
    ensures forall id :: id in disk ==> id in es && disk[id].gen <= es[id].intent.gen
  {
  }

  function Bumped(k: Kernel): Kernel { k.(nextUid := k.nextUid + 1) }

  lemma NextUidKernel(k: Kernel)
    requires KernelOk(k) && Unique(k)
    ensures KernelOk(Bumped(k)) && Unique(Bumped(k))
    ensures forall p, i :: 0 <= i < |Layers(k, p)| ==> Layers(k, p)[i].uid < k.nextUid
  {
    forall p, i | 0 <= i < |Layers(Bumped(k), p)|
      ensures MountOk(Bumped(k), p, Layers(Bumped(k), p)[i])
    {
      assert MountOk(k, p, Layers(k, p)[i]);
    }
    forall p, i | 0 <= i < |Layers(k, p)|
      ensures Layers(k, p)[i].uid < k.nextUid
    {
      assert MountOk(k, p, Layers(k, p)[i]);
    }
    KeepsUniqueSame(k, Bumped(k));
  }

  lemma KeepsUniqueSame(k: Kernel, k': Kernel)
    requires Unique(k) && k'.layers == k.layers
    ensures Unique(k')
  {
    forall q, i, t, j | 0 <= i < |Layers(k', q)| && 0 <= j < |Layers(k', t)| && Layers(k', q)[i].uid == Layers(k', t)[j].uid
      ensures q == t && i == j
    {
      assert Layers(k, q)[i] == Layers(k', q)[i] && Layers(k, t)[j] == Layers(k', t)[j];
    }
  }

  lemma NextUidRecord(id: ShareId, r: Record, k: Kernel, touched: set<Path>, boot: nat)
    requires RecOk(id, r, k, touched, boot)
    ensures RecOk(id, r, Bumped(k), touched, boot)
  {
    forall p, i | 0 <= i < |Layers(Bumped(k), p)| && Layers(Bumped(k), p)[i].uid == r.uid
      ensures Layers(Bumped(k), p)[i].owner == Some(Owner(id, r.gen))
    {
      assert Layers(k, p)[i] == Layers(Bumped(k), p)[i];
    }
  }

  lemma NextUidJournal(rs: map<ShareId, Record>, k: Kernel, touched: set<Path>, boot: nat)
    requires JournalOk(rs, k, touched, boot)
    ensures JournalOk(rs, Bumped(k), touched, boot)
  {
    hide RecOk;
    forall id | id in rs
      ensures RecOk(id, rs[id], Bumped(k), touched, boot)
    {
      NextUidRecord(id, rs[id], k, touched, boot);
    }
    forall p, i | 0 <= i < |Layers(Bumped(k), p)| && Layers(Bumped(k), p)[i].owner.Some?
      ensures Layers(k, p)[i].owner.value.id in rs && Describes(rs[Layers(k, p)[i].owner.value.id], p, Layers(k, p)[i], Bumped(k))
    {
      assert Describes(rs[Layers(k, p)[i].owner.value.id], p, Layers(k, p)[i], k);
    }
  }

  lemma NextUidEntries(es: map<ShareId, Entry>, k: Kernel, touched: set<Path>, boot: nat)
    requires EntriesOk(es, k, touched, boot)
    ensures EntriesOk(es, Bumped(k), touched, boot)
    ensures forall a :: a in es ==> es[a].intent.uid < k.nextUid
  {
    forall a | a in es
      ensures es[a].intent.uid < k.nextUid
    {
      JournalEntry(Intents(es), a, k, touched, boot);
    }
    hide JournalOk, EntryOk, RecOk, DescribesAll;
    NextUidJournal(Intents(es), k, touched, boot);
    forall id, gen | Attached(k, id, gen)
      ensures Attached(Bumped(k), id, gen)
    {
      var p, i :| 0 <= i < |Layers(k, p)| && Layers(k, p)[i].owner == Some(Owner(id, gen));
      assert Layers(Bumped(k), p)[i].owner == Some(Owner(id, gen));
    }
  }

  lemma CreatedRecord(id: ShareId, e: Entry, r': Record, x: Mount, d: Dir, k: Kernel, touched: set<Path>, boot: nat)
    requires EntryOk(id, e) && RecOk(id, e.intent, Bumped(k), touched, boot) && Stage(Opened(id, d), e, k, touched, boot)
    requires forall p, i :: 0 <= i < |Layers(k, p)| ==> Layers(k, p)[i].uid < x.uid
    requires x.uid == k.nextUid > 0 && x.mid != 0 && x.mid != d.mid && x.virtiofs && x.source == e.intent.source && x.ro == e.intent.ro
    requires x.owner == Some(Owner(id, e.intent.gen)) && Claims(e) && e.result.state == RecoveryRequired
    requires r' == e.intent.(mid := x.mid, uid := x.uid, target := d, phase := Attaching)
    ensures RecOk(id, r', Bumped(k), touched, boot) && EntryOk(id, e.(intent := r')) && Detached(x, r', Bumped(k))
  {
    assert forall p :: Layers(Bumped(k), p) == Layers(k, p);
  }

  lemma AttachKeeps(s: Sys, m: Mem, id: ShareId, s': Sys)
    requires Inv(s) && s.mem == Some(m) && AttachStep(s, m, id, s')
    ensures Inv(s')
  {
    hide RecOk, DescribesAll, KernelOk, Unique, JournalOk, EntriesOk, InvokedOk, EntryOk, LinkOk, Detached;
    var e := m.entries[id];
    var e' := s'.mem.value.entries[id];
    var x := m.hand.m;
    EntryFacts(m.entries, id, s.kernel, s.touched, s.boot);
    ArmedMount(s.kernel, id, e, x, s.touched, s.boot);
    assert e.intent.id == id by { IntentId(id, e); }
    AttachedJournal(s.disk, id, s.kernel, x, s.touched, s.boot);
    AttachedEntries(m.entries, id, s.kernel, x, s.touched, s.boot);
    EntryFacts(m.entries, id, s'.kernel, s.touched, s.boot);
    AttachedRecord(id, e, s'.kernel, s.touched, s.boot);
    ClaimedChange(m.entries, id, e', s'.kernel, s.touched, s.boot);
    LoadedDone(s.disk, m.entries, m.loaded, m.todo);
    LinkKeeps(s.disk, m.entries, id, e');
  }

  lemma IntentId(id: ShareId, e: Entry)
    requires EntryOk(id, e)
    ensures e.intent.id == id && e.result.id == id && e.result.gen == e.intent.gen
  {
  }

  lemma ArmedMount(k: Kernel, id: ShareId, e: Entry, x: Mount, touched: set<Path>, boot: nat)
    requires KernelOk(k) && Unique(k) && RecOk(id, e.intent, k, touched, boot) && Detached(x, e.intent, k)
    requires DescribesAll(id, e.intent, k)
    requires e.intent.transport.VirtioFS? && e.intent.state == RPending && e.intent.phase == Attaching
    requires e.intent.path in k.base && k.base[e.intent.path] == e.intent.target
    ensures var k' := Push(k, e.intent.path, x);
            && KernelOk(k') && Unique(k')
            && Layers(k', e.intent.path) == Layers(k, e.intent.path) + [x]
            && (forall q :: q != e.intent.path ==> Layers(k', q) == Layers(k, q))
    ensures Describes(e.intent, e.intent.path, x, k)
    ensures e.intent.path !in touched ==> Layers(k, e.intent.path) == []
  {
    PushKeepsKernel(k, e.intent.path, x);
    forall i | 0 <= i < |Layers(k, e.intent.path)|
      ensures Layers(k, e.intent.path)[i].owner != Some(Owner(id, e.intent.gen))
    {
      assert Layers(k, e.intent.path)[i].uid != x.uid;
    }
  }

  lemma AttachedRecord(id: ShareId, e: Entry, k: Kernel, touched: set<Path>, boot: nat)
    requires EntryOk(id, e) && RecOk(id, e.intent, k, touched, boot) && DescribesAll(id, e.intent, k)
    requires e.intent.transport.VirtioFS? && e.intent.state == RPending && e.intent.phase == Attaching && e.result.state == RecoveryRequired
    requires e.intent.path !in touched ==> |Layers(k, e.intent.path)| == 1
    ensures var r := e.intent.(state := RMounted);
            RecOk(id, r, k, touched, boot) && DescribesAll(id, r, k) && EntryOk(id, e.(intent := r))
  {
  }

  lemma AttachedOther(id: ShareId, r: Record, k: Kernel, p: Path, x: Mount, touched: set<Path>, boot: nat)
    requires RecOk(id, r, k, touched, boot) && r.uid != x.uid && (r.state != RAbsent ==> r.path != p)
    ensures RecOk(id, r, Push(k, p, x), touched, boot)
  {
    var k' := Push(k, p, x);
    assert forall q :: q != p ==> Layers(k', q) == Layers(k, q);
    assert Layers(k', p) == Layers(k, p) + [x];
  }

  lemma AttachedOwn(id: ShareId, r: Record, k: Kernel, x: Mount, touched: set<Path>, boot: nat)
    requires RecOk(id, r, k, touched, boot) && Detached(x, r, k) && Describes(r, r.path, x, k) && r.state == RPending
    requires r.path !in touched ==> Layers(k, r.path) == []
    ensures RecOk(id, r, Push(k, r.path, x), touched, boot)
  {
    var k' := Push(k, r.path, x);
    assert forall q :: q != r.path ==> Layers(k', q) == Layers(k, q);
    assert Layers(k', r.path) == Layers(k, r.path) + [x];
  }

  lemma AttachedJournal(rs: map<ShareId, Record>, id: ShareId, k: Kernel, x: Mount, touched: set<Path>, boot: nat)
    requires JournalOk(rs, k, touched, boot) && id in rs && rs[id].id == id && Detached(x, rs[id], k) && Describes(rs[id], rs[id].path, x, k) && rs[id].state == RPending
    requires rs[id].path !in touched ==> Layers(k, rs[id].path) == []
    ensures JournalOk(rs, Push(k, rs[id].path, x), touched, boot)
  {
    hide RecOk;
    var p := rs[id].path;
    var k' := Push(k, p, x);
    forall a | a in rs
      ensures RecOk(a, rs[a], k', touched, boot)
    {
      if a == id {
        AttachedOwn(id, rs[id], k, x, touched, boot);
      } else {
        assert rs[id].uid != 0 && (rs[a].state != RAbsent ==> !Overlap(rs[a].path, rs[id].path));
        AttachedOther(a, rs[a], k, p, x, touched, boot);
      }
    }
    forall q, i | 0 <= i < |Layers(k', q)| && Layers(k', q)[i].owner.Some?
      ensures Layers(k', q)[i].owner.value.id in rs && Describes(rs[Layers(k', q)[i].owner.value.id], q, Layers(k', q)[i], k')
    {
      if q == p && i == |Layers(k, p)| {
        assert Describes(rs[id], p, x, k);
      } else {
        assert Layers(k', q)[i] == Layers(k, q)[i];
        assert Describes(rs[Layers(k, q)[i].owner.value.id], q, Layers(k, q)[i], k);
      }
    }
  }

  lemma AttachedEntries(es: map<ShareId, Entry>, id: ShareId, k: Kernel, x: Mount, touched: set<Path>, boot: nat)
    requires EntriesOk(es, k, touched, boot) && id in es && es[id].intent.id == id
    requires Detached(x, es[id].intent, k) && Describes(es[id].intent, es[id].intent.path, x, k) && es[id].intent.state == RPending
    requires es[id].intent.path !in touched ==> Layers(k, es[id].intent.path) == []
    ensures EntriesOk(es, Push(k, es[id].intent.path, x), touched, boot)
  {
    hide JournalOk, EntryOk, Detached, Describes;
    AttachedJournal(Intents(es), id, k, x, touched, boot);
    var k' := Push(k, es[id].intent.path, x);
    forall a, gen | Attached(k, a, gen)
      ensures Attached(k', a, gen)
    {
      var p, i :| 0 <= i < |Layers(k, p)| && Layers(k, p)[i].owner == Some(Owner(a, gen));
      assert Layers(k', p)[i].owner == Some(Owner(a, gen));
    }
  }

  lemma AdoptKeeps(s: Sys, m: Mem, id: ShareId, s': Sys)
    requires Inv(s) && s.mem == Some(m) && AdoptStep(s, m, id, s')
    ensures Inv(s')
  {
    hide RecOk, DescribesAll, KernelOk, Unique, JournalOk, EntriesOk, InvokedOk, EntryOk, LinkOk, Recoverable, View;
    var e := m.entries[id];
    var e' := s'.mem.value.entries[id];
    EntryFacts(m.entries, id, s.kernel, s.touched, s.boot);
    AdoptedEntry(id, e, s.kernel, s.touched, s.boot);
    ClaimedChange(m.entries, id, e', s.kernel, s.touched, s.boot);
    LoadedDone(s.disk, m.entries, m.loaded, m.todo);
    LinkKeeps(s.disk, m.entries, id, e');
  }

  lemma AdoptedEntry(id: ShareId, e: Entry, k: Kernel, touched: set<Path>, boot: nat)
    requires EntryOk(id, e) && RecOk(id, e.intent, k, touched, boot) && e.intent.state == RMounted && e.intent.transport.VirtioFS?
    requires e.result.state == RecoveryRequired
    ensures EntryOk(id, e.(cleanup := Some(Own(e.intent))))
  {
  }

  ghost predicate OwnOnTop(k: Kernel, id: ShareId, r: Record) {
    && Layers(k, r.path) != []
    && Layers(k, r.path)[|Layers(k, r.path)| - 1].owner == Some(Owner(id, r.gen))
    && Layers(k, r.path)[|Layers(k, r.path)| - 1].uid == r.uid
  }

  /** The topmost mount a cleanup removes is the one the agent created for this share and generation. */
  lemma TopIsOwn(k: Kernel, id: ShareId, r: Record, node: Option<Node>, touched: set<Path>, boot: nat)
    requires RecOk(id, r, k, touched, boot) && r.transport.VirtioFS? && KernelOk(k)
    requires node == View(k, r.path) && node.Some? && Verified(r, node.value)
    ensures OwnOnTop(k, id, r)
  {
  }

  lemma DetachedJournal(rs: map<ShareId, Record>, id: ShareId, k: Kernel, touched: set<Path>, boot: nat)
    requires JournalOk(rs, k, touched, boot) && id in rs && KernelOk(k) && Unique(k)
    requires rs[id].state == RPending && rs[id].phase == Detaching && rs[id].transport.VirtioFS?
    requires OwnOnTop(k, id, rs[id])
    ensures JournalOk(rs, Pop(k, rs[id].path), touched, boot)
    ensures forall r :: DescribesAll(id, r, Pop(k, rs[id].path))
  {
    hide RecOk;
    var p := rs[id].path;
    var k' := Pop(k, p);
    PopKeepsKernel(k, p);
    forall a | a in rs
      ensures RecOk(a, rs[a], k', touched, boot)
    {
      if a != id && rs[a].state != RAbsent {
        assert !Overlap(rs[a].path, rs[id].path);
      }
      PoppedRecord(a, rs[a], k, p, a == id, touched, boot);
    }
    forall q, i | 0 <= i < |Layers(k', q)| && Layers(k', q)[i].owner.Some?
      ensures Layers(k', q)[i].owner.value.id in rs && Describes(rs[Layers(k', q)[i].owner.value.id], q, Layers(k', q)[i], k')
      ensures Layers(k', q)[i].owner.value.id != id
    {
      assert Layers(k', q)[i] == Layers(k, q)[i];
      assert Describes(rs[Layers(k, q)[i].owner.value.id], q, Layers(k, q)[i], k);
      assert Layers(k, p)[|Layers(k, p)| - 1].uid == rs[id].uid;
    }
  }

  lemma PoppedRecord(id: ShareId, r: Record, k: Kernel, p: Path, own: bool, touched: set<Path>, boot: nat)
    requires RecOk(id, r, k, touched, boot) && Layers(k, p) != []
    requires own ==> r.path == p && r.state == RPending
    requires !own && r.state != RAbsent ==> r.path != p
    ensures RecOk(id, r, Pop(k, p), touched, boot)
  {
    var k' := Pop(k, p);
    assert forall q :: q != p ==> Layers(k', q) == Layers(k, q);
    assert Layers(k', p) == Layers(k, p)[..|Layers(k, p)| - 1];
    forall q, i | 0 <= i < |Layers(k', q)| && Layers(k', q)[i].uid == r.uid
      ensures Layers(k', q)[i].owner == Some(Owner(id, r.gen))
    {
      assert Layers(k', q)[i] == Layers(k, q)[i];
    }
  }

  /** The kernel after the cleanup of an entry. */
  function AfterDetach(k: Kernel, e: Entry): Kernel
    requires e.cleanup.Some? && (e.cleanup.value.Own? ==> Layers(k, e.cleanup.value.r.path) != [])
  {
    if e.cleanup.value.Own? then Pop(k, e.cleanup.value.r.path) else k
  }

  lemma DetachKeeps(s: Sys, m: Mem, id: ShareId, s': Sys)
    requires Inv(s) && s.mem == Some(m) && DetachStep(s, m, id, s')
    ensures Inv(s')
  {
    hide RecOk, DescribesAll, KernelOk, Unique, JournalOk, EntriesOk, InvokedOk, EntryOk, LinkOk, View;
    var e := m.entries[id];
    var e' := s'.mem.value.entries[id];
    EntryFacts(m.entries, id, s.kernel, s.touched, s.boot);
    OwnCleanup(id, e);
    if e.cleanup.value.Own? {
      TopIsOwn(s.kernel, id, e.intent, View(s.kernel, e.intent.path), s.touched, s.boot);
      assert OwnOnTop(s.kernel, id, s.disk[id]);
      PopKeepsKernel(s.kernel, e.intent.path);
      DetachedJournal(s.disk, id, s.kernel, s.touched, s.boot);
    }
    DetachedEntries(m.entries, id, s.kernel, s.touched, s.boot);
    LoadedDone(s.disk, m.entries, m.loaded, m.todo);
    LinkKeeps(s.disk, m.entries, id, e');
  }

  lemma OwnCleanup(id: ShareId, e: Entry)
    requires EntryOk(id, e) && e.cleanup.Some?
    ensures e.cleanup.value.Own? <==> e.intent.transport.VirtioFS?
    ensures e.cleanup.value.Own? ==> e.intent.uid != 0 && e.cleanup.value.r == e.intent.(state := RMounted, phase := e.cleanup.value.r.phase)
    ensures EntryOk(id, Entry(WithState(e.result, RecoveryRequired), None, e.intent.(state := RAbsent)))
    ensures e.intent.state != RAbsent
  {
  }

  lemma DetachedEntries(es: map<ShareId, Entry>, id: ShareId, k: Kernel, touched: set<Path>, boot: nat)
    requires EntriesOk(es, k, touched, boot) && KernelOk(k) && Unique(k) && id in es && Claims(es[id]) && es[id].cleanup.Some?
    requires es[id].intent.state == RPending
    requires es[id].cleanup.value.Own? ==> es[id].intent.transport.VirtioFS? && es[id].intent.phase == Detaching && OwnOnTop(k, id, es[id].intent)
    requires es[id].cleanup.value.Own? ==> es[id].cleanup.value.r.path == es[id].intent.path
    ensures EntriesOk(es[id := Entry(WithState(es[id].result, RecoveryRequired), None, es[id].intent.(state := RAbsent))], AfterDetach(k, es[id]), touched, boot)
  {
    hide RecOk, NoOrphans, DescribesAll, JournalOk, KernelOk, Unique;
    var e := es[id];
    var e' := Entry(WithState(e.result, RecoveryRequired), None, e.intent.(state := RAbsent));
    var k' := AfterDetach(k, e);
    assert EntryOk(id, e);
    if e.cleanup.value.Own? {
      DetachedJournal(Intents(es), id, k, touched, boot);
      DetachedOthers(k, id, e.intent.path);
    } else {
      JournalEntry(Intents(es), id, k, touched, boot);
    }
    assert DescribesAll(id, e'.intent, k') by { EntryNoMounts(es, id, k, k', touched, boot, e'.intent); }
    JournalEntry(Intents(es), id, k', touched, boot);
    AbsentRecord(id, e.intent, k', touched, boot);
    SameUid(Intents(es), id, k', touched, boot);
    UpdateJournal(Intents(es), id, e'.intent, k', touched, boot);
    IntentsUpdate(es, id, e');
  }

  lemma SameUid(rs: map<ShareId, Record>, id: ShareId, k: Kernel, touched: set<Path>, boot: nat)
    requires JournalOk(rs, k, touched, boot) && id in rs
    ensures rs[id].uid != 0 ==> forall a :: a in rs && a != id ==> rs[a].uid != rs[id].uid
  {
  }

  lemma EntryNoMounts(es: map<ShareId, Entry>, id: ShareId, k: Kernel, k': Kernel, touched: set<Path>, boot: nat, r: Record)
    requires EntriesOk(es, k, touched, boot) && id in es && KernelOk(k) && EntryOk(id, es[id]) && es[id].cleanup.Some?
    requires es[id].cleanup.value.Own? ==> forall x :: DescribesAll(id, x, k')
    requires !es[id].cleanup.value.Own? ==> k' == k
    ensures DescribesAll(id, r, k')
  {
    if !es[id].cleanup.value.Own? {
      JournalEntry(Intents(es), id, k, touched, boot);
    }
  }

  lemma DetachedOthers(k: Kernel, id: ShareId, p: Path)
    requires Layers(k, p) != []
    requires var x := Layers(k, p)[|Layers(k, p)| - 1]; x.owner.Some? && x.owner.value.id == id
    ensures forall a, gen :: a != id && Attached(k, a, gen) ==> Attached(Pop(k, p), a, gen)
  {
    var k' := Pop(k, p);
    forall a, gen | a != id && Attached(k, a, gen)
      ensures Attached(k', a, gen)
    {
      var q, i :| 0 <= i < |Layers(k, q)| && Layers(k, q)[i].owner == Some(Owner(a, gen));
      assert Layers(k', q)[i] == Layers(k, q)[i];
    }
  }

  // ---- Restart ------------------------------------------------------------

  lemma LoadKeeps(s: Sys, s': Sys)
    requires Inv(s) && LoadStep(s, s')
    ensures Inv(s')
  {
    hide RecOk, JournalOk, KernelOk, Unique, InvokedOk, EntryOk, EntriesOk, LinkOk;
    assert Intents(Loaded(s.disk).entries) == s.disk;
    LoadedEntries(s.disk, s.kernel, s.touched, s.boot);
  }

  lemma LoadedEntries(disk: map<ShareId, Record>, k: Kernel, touched: set<Path>, boot: nat)
    requires JournalOk(disk, k, touched, boot)
    ensures EntriesOk(Loaded(disk).entries, k, touched, boot)
    ensures LinkOk(disk, Loaded(disk).entries, false, Loaded(disk).todo)
  {
    hide RecOk, NoOrphans, UidsDiffer, Disjoint, EntryOk, ClaimsDisjoint, LinkOk;
    var es := Loaded(disk).entries;
    assert Intents(es) == disk;
    forall id | id in es
      ensures EntryOk(id, es[id])
    {
      assert RecOk(id, disk[id], k, touched, boot);
      LoadedEntry(id, disk[id], k, touched, boot);
    }
    LoadedClaims(disk);
    LoadedLinks(disk);
  }

  lemma LoadedClaims(disk: map<ShareId, Record>)
    requires Disjoint(disk)
    ensures ClaimsDisjoint(Loaded(disk).entries)
  {
  }

  lemma LoadedLinks(disk: map<ShareId, Record>)
    ensures LinkOk(disk, Loaded(disk).entries, false, Loaded(disk).todo)
  {
  }

  lemma LoadedEntry(id: ShareId, r: Record, k: Kernel, touched: set<Path>, boot: nat)
    requires RecOk(id, r, k, touched, boot)
    ensures EntryOk(id, LoadEntry(r))
  {
  }

  lemma RecoverOneKeeps(s: Sys, m: Mem, id: ShareId, node: Option<Node>, s': Sys)
    requires Inv(s) && s.mem == Some(m) && RecoverOneStep(s, m, id, node, s')
    ensures Inv(s')
  {
    hide RecOk, DescribesAll, KernelOk, Unique, JournalOk, EntriesOk, InvokedOk, EntryOk, RecoverEntry, LinkOk, Attached;
    var e := m.entries[id];
    var e' := RecoverEntry(e, node);
    EntryFacts(m.entries, id, s.kernel, s.touched, s.boot);
    RecoverLinks(s.disk, m.entries, m.todo, id, e);
    RecoveredEntry(id, e, node, s.kernel, s.touched, s.boot);
    ClaimsApart(m.entries, id, s.kernel, s.touched, s.boot);
    EntryChange(m.entries, id, e', s.kernel, s.touched, s.boot);
    RecoveredLinks(s.disk, m.entries, m.todo, id, e');
  }

  lemma RecoverLinks(disk: map<ShareId, Record>, es: map<ShareId, Entry>, todo: set<ShareId>, id: ShareId, e: Entry)
    requires LinkOk(disk, es, false, todo) && id in todo && id in es && e == es[id]
    ensures e.intent.state != RAbsent && e.result.state == RecoveryRequired && e.cleanup.None?
  {
  }

  lemma RecoveredLinks(disk: map<ShareId, Record>, es: map<ShareId, Entry>, todo: set<ShareId>, id: ShareId, e: Entry)
    requires LinkOk(disk, es, false, todo) && id in todo && id in es
    requires e.intent.gen == es[id].intent.gen && (e.intent.state == RAbsent ==> !Claims(e))
    ensures LinkOk(disk, es[id := e], false, todo - {id})
  {
  }

  /** Seeing the recorded target directory at the target means the agent's mount is not there. */
  lemma TargetMeansGone(id: ShareId, r: Record, k: Kernel)
    requires DescribesAll(id, r, k) && KernelOk(k)
    requires View(k, r.path).Some? && View(k, r.path).value.mid == r.target.mid
    ensures forall x :: DescribesAll(id, x, k)
  {
    forall p, i | 0 <= i < |Layers(k, p)| && Layers(k, p)[i].owner.Some?
      ensures Layers(k, p)[i].owner.value.id != id
    {
      assert MountOk(k, p, Layers(k, p)[|Layers(k, p)| - 1]);
    }
  }

  lemma RecoveredEntry(id: ShareId, e: Entry, node: Option<Node>, k: Kernel, touched: set<Path>, boot: nat)
    requires EntryOk(id, e) && RecOk(id, e.intent, k, touched, boot) && DescribesAll(id, e.intent, k) && KernelOk(k)
    requires e.intent.uid == 0 ==> forall r :: DescribesAll(id, r, k)
    requires e.intent.state != RAbsent && e.result.state == RecoveryRequired && e.cleanup.None?
    requires node == None || node == View(k, e.intent.path)
    ensures var e' := RecoverEntry(e, node);
            && EntryOk(id, e') && RecOk(id, e'.intent, k, touched, boot) && DescribesAll(id, e'.intent, k)
            && e'.result.path == e.result.path && e'.intent.gen == e.intent.gen && e'.intent.uid == e.intent.uid
            && (e'.intent.state == RAbsent ==> !Claims(e'))
            && (e'.result.state == Mounted && e'.intent.transport.VirtioFS? ==> Attached(k, id, e'.intent.gen))
  {
    var r := e.intent;
    var e' := RecoverEntry(e, node);
    if e'.result.state == Mounted {
      TopIsOwn(k, id, r, node, touched, boot);
      RecoveredMounted(id, r, k, touched, boot);
    } else if e'.intent.state == RAbsent {
      AbsentRecord(id, r, k, touched, boot);
      if r.phase != Preparing {
        TargetMeansGone(id, r, k);
      }
    }
  }

  lemma RecoveredMounted(id: ShareId, r: Record, k: Kernel, touched: set<Path>, boot: nat)
    requires RecOk(id, r, k, touched, boot) && DescribesAll(id, r, k) && OwnOnTop(k, id, r) && r.state != RAbsent && r.transport.VirtioFS? && r.uid != 0
    ensures Attached(k, id, r.gen)
    ensures RecOk(id, r.(state := RMounted), k, touched, boot) && DescribesAll(id, r.(state := RMounted), k)
  {
  }
}
