/** An acknowledged outcome is what `status` answers after any crash and same-boot restart. */
module ShareAcks {
  import opened Options
  import opened Paths
  import opened ShareModel
  import opened ShareProtocol
  import opened ShareInvariant
  import opened ShareTheorems
  import opened ShareRefinement

  /** Generation `gen` of `id` is durably absent, and the manager, if any, says so. */
  ghost predicate SettledAbsent(s: Sys, id: ShareId, gen: nat) {
    && id in s.disk && s.disk[id].gen == gen && s.disk[id].state == RAbsent
    && (s.mem.Some? ==>
          && id in s.mem.value.entries
          && var e := s.mem.value.entries[id];
          && e.result.state == Absent && e.intent.state == RAbsent && e.intent.gen == gen)
  }

  /** Generation `gen` of `id` is mounted by the agent, at a target nobody else touched, and no
      operation on it is under way. */
  ghost predicate SettledMounted(s: Sys, id: ShareId, gen: nat, path: Path) {
    && id in s.disk && Attached(s.kernel, id, gen) && s.disk[id].path == path && path !in s.touched
    && (s.mem.Some? ==>
          && id in s.mem.value.entries
          && var e := s.mem.value.entries[id];
          && e.intent.gen == gen && e.intent.transport.VirtioFS? && e.intent.path == path
          && (e.result.state == Mounted || (!s.mem.value.loaded && id in s.mem.value.todo))
          && (s.mem.value.hand != Idle ==> s.mem.value.hand.id != id))
  }

  predicate StartsMount(a: Action, id: ShareId) { a.Begin? && a.s.id == id }

  /** The actions that may end a mounted share, or leave it undecided after a restart. */
  predicate Disturbs(a: Action, id: ShareId, path: Path) {
    || a == Leave(id) || a == Env(path) || a == Reboot || a == RecoverOne(id, None)
  }

  // ---- Absent -------------------------------------------------------------

  lemma AbsentReplySettles(s: Sys, m: Mem, id: ShareId, gen: nat)
    requires Inv(s) && s.mem == Some(m) && m.loaded && Status(m, id, gen).ok && Status(m, id, gen).state == Absent
    ensures SettledAbsent(s, id, gen)
  {
    hide RecOk, KernelOk, Unique, InvokedOk, JournalOk, HandOk, ClaimsDisjoint;
    assert EntryOk(id, m.entries[id]);
  }

  lemma AbsentSurvivesSave(s: Sys, m: Mem, ok: bool, s': Sys, id: ShareId, gen: nat)
    requires Inv(s) && s.mem == Some(m) && SaveStep(s, m, ok, s') && SettledAbsent(s, id, gen)
    ensures SettledAbsent(s', id, gen)
  {
    hide RecOk, KernelOk, Unique, InvokedOk, EntriesOk, JournalOk, LinkOk, Stage;
  }

  lemma AbsentSurvivesRecovery(s: Sys, m: Mem, i: ShareId, node: Option<Node>, s': Sys, id: ShareId, gen: nat)
    requires Inv(s) && s.mem == Some(m) && RecoverOneStep(s, m, i, node, s') && SettledAbsent(s, id, gen)
    ensures SettledAbsent(s', id, gen)
  {
    hide RecOk, KernelOk, Unique, InvokedOk, EntriesOk, JournalOk, Stage, RecoverEntry;
    RecoverLinks(s.disk, m.entries, m.todo, i, m.entries[i]);
  }

  lemma AbsentSurvivesOther(s: Sys, m: Mem, a: Action, s': Sys, id: ShareId, gen: nat)
    requires Inv(s) && s.mem == Some(m) && Operate(s, m, a, s') && SettledAbsent(s, id, gen)
    requires !a.Save? && !a.RecoverOne? && !StartsMount(a, id)
    ensures SettledAbsent(s', id, gen)
  {
    hide RecOk, KernelOk, Unique, InvokedOk, EntriesOk, JournalOk, LinkOk, Stage, View, Recoverable;
  }

  lemma AbsentSurvives(s: Sys, a: Action, s': Sys, id: ShareId, gen: nat)
    requires Inv(s) && Next(s, a, s') && SettledAbsent(s, id, gen) && !StartsMount(a, id) && a != Reboot
    ensures SettledAbsent(s', id, gen)
  {
    hide Inv, Operate, EnvStep, AfterSave, RecoverEntry;
    if a.Save? {
      assert SaveStep(s, s.mem.value, a.ok, s') by { OperateSave(s, s.mem.value, a, s'); }
      AbsentSurvivesSave(s, s.mem.value, a.ok, s', id, gen);
    } else if a.RecoverOne? {
      assert RecoverOneStep(s, s.mem.value, a.id, a.node, s') by { OperateRecover(s, s.mem.value, a, s'); }
      AbsentSurvivesRecovery(s, s.mem.value, a.id, a.node, s', id, gen);
    } else if a.Env? {
      assert s'.disk == s.disk && s'.mem == s.mem by { EnvFrame(s, a.p, s'); }
    } else if !a.Crash? && !a.Load? {
      AbsentSurvivesOther(s, s.mem.value, a, s', id, gen);
    }
  }

  lemma OperateSave(s: Sys, m: Mem, a: Action, s': Sys)
    requires Operate(s, m, a, s') && a.Save?
    ensures SaveStep(s, m, a.ok, s')
  {
  }

  lemma OperateRecover(s: Sys, m: Mem, a: Action, s': Sys)
    requires Operate(s, m, a, s') && a.RecoverOne?
    ensures RecoverOneStep(s, m, a.id, a.node, s')
  {
  }

  lemma EnvFrame(s: Sys, p: Path, s': Sys)
    requires EnvStep(s, p, s')
    ensures s'.disk == s.disk && s'.mem == s.mem && s'.touched == s.touched + {p} && s'.boot == s.boot
    ensures forall q :: q != p ==> Layers(s'.kernel, q) == Layers(s.kernel, q)
  {
  }

  /** An acknowledged "absent" is still the answer after any run that neither mounts the share again
      nor reboots: through crashes, restarts, failed saves and the operations of other shares. */
  lemma {:induction false} AbsentIsRemembered(ss: seq<Sys>, acts: seq<Action>, id: ShareId, gen: nat, n: nat)
    requires IsRun(ss, acts) && Inv(ss[0]) && n < |ss|
    requires ss[0].mem.Some? && ss[0].mem.value.loaded
    requires Status(ss[0].mem.value, id, gen).ok && Status(ss[0].mem.value, id, gen).state == Absent
    requires forall i :: 0 <= i < n ==> !StartsMount(acts[i], id) && acts[i] != Reboot
    ensures SettledAbsent(ss[n], id, gen)
    ensures ss[n].mem.Some? && ss[n].mem.value.loaded ==> Status(ss[n].mem.value, id, gen).ok && Status(ss[n].mem.value, id, gen).state == Absent
  {
    hide Inv, Next, SettledAbsent;
    if n == 0 {
      AbsentReplySettles(ss[0], ss[0].mem.value, id, gen);
    } else {
      AbsentIsRemembered(ss, acts, id, gen, n - 1);
      RunInv(ss, acts, n - 1);
      AbsentSurvives(ss[n - 1], acts[n - 1], ss[n], id, gen);
    }
    RunInv(ss, acts, n);
    SettledAbsentStatus(ss[n], id, gen);
  }

  lemma SettledAbsentStatus(s: Sys, id: ShareId, gen: nat)
    requires Inv(s) && SettledAbsent(s, id, gen)
    ensures s.mem.Some? ==> Status(s.mem.value, id, gen).ok && Status(s.mem.value, id, gen).state == Absent
  {
    hide RecOk, KernelOk, Unique, InvokedOk, JournalOk, HandOk, ClaimsDisjoint, LinkOk;
    assert s.mem.Some? ==> EntryOk(id, s.mem.value.entries[id]);
  }

  // ---- Mounted ------------------------------------------------------------

  lemma MountedReplySettles(s: Sys, m: Mem, id: ShareId, gen: nat)
    requires Inv(s) && s.mem == Some(m) && m.loaded && m.hand == Idle
    requires Status(m, id, gen).ok && Status(m, id, gen).state == Mounted
    requires m.entries[id].intent.transport.VirtioFS? && m.entries[id].intent.path !in s.touched
    ensures SettledMounted(s, id, gen, m.entries[id].intent.path)
  {
    hide RecOk, KernelOk, Unique, InvokedOk, HandOk, ClaimsDisjoint, Disjoint, UidsDiffer;
    assert EntryOk(id, m.entries[id]);
    var p, i :| 0 <= i < |Layers(s.kernel, p)| && Layers(s.kernel, p)[i].owner == Some(Owner(id, gen));
    assert Describes(s.disk[id], p, Layers(s.kernel, p)[i], s.kernel);
    assert Describes(Intents(m.entries)[id], p, Layers(s.kernel, p)[i], s.kernel);
  }

  lemma MountedSurvivesSave(s: Sys, m: Mem, ok: bool, s': Sys, id: ShareId, gen: nat, path: Path)
    requires Inv(s) && s.mem == Some(m) && SaveStep(s, m, ok, s') && SettledMounted(s, id, gen, path)
    ensures SettledMounted(s', id, gen, path)
  {
    hide RecOk, KernelOk, Unique, InvokedOk, EntriesOk, JournalOk, LinkOk, Stage, Attached;
  }

  lemma MountedSurvivesRecovery(s: Sys, m: Mem, i: ShareId, node: Option<Node>, s': Sys, id: ShareId, gen: nat, path: Path)
    requires Inv(s) && s.mem == Some(m) && RecoverOneStep(s, m, i, node, s') && SettledMounted(s, id, gen, path)
    requires i == id ==> node.Some?
    ensures SettledMounted(s', id, gen, path)
  {
    hide RecOk, KernelOk, Unique, InvokedOk, EntriesOk, JournalOk, Stage, RecoverEntry, Attached, EntryOk;
    if i == id {
      var e := m.entries[id];
      EntriesParts(m.entries, s.kernel, s.touched, s.boot);
      RecoverLinks(s.disk, m.entries, m.todo, id, e);
      RecoveryExact(Intents(m.entries), id, s.kernel, s.touched, s.boot);
      RecoveredResult(e, node);
      var e' := RecoverEntry(e, node);
      RecoverKeepsFields(e, node);
    }
  }

  lemma RecoveredResult(e: Entry, node: Option<Node>)
    requires e.intent.transport.VirtioFS? && e.intent.state != RAbsent && RecoveryVerdict(e.intent, node) == SaysMounted
    ensures RecoverEntry(e, node).result.state == Mounted
  {
  }

  lemma RecoverKeepsFields(e: Entry, node: Option<Node>)
    ensures RecoverEntry(e, node).intent == e.intent.(state := RecoverEntry(e, node).intent.state)
  {
  }

  lemma MountedSurvivesNative(s: Sys, m: Mem, a: Action, s': Sys, id: ShareId, gen: nat, path: Path)
    requires Inv(s) && s.mem == Some(m) && SettledMounted(s, id, gen, path)
    requires (a.Attach? && AttachStep(s, m, a.id, s')) || (a.Detach? && DetachStep(s, m, a.id, s'))
    ensures Attached(s'.kernel, id, gen)
  {
    hide RecOk, KernelOk, Unique, InvokedOk, EntriesOk, JournalOk, EntryOk, LinkOk, View, DescribesAll, Attached, Recoverable;
    var e := m.entries[a.id];
    EntryFacts(m.entries, a.id, s.kernel, s.touched, s.boot);
    if a.Attach? {
      IntentId(a.id, e);
      AttachedOwner(m.hand, e, s.kernel, s.touched, s.boot);
      PushOthers(s.kernel, e.intent.path, m.hand.m, id, gen);
    } else {
      OwnCleanup(a.id, e);
      if e.cleanup.value.Own? {
        RecoverableVerified(e.cleanup.value.r, View(s.kernel, e.intent.path));
        TopIsOwn(s.kernel, a.id, e.intent, View(s.kernel, e.intent.path), s.touched, s.boot);
        PopOthers(s.kernel, e.intent.path, id, gen);
      }
    }
  }

  lemma RecoverableVerified(r: Record, node: Option<Node>)
    requires Recoverable(r, node) && r.transport.VirtioFS?
    ensures node.Some? && Verified(r, node.value)
  {
  }

  lemma AttachedOwner(h: Hand, e: Entry, k: Kernel, touched: set<Path>, boot: nat)
    requires h.Armed? && Stage(h, e, k, touched, boot)
    ensures h.m.owner == Some(Owner(e.intent.id, e.intent.gen))
  {
  }

  lemma MountedSurvivesOther(s: Sys, m: Mem, a: Action, s': Sys, id: ShareId, gen: nat, path: Path)
    requires Inv(s) && s.mem == Some(m) && Operate(s, m, a, s') && SettledMounted(s, id, gen, path)
    requires !a.Save? && !a.RecoverOne? && a != Leave(id)
    ensures SettledMounted(s', id, gen, path)
  {
    hide RecOk, KernelOk, Unique, InvokedOk, EntriesOk, JournalOk, LinkOk, Stage, View, Recoverable, Attached, DescribesAll, EntryOk;
    EntryFacts(m.entries, id, s.kernel, s.touched, s.boot);
    MountedHasCleanup(id, m.entries[id]);
    if a.Attach? || a.Detach? {
      MountedSurvivesNative(s, m, a, s', id, gen, path);
    } else {
      SameLayers(s.kernel, s'.kernel, id, gen);
    }
  }

  lemma MountedHasCleanup(id: ShareId, e: Entry)
    requires EntryOk(id, e)
    ensures e.result.state == Mounted ==> e.cleanup.Some?
  {
  }

  lemma SameLayers(k: Kernel, k': Kernel, id: ShareId, gen: nat)
    requires Attached(k, id, gen)
    ensures k'.layers == k.layers ==> Attached(k', id, gen)
  {
    if k'.layers == k.layers {
      assert forall p :: Layers(k', p) == Layers(k, p);
      SubLayersAttached(k, k', id, gen);
    }
  }

  lemma MountedSurvivesLoad(s: Sys, s': Sys, id: ShareId, gen: nat, path: Path)
    requires Inv(s) && LoadStep(s, s') && SettledMounted(s, id, gen, path)
    ensures SettledMounted(s', id, gen, path)
  {
    hide RecOk, KernelOk, Unique, InvokedOk, EntriesOk, JournalOk, LinkOk, HandOk, Attached;
    AttachedIsRecorded(s.disk, s.kernel, s.touched, s.boot, id, gen);
  }

  lemma MountedSurvivesEnv(s: Sys, p: Path, s': Sys, id: ShareId, gen: nat, path: Path)
    requires Inv(s) && EnvStep(s, p, s') && SettledMounted(s, id, gen, path) && p != path
    ensures SettledMounted(s', id, gen, path)
  {
    hide RecOk, KernelOk, Unique, InvokedOk, EntriesOk, LinkOk, HandOk, EnvStep, ForeignChange;
    EnvFrame(s, p, s');
    var q, i :| 0 <= i < |Layers(s.kernel, q)| && Layers(s.kernel, q)[i].owner == Some(Owner(id, gen));
    assert Describes(s.disk[id], q, Layers(s.kernel, q)[i], s.kernel);
    assert Layers(s'.kernel, q)[i].owner == Some(Owner(id, gen));
  }

  lemma MountedSurvives(s: Sys, a: Action, s': Sys, id: ShareId, gen: nat, path: Path)
    requires Inv(s) && Next(s, a, s') && SettledMounted(s, id, gen, path) && !Disturbs(a, id, path)
    ensures SettledMounted(s', id, gen, path)
  {
    hide Inv, Operate, EnvStep, LoadStep, SettledMounted;
    if a.Crash? {
      CrashKeepsMounted(s, s', id, gen, path);
    } else if a.Env? {
      MountedSurvivesEnv(s, a.p, s', id, gen, path);
    } else if a.Load? {
      MountedSurvivesLoad(s, s', id, gen, path);
    } else if a.Save? {
      assert SaveStep(s, s.mem.value, a.ok, s') by { OperateSave(s, s.mem.value, a, s'); }
      MountedSurvivesSave(s, s.mem.value, a.ok, s', id, gen, path);
    } else if a.RecoverOne? {
      assert RecoverOneStep(s, s.mem.value, a.id, a.node, s') by { OperateRecover(s, s.mem.value, a, s'); }
      MountedSurvivesRecovery(s, s.mem.value, a.id, a.node, s', id, gen, path);
    } else {
      MountedSurvivesOther(s, s.mem.value, a, s', id, gen, path);
    }
  }

  lemma CrashKeepsMounted(s: Sys, s': Sys, id: ShareId, gen: nat, path: Path)
    requires SettledMounted(s, id, gen, path) && s' == s.(mem := None)
    ensures SettledMounted(s', id, gen, path)
  {
  }

  /** An acknowledged virtiofs "mounted" is still the answer after any run in which the share is not
      unmounted, its target is left alone and recovery can read the target. */
  lemma {:induction false} MountedIsRemembered(ss: seq<Sys>, acts: seq<Action>, id: ShareId, gen: nat, path: Path, n: nat)
    requires IsRun(ss, acts) && Inv(ss[0]) && n < |ss|
    requires SettledMounted(ss[0], id, gen, path)
    requires forall i :: 0 <= i < n ==> !Disturbs(acts[i], id, path)
    ensures SettledMounted(ss[n], id, gen, path)
    ensures ss[n].mem.Some? && ss[n].mem.value.loaded ==> Status(ss[n].mem.value, id, gen).ok && Status(ss[n].mem.value, id, gen).state == Mounted
  {
    hide Inv, Next, SettledMounted;
    if n > 0 {
      MountedIsRemembered(ss, acts, id, gen, path, n - 1);
      RunInv(ss, acts, n - 1);
      MountedSurvives(ss[n - 1], acts[n - 1], ss[n], id, gen, path);
    }
    RunInv(ss, acts, n);
    SettledMountedStatus(ss[n], id, gen, path);
  }

  lemma SettledMountedStatus(s: Sys, id: ShareId, gen: nat, path: Path)
    requires Inv(s) && SettledMounted(s, id, gen, path)
    ensures s.mem.Some? && s.mem.value.loaded ==> Status(s.mem.value, id, gen).ok && Status(s.mem.value, id, gen).state == Mounted
  {
    hide RecOk, KernelOk, Unique, InvokedOk, JournalOk, HandOk, ClaimsDisjoint, LinkOk;
    assert s.mem.Some? ==> EntryOk(id, s.mem.value.entries[id]);
  }
}
