/** Publishing and removing a share's link, as runs of the staging protocol. */
module StagedLinks {
  import opened Options
  import opened Writes
  import opened Text
  import opened Paths
  import opened LinkRecords
  import opened S = StagedLinkProtocol

  /** What the native calls of one publication answer. */
  datatype PublishNative = PublishNative(volume: nat, makeDir: bool, staging: Write, makeLink: bool, identify: bool, ready: Write, move: bool,
                                         published: Write, remove: bool, cleared: Write)

  /** Which native deletions of one removal fail. */
  datatype RemoveNative = RemoveNative(dest: bool, staged: bool, dir: bool)

  /** The shape of a staging directory's path beside the link. */
  predicate SiblingStage(stage: Path, path: Path) {
    && |stage| > 0 && |path| > 0 && stage != path && stage[..|stage| - 1] == path[..|path| - 1]
    && StagePrefix <= stage[|stage| - 1] && |stage[|stage| - 1]| == |StagePrefix| + 32
  }

  class Publisher {
    var s: State
    ghost var run: seq<State>
    ghost var acts: seq<Action>

    ghost predicate Traced() reads this { run != [] && run[|run| - 1] == s && S.IsRun(run, acts) && S.Init(run[0]) }

    ghost predicate Rests() reads this { Traced() && s.pc == Resting }

    /** A share's record before its first publication. */
    constructor (path: Path, source: string, disk: Disk, next: nat)
      requires next > 0 && forall q :: q in disk ==> !disk[q].mine && disk[q].id.index < next
      ensures Rests() && s == State(disk, next, Fresh(path, source), Fresh(path, source), Resting)
    {
      s := State(disk, next, Fresh(path, source), Fresh(path, source), Resting);
      run, acts := [s], [];
    }

    lemma Holds()
      requires Traced()
      ensures S.Inv(s)
    {
      S.RunInv(run, acts, |run| - 1);
    }

    method Step(ghost a: Action, s': State)
      requires Traced() && S.Next(s, a, s')
      modifies this
      ensures Traced() && s == s' && old(run) <= run
    {
      s := s';
      run, acts := run + [s'], acts + [a];
    }

    /** Other software, a crash, or another share's save of this record, between operations. */
    method Elapse(ghost a: Action, s': State)
      requires Rests() && S.Next(s, a, s') && (a.Crash? || a.Rewrite? || a.Foreign? || a.Vanish?)
      modifies this
      ensures Rests() && s == s' && old(run) <= run
    {
      Step(a, s');
    }

    /** Save the record in memory, at one of the publication's saves. */
    method Persist(how: Write) returns (ok: bool)
      requires Traced() && s.pc in {Staged, Known, Moved, Emptied}
      modifies this
      ensures Traced() && old(run) <= run && ok == (how == Written)
      ensures s == old(s).(durable := if how == KeptOld then old(s.durable) else old(s.mem), pc := if ok then AfterPersist(old(s.pc)) else Resting)
    {
      ok := how == Written;
      Step(Action.Persist(ok), s.(durable := if how == KeptOld then s.durable else s.mem, pc := if ok then AfterPersist(s.pc) else Resting));
    }

    method GiveUp()
      requires Traced() && s.pc != Announced
      modifies this
      ensures Rests() && old(run) <= run && s == old(s).(pc := Resting)
    {
      Step(Abandon, s.(pc := Resting));
    }

    /** A staging directory nobody used, recorded. */
    method MakeDirectory(stage: Path, n: PublishNative) returns (ok: bool)
      requires Rests() && s.mem == s.durable == Fresh(s.mem.path, s.mem.source)
      requires (forall q :: q in s.disk ==> !s.disk[q].mine) && SiblingStage(stage, s.mem.path)
      modifies this
      ensures Traced() && old(run) <= run
      ensures ok <==> n.makeDir && n.staging == Written && forall q :: q in old(s.disk) ==> !(stage <= q)
      ensures s.disk == old(s.disk) || s.disk == old(s.disk)[stage := Node(Directory, FileId(n.volume, old(s.next)), true)]
      ensures s.disk != old(s.disk) ==> forall q :: q in old(s.disk) ==> !(stage <= q)
      ensures ok ==> s.pc == Recorded && s.mem == s.durable && ValidStage(s.mem) && stage in s.disk && s.next == old(s.next) + 1
                     && s.mem == old(s.mem).(phase := Staging, stage := Some(Stage(stage, s.disk[stage].id)))
      ensures !ok ==> s.pc == Resting && s.mem.path == old(s.mem.path) && s.mem.source == old(s.mem.source)
    {
      Holds();
      hide S.Init, S.IsRun;
      assert s.next > 0;
      hide S.Inv;
      if !n.makeDir || exists q :: q in s.disk && stage <= q { return false; }
      var dir := Node(Directory, FileId(n.volume, s.next), true);
      Step(MakeStage(stage), s.(disk := s.disk[stage := dir], next := s.next + 1,
                                mem := s.mem.(phase := Staging, stage := Some(Stage(stage, dir.id))), pc := Staged));
      ok := Persist(n.staging);
    }

    /** The link inside the staging directory, with its identity recorded. */
    method MakeStagedLink(n: PublishNative) returns (ok: bool)
      requires Traced() && s.pc == Recorded && s.mem.stage.Some? && s.mem.stage.value.path in s.disk && LinkIn(s.mem.stage.value.path) !in s.disk
      modifies this
      ensures Traced() && old(run) <= run && s.mem.path == old(s.mem.path) && s.mem.source == old(s.mem.source) && s.mem.stage == old(s.mem.stage)
      ensures ok <==> n.makeLink && n.identify && n.ready == Written
      ensures var l := LinkIn(s.mem.stage.value.path);
              s.disk == if n.makeLink then old(s.disk)[l := Node(Symlink(s.mem.source), FileId(n.volume, old(s.next)), true)] else old(s.disk)
      ensures ok ==> s.pc == Readied && s.mem.link == Some(FileId(n.volume, old(s.next))) && s.durable == s.mem
      ensures !ok ==> s.pc == Resting
      ensures s.durable.phase == Unstaged ==> old(s.durable.phase) == Unstaged
    {
      Holds();
      hide S.Init, S.IsRun;
      assert s.next > 0;
      hide S.Inv;
      FoldSelf(s.mem.source);
      if !n.makeLink { GiveUp(); return false; }
      var link := Node(Symlink(s.mem.source), FileId(n.volume, s.next), true);
      Step(MakeLink, s.(disk := s.disk[LinkIn(s.mem.stage.value.path) := link], next := s.next + 1, pc := Linked));
      if !n.identify { GiveUp(); return false; }
      Step(Identify, s.(mem := s.mem.(link := Some(link.id), phase := Ready), pc := Known));
      ok := Persist(n.ready);
    }

    /** One deletion of a removal, which may be the last before it is interrupted. */
    method RemoveOne(ghost a: Action, s': State)
      requires Traced() && S.Next(s, a, s') && (a.RemoveDest? || a.RemoveStagedLink? || a.RemoveStage?)
      modifies this
      ensures Traced() && s == s' && old(run) <= run
      ensures Recoverable(old(s)) ==> Recoverable(s) && RemoveLinks(s.durable, s.disk) == RemoveLinks(old(s.durable), old(s.disk))
    {
      hide S.Init, S.IsRun, S.Inv, S.Next;
      Resumes(s, a, s');
      Step(a, s');
    }

    /** Remove the staged link, then the staging directory, if they are the recorded ones. */
    method RemoveStage(n: RemoveNative) returns (ok: bool)
      requires Traced() && s.pc in {Resting, Announced}
      modifies this
      ensures Traced() && old(run) <= run && s == old(s).(disk := s.disk)
      ensures ok ==> Removal(true, s.disk) == RemoveStageOf(s.durable, old(s.disk))
      ensures !n.staged && !n.dir ==> Removal(ok, s.disk) == RemoveStageOf(s.durable, old(s.disk))
      ensures s.pc == Resting && Recoverable(old(s)) ==>
                Recoverable(s) && RemoveLinks(s.durable, s.disk) == RemoveLinks(s.durable, old(s.disk))
    {
      hide S.Init, S.IsRun, S.Inv, Recoverable, RemoveLinks;
      var r := s.durable;
      if r.stage == None { return true; }
      if !ValidStage(r) { return false; }
      var p := r.stage.value.path; var l := LinkIn(p);
      if p !in s.disk { return true; }
      if s.disk[p].kind != Directory || s.disk[p].id != r.stage.value.id { return false; }
      if l in s.disk {
        if !IsLink(s.disk, l, r.source) || (r.link.Some? && r.link.value != s.disk[l].id) || n.staged { return false; }
        RemoveOne(RemoveStagedLink, s.(disk := s.disk - {l}));
      }
      assert s.disk == old(s.disk) - {l} && forall q :: q in old(s.disk) && q != l ==> q in s.disk;
      if n.dir || exists q :: q in s.disk && p <= q && q != p { return false; }
      RemoveOne(Action.RemoveStage, s.(disk := s.disk - {p}));
      return true;
    }

    /** Remove the link at its destination or in its stage, and the stage, by the durable record. */
    method RemoveJournalLinks(n: RemoveNative) returns (ok: bool)
      requires Rests()
      modifies this
      ensures Rests() && old(run) <= run && s == old(s).(disk := s.disk)
      ensures ok ==> Removal(true, s.disk) == RemoveLinks(s.durable, old(s.disk))
      ensures !n.dest && !n.staged && !n.dir ==> Removal(ok, s.disk) == RemoveLinks(s.durable, old(s.disk))
      ensures Recoverable(old(s)) ==> Recoverable(s) && RemoveLinks(s.durable, s.disk) == RemoveLinks(s.durable, old(s.disk))
    {
      hide S.Init, S.IsRun, S.Inv, Recoverable;
      var r := s.durable;
      if r.path in s.disk {
        if r.link == None || !IsLink(s.disk, r.path, r.source) || r.link != Some(s.disk[r.path].id) || n.dest { return false; }
        RemoveOne(RemoveDest, s.(disk := s.disk - {r.path}));
      }
      ok := RemoveStage(n);
    }

    /** Publish the link: nothing that was there is disturbed, and an error leaves only what the record covers. */
    method Publish(stage: Path, n: PublishNative) returns (ok: bool)
      requires Rests() && s.mem == s.durable == Fresh(s.mem.path, s.mem.source)
      requires (forall q :: q in s.disk ==> !s.disk[q].mine) && SiblingStage(stage, s.mem.path)
      modifies this
      ensures Rests() && old(run) <= run
      ensures ok <==> n.makeDir && n.staging == Written && n.makeLink && n.identify && n.ready == Written && n.move && n.published == Written
                      && n.remove && n.cleared == Written
                      && old(s.mem.path) !in old(s.disk) && forall q :: q in old(s.disk) ==> !(stage <= q)
      ensures ok ==>
                var id := FileId(n.volume, old(s.next) + 1);
                && s.disk == old(s.disk)[old(s.mem.path) := Node(Symlink(old(s.mem.source)), id, true)]
                && s.durable == s.mem == LinkRecord(old(s.mem.path), old(s.mem.source), Published, Some(id), None)
      ensures forall q :: q in old(s.disk) ==> q in s.disk && s.disk[q] == old(s.disk)[q]
    {
      hide S.Init, S.IsRun, S.Inv;
      var path := s.mem.path;
      ok := MakeDirectory(stage, n);
      if !ok { return; }
      ok := MakeStagedLink(n);
      if !ok { return; }
      ok := MoveOut(n);
    }

    /** The staged link moves to its destination, and its staging directory goes. */
    method MoveOut(n: PublishNative) returns (ok: bool)
      requires Traced() && s.pc == Readied && s.mem == s.durable && s.mem.stage.Some? && s.mem.link.Some? && ValidStage(s.mem)
      requires var p := s.mem.stage.value.path;
               && p in s.disk && s.disk[p].kind == Directory && s.disk[p].id == s.mem.stage.value.id && LinkIn(p) in s.disk && p != s.mem.path
               && forall q :: q in s.disk && p <= q ==> q == p || q == LinkIn(p)
      modifies this
      ensures Rests() && old(run) <= run
      ensures ok <==> n.move && n.published == Written && n.remove && n.cleared == Written && old(s.mem.path) !in old(s.disk)
      ensures ok ==> s.durable == s.mem == old(s.mem).(phase := Published, stage := None)
      ensures var p := old(s.mem.stage).value.path; var l := LinkIn(p);
              && (ok ==> s.disk == (old(s.disk) - {l} - {p})[old(s.mem.path) := old(s.disk)[l]])
              && (forall q :: q in old(s.disk) && q != p && q != l ==> q in s.disk && s.disk[q] == old(s.disk)[q])
    {
      hide S.Init, S.IsRun, S.Inv;
      var path := s.mem.path;
      var p := s.mem.stage.value.path; var l := LinkIn(p);
      if !n.move || path in s.disk { GiveUp(); return false; }
      Step(Move, s.(disk := (s.disk - {l})[path := s.disk[l]], mem := s.mem.(phase := Published), pc := Moved));
      ok := Persist(n.published);
      if !ok { return; }
      assert s.disk - {l} - {p} == s.disk - {p};
      assert !(p <= path);
      ok := ClearStage(n);
    }

    /** The published link's staging directory goes, and the record forgets it. */
    method ClearStage(n: PublishNative) returns (ok: bool)
      requires Traced() && s.pc == Announced && s.mem == s.durable && s.mem.stage.Some?
      requires RemoveStageOf(s.mem, s.disk) == Removal(true, s.disk - {s.mem.stage.value.path}) && s.mem.stage.value.path in s.disk
      modifies this
      ensures Rests() && old(run) <= run && (s.disk == old(s.disk) || s.disk == old(s.disk) - {old(s.mem.stage).value.path})
      ensures ok <==> n.remove && n.cleared == Written
      ensures ok ==> s.disk == old(s.disk) - {old(s.mem.stage).value.path} && s.durable == s.mem == old(s.mem).(stage := None)
    {
      hide S.Init, S.IsRun, S.Inv;
      if !n.remove {
        Step(Abandon, s.(pc := Resting));
        return false;
      }
      ok := RemoveStage(RemoveNative(false, false, false));
      Step(Abandon, s.(mem := s.mem.(stage := None), pc := Emptied));
      ok := Persist(n.cleared);
    }
  }

  /** A record was durable, and nothing foreign is at the destination. */
  ghost predicate Recoverable(s: State) {
    S.Inv(s) && s.durable.phase != Unstaged && (s.durable.path in s.disk ==> s.disk[s.durable.path].mine)
  }

  lemma Resumes(s: State, a: Action, s': State)
    requires S.Next(s, a, s') && (a.RemoveDest? || a.RemoveStagedLink? || a.RemoveStage?)
    ensures Recoverable(s) ==> Recoverable(s') && RemoveLinks(s'.durable, s'.disk) == RemoveLinks(s.durable, s.disk)
  {
    if Recoverable(s) {
      S.NextInv(s, a, s');
      S.RemovalResumes(s, a, s');
      S.StepRemovesOwn(s, a, s');
    }
  }
}
