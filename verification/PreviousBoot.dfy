/** A share left by an earlier boot: its connection is gone with that boot, its link is not. */
module PreviousBoot {
  import opened Options
  import opened Writes
  import opened Text
  import opened LinkRecords
  import opened WNetProtocol
  import opened WNetBackend
  import opened GlobalRecovery
  import S = StagedLinkProtocol
  import L = StagedLinks

  datatype Recovery = Recovered | Unsupported | LinksRemain | LookupRefused | OwnerChanged | ForgetFailed

  /** The connection record is the one of this share, in its boot. */
  predicate RecordOf(rec: Rec, r: Share) {
    rec.boot == r.boot && rec.token == r.token && EqualFold(rec.remote, r.link.source) && rec.port == r.port
  }

  /** Only the share's own record is forgotten, and no connection of this boot is touched. */
  method Recover(r: Share, links: L.Publisher, backend: Backend, n: L.RemoveNative, getOk: bool, remove: Native) returns (res: Recovery)
    requires links.Rests() && links.s.durable == r.link && backend.Idles() && r.boot != backend.w.boot
    modifies links, backend
    ensures links.Rests() && backend.Idles() && links.s.durable == r.link
    ensures backend.w.live == old(backend.w.live) && Frame(old(backend.w), backend.w, r.mappingKey)
    ensures res == Recovered ==> S.Removal(true, links.s.disk) == S.RemoveLinks(r.link, old(links.s.disk))
    ensures L.Recoverable(old(links.s)) ==>
              L.Recoverable(links.s) && S.RemoveLinks(r.link, links.s.disk) == S.RemoveLinks(r.link, old(links.s.disk))
    ensures var w := old(backend.w); var named := r.mappingKey != "" || r.token != "";
            && (res == Recovered && named ==> r.mappingKey in w.store ==> RecordOf(w.store[r.mappingKey], r) && r.mappingKey !in backend.w.store)
            && (!n.dest && !n.staged && !n.dir && remove.identityOk && remove.getOk && remove.delete == Written ==>
                  (res == Recovered <==> r.smb && S.RemoveLinks(r.link, old(links.s.disk)).ok
                                         && (named ==> getOk && (r.mappingKey in w.store ==> RecordOf(w.store[r.mappingKey], r)))))
    ensures res == Unsupported <==> !r.smb
    ensures backend.w != old(backend.w) ==>
              r.mappingKey in old(backend.w.store)
              && var rec := old(backend.w.store)[r.mappingKey]; rec.token == r.token && rec.boot == r.boot && rec.port == r.port
  {
    SameFrame(backend.w, r.mappingKey);
    if !r.smb { return Unsupported; }
    var ok := links.RemoveJournalLinks(n);
    if !ok { return LinksRemain; }
    if r.mappingKey == "" && r.token == "" { return Recovered; }
    if !getOk { return LookupRefused; }
    if r.mappingKey !in backend.w.store { return Recovered; }
    var rec := backend.w.store[r.mappingKey];
    if !RecordOf(rec, r) { return OwnerChanged; }
    Stored(backend, r.mappingKey);
    var out := backend.Run(RecordOwner(rec), remove);
    return if out == Done then Recovered else ForgetFailed;
  }

  /** A share that recovery takes to own nothing: its journal authorizes the removal of no link and names no connection
      record that could be its own. */
  lemma OwnsNothingExact(r: Share, disk: S.Disk)
    requires r.smb && OwnsNothing(r)
    ensures r.state == Pending && S.RemoveLinks(r.link, disk).disk == disk
    ensures forall key, rec :: ValidRecord(key, rec) ==> key != r.mappingKey && rec.token != r.token && !RecordOf(rec, r)
  {
    forall key, rec | ValidRecord(key, rec) ensures key != "" {
      assert |key| == |rec.remote|;
    }
  }

  lemma SameFrame(w: World, key: Key)
    ensures Frame(w, w, key)
  {
  }

  lemma Stored(b: Backend, key: Key)
    requires b.Idles() && key in b.w.store
    ensures ValidRequest(RecordOwner(b.w.store[key])) && RecordOwner(b.w.store[key]).key == key
    ensures Matches(b.w.store[key], RecordOwner(b.w.store[key]))
  {
    assert ValidRecord(key, b.w.store[key]);
  }
}
