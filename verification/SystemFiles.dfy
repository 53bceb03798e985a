/**
 * Where every byte is: the worker keeps its copy of a completed chunk until the ACK is recorded,
 * and masterd's rename only ever puts whole chunks in place.
 */
module SystemFiles {
  import opened Protocol
  import opened JobSections
  import opened System
  import opened SystemChunks

  /** Completed files hold what the transcoder wrote, and other files are not completed names. */
  ghost predicate DiskOk(d: Disk, done: map<Name, Bytes>) {
    forall n :: n in d.files ==>
      if d.files[n].complete then n in done && d.files[n].data == done[n] else n !in done
  }

  /** While the out dir is there, a completed chunk is in it unless its ACK is recorded. */
  ghost predicate KeptOk(d: Disk, acked: set<Name>, done: map<Name, Bytes>) {
    d.present ==> forall n :: n in done && n !in acked ==> n in d.files
  }

  /** The progress of one PUT: what it has put in the tmp file, and when it has landed. */
  ghost predicate HandlerOk(n: Name, v: Server, done: map<Name, Bytes>)
    requires n in v.handlers
  {
    var h := v.handlers[n];
    && n in done && h.body == done[n]
    && (h.pc.Copying? ==> h.pc.written <= |h.body| && (n in v.tmp ==> v.tmp[n] == h.body[..h.pc.written]))
    && (h.pc.Renaming? ==> (n in v.tmp ==> v.tmp[n] == h.body))
    && (h.pc.Touching? || h.pc == Replied(Stored) ==> n in v.landed)
  }

  ghost predicate HandlersOk(v: Server, done: map<Name, Bytes>) {
    forall n :: n in v.handlers ==> HandlerOk(n, v, done)
  }

  /** Whatever masterd's rename put in place is the whole chunk. */
  ghost predicate LandedOk(landed: map<Name, Bytes>, done: map<Name, Bytes>) {
    forall n :: n in landed ==> n in done && landed[n] == done[n]
  }

  /** A push that succeeded has landed; a local copy is deleted only after the ACK. */
  ghost predicate PushOk(u: Upload, acked: set<Name>, landed: map<Name, Bytes>) {
    && (u.Pushed? && u.ok ==> u.name in landed)
    && (u.Removing? ==> u.name in acked)
  }

  ghost predicate PushesOk(up: map<nat, Upload>, acked: set<Name>, landed: map<Name, Bytes>) {
    forall w :: w in up ==> PushOk(up[w], acked, landed)
  }

  ghost predicate FileInv(s: Sys) {
    && DiskOk(s.disk, s.done)
    && KeptOk(s.disk, s.job.acked, s.done)
    && HandlersOk(s.server, s.done)
    && LandedOk(s.server.landed, s.done)
    && PushesOk(s.uploads, s.job.acked, s.server.landed)
    && s.job.acked <= s.server.landed.Keys
  }

  ghost predicate SameFiles(s: Sys, s': Sys) {
    && s'.disk == s.disk && s'.server == s.server && s'.uploads == s.uploads
    && SameUploads(s.job, s'.job) && s'.done == s.done
  }

  lemma SameFilesKeeps(s: Sys, s': Sys)
    requires FileInv(s) && SameFiles(s, s')
    ensures FileInv(s')
  {
  }

  lemma InitFiles(cfg: Config)
    ensures FileInv(Init(cfg))
  {
  }

  lemma CreateFiles(s: Sys, n: Name)
    requires FileInv(s) && Create(s, n).Some?
    ensures FileInv(Create(s, n).value)
  {
  }

  lemma CompleteFiles(s: Sys, n: Name, data: Bytes)
    requires FileInv(s) && Complete(s, n, data).Some?
    ensures FileInv(Complete(s, n, data).value)
  {
    var s' := Complete(s, n, data).value;
    forall m | m in s'.server.handlers
      ensures HandlerOk(m, s'.server, s'.done)
    {
      assert HandlerOk(m, s.server, s.done);
    }
  }

  // ---- masterd ----

  lemma ServerFiles(v: Server, n: Name, a: ServerAct, done: map<Name, Bytes>)
    requires HandlersOk(v, done) && LandedOk(v.landed, done) && ServerStep(v, n, a).Some?
    ensures
      var v' := ServerStep(v, n, a).value;
      HandlersOk(v', done) && LandedOk(v'.landed, done) && v.landed.Keys <= v'.landed.Keys
  {
    var v' := ServerStep(v, n, a).value;
    assert HandlerOk(n, v, done);
    ServerTouchesOne(v, n, a);
    OneHandler(v, n, a, done);
    forall m | m in v'.handlers
      ensures HandlerOk(m, v', done)
    {
      if m != n {
        assert HandlerOk(m, v, done);
      }
    }
    if a.DoRename? && n in v.tmp {
      assert v'.landed == v.landed[n := done[n]];
    } else {
      assert v'.landed == v.landed;
    }
  }

  lemma ServerTouchesOne(v: Server, n: Name, a: ServerAct)
    requires ServerStep(v, n, a).Some?
    ensures
      var v' := ServerStep(v, n, a).value;
      && v'.handlers.Keys <= v.handlers.Keys
      && (forall m :: m in v'.handlers && m != n ==> v'.handlers[m] == v.handlers[m])
      && (forall m :: m in v'.tmp && m != n ==> m in v.tmp && v'.tmp[m] == v.tmp[m])
      && v.landed.Keys <= v'.landed.Keys
  {
  }

  lemma OneHandler(v: Server, n: Name, a: ServerAct, done: map<Name, Bytes>)
    requires ServerStep(v, n, a).Some?
    requires n in v.handlers && HandlerOk(n, v, done)
    ensures
      var v' := ServerStep(v, n, a).value;
      n in v'.handlers ==> HandlerOk(n, v', done)
  {
    var h := v.handlers[n];
    if a.CopyDone? {
      assert h.body[..|h.body|] == h.body;
    }
  }

  /** PMS deleting or remaking the session dir, and the session going away, cost no ACKed chunk. */
  lemma SessionFiles(v: Server, v': Server, done: map<Name, Bytes>)
    requires HandlersOk(v, done)
    requires v'.handlers == v.handlers && v'.landed == v.landed && (v'.tmp == v.tmp || v'.tmp == map[])
    ensures HandlersOk(v', done)
  {
    forall n | n in v'.handlers
      ensures HandlerOk(n, v', done)
    {
      assert HandlerOk(n, v, done);
    }
  }

  // ---- upload workers ----

  lemma OpenFiles(s: Sys, w: nat)
    requires AccountInv(s) && FileInv(s) && UploadStep(s, w, OpenFile).Some?
    ensures FileInv(UploadStep(s, w, OpenFile).value)
  {
    var s' := UploadStep(s, w, OpenFile).value;
    var n := s.uploads[w].name;
    assert Holds(s.uploads, w, n);
    forall m | m in s'.server.handlers
      ensures HandlerOk(m, s'.server, s'.done)
    {
      if m != n {
        assert HandlerOk(m, s.server, s.done);
      }
    }
  }

  lemma ReplyFiles(s: Sys, w: nat)
    requires FileInv(s) && UploadStep(s, w, GetReply).Some?
    ensures FileInv(UploadStep(s, w, GetReply).value)
  {
    var s' := UploadStep(s, w, GetReply).value;
    var n := s.uploads[w].name;
    assert HandlerOk(n, s.server, s.done);
    forall m | m in s'.server.handlers
      ensures HandlerOk(m, s'.server, s'.done)
    {
      assert HandlerOk(m, s.server, s.done);
    }
    assert PushOk(s'.uploads[w], s'.job.acked, s'.server.landed);
    forall v | v in s'.uploads
      ensures PushOk(s'.uploads[v], s'.job.acked, s'.server.landed)
    {
      assert v != w ==> s'.uploads[v] == s.uploads[v];
    }
  }

  lemma NetErrorFiles(s: Sys, w: nat)
    requires FileInv(s) && UploadStep(s, w, NetError).Some?
    ensures FileInv(UploadStep(s, w, NetError).value)
  {
    var s' := UploadStep(s, w, NetError).value;
    forall m | m in s'.server.handlers
      ensures HandlerOk(m, s'.server, s'.done)
    {
      assert HandlerOk(m, s.server, s.done);
    }
  }

  lemma RecordFiles(s: Sys, w: nat)
    requires FileInv(s) && UploadStep(s, w, RecordIt).Some?
    ensures FileInv(UploadStep(s, w, RecordIt).value)
  {
    var s' := UploadStep(s, w, RecordIt).value;
    assert PushOk(s.uploads[w], s.job.acked, s.server.landed);
    forall v | v in s'.uploads
      ensures PushOk(s'.uploads[v], s'.job.acked, s'.server.landed)
    {
      assert v != w ==> s'.uploads[v] == s.uploads[v];
    }
  }

  lemma FinishFiles(s: Sys, w: nat)
    requires FileInv(s) && UploadStep(s, w, FinishIt).Some?
    ensures FileInv(UploadStep(s, w, FinishIt).value)
  {
    var s' := UploadStep(s, w, FinishIt).value;
    OnlyPipelineSections(s.job, Failed, true, 0);
    assert PushOk(s.uploads[w], s.job.acked, s.server.landed);
    forall v | v in s'.uploads
      ensures PushOk(s'.uploads[v], s'.job.acked, s'.server.landed)
    {
      assert v != w ==> s'.uploads[v] == s.uploads[v];
    }
  }

  lemma UploadFiles(s: Sys, w: nat, a: UploadAct)
    requires AccountInv(s) && FileInv(s) && UploadStep(s, w, a).Some?
    ensures FileInv(UploadStep(s, w, a).value)
  {
    match a
    case OpenFile => OpenFiles(s, w);
    case GetReply => ReplyFiles(s, w);
    case NetError => NetErrorFiles(s, w);
    case RecordIt => RecordFiles(s, w);
    case FinishIt => FinishFiles(s, w);
    case _ => PlainUpload(s, w, a);
  }

  lemma PlainUpload(s: Sys, w: nat, a: UploadAct)
    requires FileInv(s) && UploadStep(s, w, a).Some?
    requires a.TakeName? || a.OpenFails? || a.RetryNow? || a.QuitRetry? || a.SeeClosed?
    ensures FileInv(UploadStep(s, w, a).value)
  {
    var s' := UploadStep(s, w, a).value;
    assert s'.disk == s.disk && s'.server == s.server && s'.job == s.job && s'.done == s.done;
    assert PushOk(s'.uploads[w], s'.job.acked, s'.server.landed);
    forall v | v in s'.uploads
      ensures PushOk(s'.uploads[v], s'.job.acked, s'.server.landed)
    {
      assert v != w ==> s'.uploads[v] == s.uploads[v];
    }
  }
}
