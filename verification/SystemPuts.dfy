/** What masterd answers to a PUT, over every run, and what the worker makes of it. */
module SystemPuts {
  import opened Prelude
  import opened JobSections
  import opened System
  import opened SystemInv
  import opened SystemTheorems

  // ---- the history of one PUT ----

  /** What the request being served for a name has come to: its rename has taken place, or its I/O failed. */
  datatype Served = Served(renamed: bool, failed: bool)

  /** One more action: a new request for `n`, its rename out of a tmp file that is there, or an I/O error. */
  function Witness(s: Sys, a: Action, n: Name, h: Served): Served {
    match a
    case UploadA(w, OpenFile) =>
      if w in s.uploads && s.uploads[w].Opening? && s.uploads[w].name == n then Served(false, false) else h
    case ServerA(m, DoRename) => if m == n && n in s.server.tmp then h.(renamed := true) else h
    case ServerA(m, OpenError) => if m == n then h.(failed := true) else h
    case ServerA(m, CopyError) => if m == n then h.(failed := true) else h
    case ServerA(m, RenameError) => if m == n then h.(failed := true) else h
    case _ => h
  }

  function PutHistory(s: Sys, acts: seq<Action>, n: Name): Served
    requires Exec(s, acts).Some?
    decreases |acts|
  {
    if acts == [] then Served(false, false)
    else
      var p := acts[..|acts| - 1];
      Witness(Exec(s, p).value, acts[|acts| - 1], n, PutHistory(s, p, n))
  }

  /** The answer that a request owes to its history; a session that is answered as gone is no longer live. */
  ghost predicate Answered(v: Server, n: Name, h: Served) {
    n in v.handlers ==>
      match v.handlers[n].pc
      case Touching => h.renamed && !h.failed
      case Replied(r) =>
        && (r.Stored? <==> h.renamed)
        && (r.Retryable? <==> h.failed)
        && (r.Gone? ==> !v.live)
      case _ => !h.renamed && !h.failed
  }

  lemma ServerAnswers(s: Sys, m: Name, a: ServerAct, n: Name, h: Served)
    requires Answered(s.server, n, h) && ServerStep(s.server, m, a).Some?
    ensures Answered(ServerStep(s.server, m, a).value, n, Witness(s, ServerA(m, a), n, h))
  {
  }

  lemma UploadAnswers(s: Sys, w: nat, a: UploadAct, n: Name, h: Served)
    requires Answered(s.server, n, h) && UploadStep(s, w, a).Some?
    ensures Answered(UploadStep(s, w, a).value.server, n, Witness(s, UploadA(w, a), n, h))
  {
  }

  /** Nobody else serves PUTs, and a session that is gone stays gone. */
  lemma OthersServeNothing(s: Sys, a: Action)
    requires Next(s, a).Some? && !a.ServerA? && !a.UploadA?
    ensures
      var v := Next(s, a).value.server;
      v.handlers == s.server.handlers && (v.live ==> s.server.live)
  {
    match a
    case RunA(r) => RunStays(s, r);
    case WatchA(w) => WatchTouches(s, w);
    case CreateFile(n) => FileTouches(s, n, []);
    case CompleteFile(n, data) => FileTouches(s, n, data);
    case GateA(id, g) => GateTouches(s, id, g);
    case MonTick => MonTouches(s, a);
    case MonCancel => MonTouches(s, a);
    case MonStop => MonTouches(s, a);
    case ClientA(id, c) => ClientTouches(s, id, c);
    case Forget => ReapTouches(s, a);
    case RemoveForgotten => ReapTouches(s, a);
    case _ =>
  }

  lemma StepAnswers(s: Sys, a: Action, n: Name, h: Served)
    requires Answered(s.server, n, h) && Next(s, a).Some?
    ensures Answered(Next(s, a).value.server, n, Witness(s, a, n, h))
  {
    if a.ServerA? {
      ServerAnswers(s, a.name, a.h, n, h);
    } else if a.UploadA? {
      UploadAnswers(s, a.worker, a.u, n, h);
    } else {
      OthersServeNothing(s, a);
    }
  }

  lemma {:induction false} RunAnswers(cfg: Config, acts: seq<Action>, n: Name)
    requires Exec(Init(cfg), acts).Some?
    ensures Answered(Exec(Init(cfg), acts).value.server, n, PutHistory(Init(cfg), acts, n))
    decreases |acts|
  {
    if acts != [] {
      var p := acts[..|acts| - 1];
      RunAnswers(cfg, p, n);
      StepAnswers(Exec(Init(cfg), p).value, acts[|acts| - 1], n, PutHistory(Init(cfg), p, n));
    }
  }

  /**
   * The three answers to a PUT, over every run: 200 if and only if the request's own rename has taken
   * place, the retryable one if and only if its I/O failed, and 410 only when the session is gone.
   */
  lemma PutAnswered(cfg: Config, acts: seq<Action>, n: Name)
    requires Exec(Init(cfg), acts).Some? && n in Exec(Init(cfg), acts).value.server.handlers
    requires Exec(Init(cfg), acts).value.server.handlers[n].pc.Replied?
    ensures
      var v := Exec(Init(cfg), acts).value.server;
      var h := PutHistory(Init(cfg), acts, n);
      var reply := v.handlers[n].pc.reply;
      && (reply == Stored <==> h.renamed)
      && (reply == Retryable <==> h.failed)
      && (reply == Gone <==> !h.renamed && !h.failed)
      && (reply == Gone ==> !v.live)
  {
    RunAnswers(cfg, acts, n);
  }

  // ---- when a session is gone ----

  /** The server of a session that nobody has closed and whose dir nobody has deleted. */
  ghost predicate Undisturbed(v: Server) {
    && v.live && v.dirPresent
    && (forall n :: n in v.handlers && (v.handlers[n].pc.Copying? || v.handlers[n].pc.Renaming?) ==> n in v.tmp)
    && (forall n :: n in v.handlers ==> v.handlers[n].pc != Replied(Gone))
  }

  lemma ServerUndisturbed(v: Server, n: Name, a: ServerAct)
    requires Undisturbed(v) && ServerStep(v, n, a).Some?
    ensures Undisturbed(ServerStep(v, n, a).value)
  {
  }

  lemma UploadUndisturbed(s: Sys, w: nat, a: UploadAct)
    requires Undisturbed(s.server) && UploadStep(s, w, a).Some?
    ensures Undisturbed(UploadStep(s, w, a).value.server)
  {
    UploadHandlers(s, w, a);
    UploadPcs(s, w, a);
  }

  /** An upload worker starts requests, and moves none. */
  lemma UploadPcs(s: Sys, w: nat, a: UploadAct)
    requires UploadStep(s, w, a).Some?
    ensures
      var hs := UploadStep(s, w, a).value.server.handlers;
      forall n :: n in hs ==> hs[n].pc.Lookup? || (n in s.server.handlers && hs[n].pc == s.server.handlers[n].pc)
  {
  }

  lemma OthersUndisturbed(s: Sys, a: Action)
    requires Next(s, a).Some? && !a.ServerA? && !a.UploadA? && !a.SessionGone? && !a.RemoveSessionDir?
    ensures Next(s, a).value.server == s.server || Next(s, a).value.server == s.server.(dirPresent := true)
  {
    match a
    case RunA(r) => RunStays(s, r);
    case WatchA(w) => WatchTouches(s, w);
    case CreateFile(n) => FileTouches(s, n, []);
    case CompleteFile(n, data) => FileTouches(s, n, data);
    case GateA(id, g) => GateTouches(s, id, g);
    case MonTick => MonTouches(s, a);
    case MonCancel => MonTouches(s, a);
    case MonStop => MonTouches(s, a);
    case ClientA(id, c) => ClientTouches(s, id, c);
    case Forget => ReapTouches(s, a);
    case RemoveForgotten => ReapTouches(s, a);
    case _ =>
  }

  lemma StepUndisturbed(s: Sys, a: Action)
    requires Undisturbed(s.server) && Next(s, a).Some? && !a.SessionGone? && !a.RemoveSessionDir?
    ensures Undisturbed(Next(s, a).value.server)
  {
    if a.ServerA? {
      ServerUndisturbed(s.server, a.name, a.h);
    } else if a.UploadA? {
      UploadUndisturbed(s, a.worker, a.u);
    } else {
      OthersUndisturbed(s, a);
    }
  }

  lemma {:induction false} RunUndisturbed(cfg: Config, acts: seq<Action>)
    requires Exec(Init(cfg), acts).Some? && SessionGone !in acts && RemoveSessionDir !in acts
    ensures Undisturbed(Exec(Init(cfg), acts).value.server)
    decreases |acts|
  {
    if acts != [] {
      var p, a := acts[..|acts| - 1], acts[|acts| - 1];
      assert a in acts;
      RunUndisturbed(cfg, p);
      StepUndisturbed(Exec(Init(cfg), p).value, a);
    }
  }

  /**
   * No session is given up without a cause: over every run in which nobody closes it or deletes its
   * dir, it is live, and no PUT is answered 410.
   */
  lemma GoneHasCause(cfg: Config, acts: seq<Action>, n: Name)
    requires Exec(Init(cfg), acts).Some? && SessionGone !in acts && RemoveSessionDir !in acts
    ensures Exec(Init(cfg), acts).value.server.live
    ensures n in Exec(Init(cfg), acts).value.server.handlers ==>
              Exec(Init(cfg), acts).value.server.handlers[n].pc != Replied(Gone)
  {
    RunUndisturbed(cfg, acts);
  }

  // ---- tmp files ----

  ghost predicate TmpOk(v: Server) {
    forall n :: n in v.tmp ==> n in v.handlers && (v.handlers[n].pc.Copying? || v.handlers[n].pc.Renaming?)
  }

  lemma ServerTmp(v: Server, n: Name, a: ServerAct)
    requires TmpOk(v) && ServerStep(v, n, a).Some?
    ensures TmpOk(ServerStep(v, n, a).value)
  {
  }

  lemma UploadTmp(s: Sys, w: nat, a: UploadAct)
    requires TmpOk(s.server) && UploadStep(s, w, a).Some?
    ensures TmpOk(UploadStep(s, w, a).value.server)
  {
  }

  lemma StepTmp(s: Sys, a: Action)
    requires TmpOk(s.server) && Next(s, a).Some?
    ensures TmpOk(Next(s, a).value.server)
  {
    if a.ServerA? {
      ServerTmp(s.server, a.name, a.h);
    } else if a.UploadA? {
      UploadTmp(s, a.worker, a.u);
    } else if !a.SessionGone? && !a.RemoveSessionDir? {
      OthersUndisturbed(s, a);
    }
  }

  lemma {:induction false} RunTmp(cfg: Config, acts: seq<Action>)
    requires Exec(Init(cfg), acts).Some?
    ensures TmpOk(Exec(Init(cfg), acts).value.server)
    decreases |acts|
  {
    if acts != [] {
      RunTmp(cfg, acts[..|acts| - 1]);
      StepTmp(Exec(Init(cfg), acts[..|acts| - 1]).value, acts[|acts| - 1]);
    }
  }

  /** No tmp file outlives its PUT: in every reachable state each belongs to a request that is copying or renaming. */
  lemma NoTmpLeft(s: Sys, n: Name)
    requires Reachable(s) && n in s.server.tmp
    ensures n in s.server.handlers && (s.server.handlers[n].pc.Copying? || s.server.handlers[n].pc.Renaming?)
  {
    var acts :| Exec(Init(s.cfg), acts) == Some(s);
    RunTmp(s.cfg, acts);
  }

  // ---- a PUT into a live session ----

  /** What happens between an upload worker taking up a chunk of `size` bytes and being done with it. */
  function PutRun(w: nat, n: Name, size: nat): seq<Action> {
    [UploadA(w, OpenFile),
     ServerA(n, DoLookup), ServerA(n, DoOpen), ServerA(n, Copy(size)), ServerA(n, CopyDone),
     ServerA(n, DoRename), ServerA(n, DoTouch),
     UploadA(w, GetReply), UploadA(w, RecordIt), UploadA(w, FinishIt)]
  }

  lemma {:induction false} RunsOn(s: Sys, acts: seq<Action>, more: seq<Action>)
    requires Exec(s, acts).Some? && Exec(Exec(s, acts).value, more).Some?
    ensures Exec(s, acts + more) == Exec(Exec(s, acts).value, more)
    decreases |more|
  {
    if more == [] {
      assert acts + more == acts;
    } else {
      var p := more[..|more| - 1];
      assert (acts + more)[..|acts + more| - 1] == acts + p;
      RunsOn(s, acts, p);
    }
  }

  lemma Joined(s: Sys, acts: seq<Action>, s1: Sys, more: seq<Action>, s2: Sys)
    requires Exec(s, acts) == Some(s1) && Exec(s1, more) == Some(s2)
    ensures Exec(s, acts + more) == Some(s2)
  {
    RunsOn(s, acts, more);
  }

  lemma OneStep(s: Sys, a: Action, s': Sys)
    requires Next(s, a) == Some(s')
    ensures Exec(s, [a]) == Some(s')
  {
    assert [a][..0] == [];
  }

  lemma ServerOne(s: Sys, n: Name, a: ServerAct, v: Server)
    requires ServerStep(s.server, n, a) == Some(v)
    ensures Exec(s, [ServerA(n, a)]) == Some(s.(server := v))
  {
    OneStep(s, ServerA(n, a), s.(server := v));
  }

  lemma ServerNext(s: Sys, acts: seq<Action>, v: Server, n: Name, a: ServerAct, v': Server)
    requires Exec(s, acts) == Some(s.(server := v)) && ServerStep(v, n, a) == Some(v')
    ensures Exec(s, acts + [ServerA(n, a)]) == Some(s.(server := v'))
  {
    var s1 := s.(server := v);
    ServerOne(s1, n, a, v');
    assert s1.(server := v') == s.(server := v');
    Joined(s, acts, s1, [ServerA(n, a)], s.(server := v'));
  }

  /** Three steps of masterd, on its own state. */
  lemma ServerThree(s: Sys, acts: seq<Action>, v: Server, n: Name, a1: ServerAct, v1: Server, a2: ServerAct, v2: Server,
                    a3: ServerAct, v3: Server)
    requires Exec(s, acts) == Some(s.(server := v)) && ServerStep(v, n, a1) == Some(v1)
    requires ServerStep(v1, n, a2) == Some(v2) && ServerStep(v2, n, a3) == Some(v3)
    ensures Exec(s, acts + [ServerA(n, a1)] + [ServerA(n, a2)] + [ServerA(n, a3)]) == Some(s.(server := v3))
  {
    ServerNext(s, acts, v, n, a1, v1);
    ServerNext(s, acts + [ServerA(n, a1)], v1, n, a2, v2);
    ServerNext(s, acts + [ServerA(n, a1)] + [ServerA(n, a2)], v2, n, a3, v3);
  }

  /** masterd's state when it has put `body` in place and replied. */
  function Storing(v: Server, n: Name, w: nat, body: Bytes): Server {
    v.(handlers := v.handlers[n := Handler(Some(w), body, Replied(Stored))],
       files := v.files[n := body], landed := v.landed[n := body], tmp := v.tmp - {n})
  }

  /** masterd's half, from the request to the reply. */
  lemma ServerStores(s: Sys, n: Name, w: nat, body: Bytes) returns (s': Sys)
    requires s.server.live && s.server.dirPresent
    requires n in s.server.handlers && s.server.handlers[n] == Handler(Some(w), body, Lookup)
    ensures Exec(s, PutRun(w, n, |body|)[1..7]) == Some(s') && s' == s.(server := Storing(s.server, n, w, body))
  {
    var v1, v2, v3 := Fills(s.server, n, w, body);
    var v4, v5, v6 := Renames(v3, n, w, body);
    var half := [] + [ServerA(n, DoLookup)] + [ServerA(n, DoOpen)] + [ServerA(n, Copy(|body|))];
    ServerThree(s, [], s.server, n, DoLookup, v1, DoOpen, v2, Copy(|body|), v3);
    ServerThree(s, half, v3, n, CopyDone, v4, DoRename, v5, DoTouch, v6);
    ServerRunIs(w, n, |body|);
    s' := s.(server := v6);
    StoringFilled(s.server, v3, n, w, body);
  }

  lemma ServerRunIs(w: nat, n: Name, size: nat)
    ensures [] + [ServerA(n, DoLookup)] + [ServerA(n, DoOpen)] + [ServerA(n, Copy(size))]
              + [ServerA(n, CopyDone)] + [ServerA(n, DoRename)] + [ServerA(n, DoTouch)]
         == PutRun(w, n, size)[1..7]
  {
  }

  lemma StoringFilled(v: Server, v': Server, n: Name, w: nat, body: Bytes)
    requires v' == v.(handlers := v.handlers[n := Handler(Some(w), body, Copying(|body|))], tmp := v.tmp[n := body])
    ensures Storing(v', n, w, body) == Storing(v, n, w, body)
  {
    assert Storing(v', n, w, body).handlers == Storing(v, n, w, body).handlers;
    assert Storing(v', n, w, body).tmp == Storing(v, n, w, body).tmp;
  }

  /** The session is there, and the whole body goes into the tmp file. */
  lemma Fills(v: Server, n: Name, w: nat, body: Bytes) returns (v1: Server, v2: Server, v3: Server)
    requires v.live && v.dirPresent && n in v.handlers && v.handlers[n] == Handler(Some(w), body, Lookup)
    ensures ServerStep(v, n, DoLookup) == Some(v1) && ServerStep(v1, n, DoOpen) == Some(v2)
    ensures ServerStep(v2, n, Copy(|body|)) == Some(v3)
    ensures v3 == v.(handlers := v.handlers[n := Handler(Some(w), body, Copying(|body|))], tmp := v.tmp[n := body])
  {
    v1 := v.(handlers := v.handlers[n := Handler(Some(w), body, OpenTmp)]);
    v2 := v.(handlers := v.handlers[n := Handler(Some(w), body, Copying(0))], tmp := v.tmp[n := []]);
    v3 := v.(handlers := v.handlers[n := Handler(Some(w), body, Copying(|body|))], tmp := v.tmp[n := body]);
    assert v1.handlers[n := Handler(Some(w), body, Copying(0))] == v2.handlers;
    assert v2.handlers[n := Handler(Some(w), body, Copying(|body|))] == v3.handlers;
    assert body[..|body|] == body;
    assert v2.tmp[n := body] == v3.tmp;
  }

  /** The copy is done, and the rename finds its tmp file. */
  lemma Renames(v: Server, n: Name, w: nat, body: Bytes) returns (v4: Server, v5: Server, v6: Server)
    requires n in v.handlers && v.handlers[n] == Handler(Some(w), body, Copying(|body|)) && n in v.tmp && v.tmp[n] == body
    ensures ServerStep(v, n, CopyDone) == Some(v4) && ServerStep(v4, n, DoRename) == Some(v5)
    ensures ServerStep(v5, n, DoTouch) == Some(v6) && v6 == Storing(v, n, w, body)
  {
    v4 := v.(handlers := v.handlers[n := Handler(Some(w), body, Renaming)]);
    v5 := v.(handlers := v.handlers[n := Handler(Some(w), body, Touching)],
             files := v.files[n := body], landed := v.landed[n := body], tmp := v.tmp - {n});
    v6 := Storing(v, n, w, body);
    assert v4.handlers[n := Handler(Some(w), body, Touching)] == v5.handlers;
    assert v5.handlers[n := Handler(Some(w), body, Replied(Stored))] == v6.handlers;
  }

  lemma UploadOne(s: Sys, w: nat, a: UploadAct, s': Sys)
    requires UploadStep(s, w, a) == Some(s')
    ensures Exec(s, [UploadA(w, a)]) == Some(s')
  {
    OneStep(s, UploadA(w, a), s');
  }

  lemma UploadTwo(s: Sys, w: nat, a1: UploadAct, s1: Sys, a2: UploadAct, s2: Sys)
    requires UploadStep(s, w, a1) == Some(s1) && UploadStep(s1, w, a2) == Some(s2)
    ensures Exec(s, [UploadA(w, a1), UploadA(w, a2)]) == Some(s2)
  {
    UploadOne(s, w, a1, s1);
    UploadOne(s1, w, a2, s2);
    Joined(s, [UploadA(w, a1)], s1, [UploadA(w, a2)], s2);
    assert [UploadA(w, a1)] + [UploadA(w, a2)] == [UploadA(w, a1), UploadA(w, a2)];
  }

  /** The worker's end of it: the reply, the ACK, and the local copy removed. */
  lemma RecordSteps(s: Sys, w: nat, n: Name, attempt: nat) returns (s1: Sys, s2: Sys, s3: Sys)
    requires w in s.uploads && s.uploads[w] == Sending(n, attempt)
    requires n in s.server.handlers && s.server.handlers[n].client == Some(w) && s.server.handlers[n].pc == Replied(Stored)
    ensures UploadStep(s, w, GetReply) == Some(s1) && UploadStep(s1, w, RecordIt) == Some(s2)
    ensures UploadStep(s2, w, FinishIt) == Some(s3)
    ensures s3 == s.(
      job := s.job.(pending := s.job.pending - 1, acked := s.job.acked + {n}, signals := s.job.signals + 1),
      uploads := s.uploads[w := Idle],
      disk := s.disk.(files := s.disk.files - {n}),
      server := s.server.(handlers := s.server.handlers - {n}))
  {
    s1 := s.(uploads := s.uploads[w := Pushed(n, true)], server := s.server.(handlers := s.server.handlers - {n}));
    s2 := s1.(
      job := s.job.(pending := s.job.pending - 1, acked := s.job.acked + {n}, signals := s.job.signals + 1),
      uploads := s1.uploads[w := Removing(n)]);
    s3 := s2.(disk := s2.disk.(files := s2.disk.files - {n}), uploads := s2.uploads[w := Idle]);
    assert s3.uploads == s.uploads[w := Idle];
  }

  lemma ReplyIsRecorded(s: Sys, w: nat, n: Name, attempt: nat) returns (s': Sys)
    requires w in s.uploads && s.uploads[w] == Sending(n, attempt)
    requires n in s.server.handlers && s.server.handlers[n].client == Some(w) && s.server.handlers[n].pc == Replied(Stored)
    ensures Exec(s, PutRun(w, n, 0)[7..]) == Some(s')
    ensures s' == s.(
      job := s.job.(pending := s.job.pending - 1, acked := s.job.acked + {n}, signals := s.job.signals + 1),
      uploads := s.uploads[w := Idle],
      disk := s.disk.(files := s.disk.files - {n}),
      server := s.server.(handlers := s.server.handlers - {n}))
  {
    var s1, s2, s3 := RecordSteps(s, w, n, attempt);
    UploadTwo(s, w, GetReply, s1, RecordIt, s2);
    UploadOne(s2, w, FinishIt, s3);
    s' := s3;
    Joined(s, [UploadA(w, GetReply), UploadA(w, RecordIt)], s2, [UploadA(w, FinishIt)], s');
    assert [UploadA(w, GetReply), UploadA(w, RecordIt)] + [UploadA(w, FinishIt)] == PutRun(w, n, 0)[7..];
  }

  lemma RequestOpens(s: Sys, w: nat, n: Name, attempt: nat) returns (s': Sys)
    requires w in s.uploads && s.uploads[w] == Opening(n, attempt) && n in s.disk.files && n !in s.server.handlers
    ensures Exec(s, [UploadA(w, OpenFile)]) == Some(s')
    ensures s' == s.(
      uploads := s.uploads[w := Sending(n, attempt)],
      server := s.server.(handlers := s.server.handlers[n := Handler(Some(w), s.disk.files[n].data, Lookup)]))
  {
    s' := s.(uploads := s.uploads[w := Sending(n, attempt)],
             server := s.server.(handlers := s.server.handlers[n := Handler(Some(w), s.disk.files[n].data, Lookup)]));
    assert UploadStep(s, w, OpenFile) == Some(s');
    UploadOne(s, w, OpenFile, s');
  }

  /** The three parts of such a run, end to end. */
  lemma PutJoined(s: Sys, w: nat, n: Name, size: nat, s1: Sys, s2: Sys, s3: Sys)
    requires Exec(s, [UploadA(w, OpenFile)]) == Some(s1) && Exec(s1, PutRun(w, n, size)[1..7]) == Some(s2)
    requires Exec(s2, PutRun(w, n, 0)[7..]) == Some(s3)
    ensures Exec(s, PutRun(w, n, size)) == Some(s3)
  {
    var first, middle, last := [UploadA(w, OpenFile)], PutRun(w, n, size)[1..7], PutRun(w, n, 0)[7..];
    PutRunParts(w, n, size);
    Joined(s, first, s1, middle, s2);
    Joined(s, first + middle, s2, last, s3);
  }

  lemma PutRunParts(w: nat, n: Name, size: nat)
    ensures [UploadA(w, OpenFile)] + PutRun(w, n, size)[1..7] + PutRun(w, n, 0)[7..] == PutRun(w, n, size)
  {
  }

  /**
   * A PUT into a live session whose dir is there comes to its ACK: from every state in which a worker
   * takes up a chunk that is on its disk, these ten steps can happen, and after them the chunk's bytes
   * are in the session dir, the ACK is recorded, the local copy is gone and nothing else has changed.
   */
  lemma PutSucceeds(s: Sys, w: nat, n: Name, attempt: nat) returns (s': Sys)
    requires w in s.uploads && s.uploads[w] == Opening(n, attempt) && n in s.disk.files && n !in s.server.handlers
    requires s.server.live && s.server.dirPresent
    ensures Exec(s, PutRun(w, n, |s.disk.files[n].data|)) == Some(s')
    ensures s' == s.(
      job := s.job.(pending := s.job.pending - 1, acked := s.job.acked + {n}, signals := s.job.signals + 1),
      uploads := s.uploads[w := Idle],
      disk := s.disk.(files := s.disk.files - {n}),
      server := s.server.(files := s.server.files[n := s.disk.files[n].data],
                          landed := s.server.landed[n := s.disk.files[n].data], tmp := s.server.tmp - {n}))
  {
    var body := s.disk.files[n].data;
    var s1 := RequestOpens(s, w, n, attempt);
    var s2 := ServerStores(s1, n, w, body);
    s' := ReplyIsRecorded(s2, w, n, attempt);
    PutJoined(s, w, n, |body|, s1, s2, s');
    PutState(s, w, n, attempt, s1, s2, s');
  }

  lemma PutState(s: Sys, w: nat, n: Name, attempt: nat, s1: Sys, s2: Sys, s3: Sys)
    requires n in s.disk.files && n !in s.server.handlers
    requires s1 == s.(
      uploads := s.uploads[w := Sending(n, attempt)],
      server := s.server.(handlers := s.server.handlers[n := Handler(Some(w), s.disk.files[n].data, Lookup)]))
    requires s2 == s1.(server := Storing(s1.server, n, w, s.disk.files[n].data))
    requires s3 == s2.(
      job := s.job.(pending := s.job.pending - 1, acked := s.job.acked + {n}, signals := s.job.signals + 1),
      uploads := s2.uploads[w := Idle],
      disk := s.disk.(files := s.disk.files - {n}),
      server := s2.server.(handlers := s2.server.handlers - {n}))
    ensures s3 == s.(
      job := s.job.(pending := s.job.pending - 1, acked := s.job.acked + {n}, signals := s.job.signals + 1),
      uploads := s.uploads[w := Idle],
      disk := s.disk.(files := s.disk.files - {n}),
      server := s.server.(files := s.server.files[n := s.disk.files[n].data],
                          landed := s.server.landed[n := s.disk.files[n].data], tmp := s.server.tmp - {n}))
  {
    MapsBack(s, w, n, s1, s2);
  }

  /** Of the two maps that the run goes through, one is as before and the other has the worker idle. */
  lemma MapsBack(s: Sys, w: nat, n: Name, s1: Sys, s2: Sys)
    requires n !in s.server.handlers && s1.server.handlers.Keys == s.server.handlers.Keys + {n}
    requires forall m :: m in s.server.handlers ==> s1.server.handlers[m] == s.server.handlers[m]
    requires w in s1.uploads && s1.uploads == s.uploads[w := s1.uploads[w]]
    requires n in s2.server.handlers && s2.server.handlers == s1.server.handlers[n := s2.server.handlers[n]]
    ensures s2.server.handlers - {n} == s.server.handlers
    ensures s1.uploads[w := Idle] == s.uploads[w := Idle]
  {
  }
}
