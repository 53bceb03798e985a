/** The upload workers of the step system, each seen as one call of the retry loop. */
module PushReplies {
  import opened JobSections
  import opened System
  import opened SystemLife
  import opened SystemInv
  import opened SystemTheorems
  import opened PushRetry

  /** What one action tells worker `w` about its current attempt; a file that cannot be opened is final. */
  function Told(s: Sys, a: Action, w: nat): seq<Reply> {
    if !a.UploadA? || a.worker != w || w !in s.uploads then []
    else
      match a.u
      case GetReply =>
        if s.uploads[w].Sending? && s.uploads[w].name in s.server.handlers
           && s.server.handlers[s.uploads[w].name].pc.Replied?
        then [s.server.handlers[s.uploads[w].name].pc.reply] else []
      case NetError => [Retryable]
      case OpenFails => [Gone]
      case _ => []
  }

  /** All that worker `w` is told in the course of a run. */
  function Replies(s: Sys, acts: seq<Action>, w: nat): seq<Reply>
    requires Exec(s, acts).Some?
    decreases |acts|
  {
    if acts == [] then []
    else
      var p := acts[..|acts| - 1];
      Replies(s, p, w) + Told(Exec(s, p).value, acts[|acts| - 1], w)
  }

  /** The worker neither records its result yet nor is stopped by a shutdown. */
  predicate OnlyPushes(acts: seq<Action>, w: nat) {
    UploadA(w, RecordIt) !in acts && UploadA(w, QuitRetry) !in acts
  }

  /** Where the worker stands after these replies. */
  predicate StandsAt(u: Upload, n: Name, replies: seq<Reply>) {
    var k := |replies|;
    if AllRetryable(replies, k) && k <= PUSH_RETRIES then
      u == Opening(n, k) || u == Sending(n, k) || (k > 0 && u == BackingOff(n, k))
    else
      1 <= k <= PUSH_RETRIES + 1 && AllRetryable(replies, k - 1) && u == Pushed(n, replies[k - 1].Stored?)
  }

  lemma OneReply(u: Upload, n: Name, replies: seq<Reply>, r: Reply, u': Upload)
    requires StandsAt(u, n, replies) && (u.Opening? || u.Sending?)
    requires u' == AfterReply(n, u.attempt, r)
    ensures u.name == n && StandsAt(u', n, replies + [r])
  {
    var more := replies + [r];
    assert forall i :: 0 <= i < |replies| ==> more[i] == replies[i];
    assert more[|replies|] == r;
  }

  lemma OwnReply(s: Sys, w: nat, u: UploadAct, n: Name, replies: seq<Reply>)
    requires UploadStep(s, w, u).Some? && (u == GetReply || u == NetError || u == OpenFails)
    requires w in s.uploads && StandsAt(s.uploads[w], n, replies)
    ensures w in UploadStep(s, w, u).value.uploads
    ensures StandsAt(UploadStep(s, w, u).value.uploads[w], n, replies + Told(s, UploadA(w, u), w))
  {
    var told := Told(s, UploadA(w, u), w);
    assert |told| == 1 && told == [told[0]];
    OneReply(s.uploads[w], n, replies, told[0], UploadStep(s, w, u).value.uploads[w]);
  }

  lemma OwnQuiet(s: Sys, w: nat, u: UploadAct, n: Name, replies: seq<Reply>)
    requires UploadStep(s, w, u).Some? && u != RecordIt && u != QuitRetry
    requires u != GetReply && u != NetError && u != OpenFails
    requires w in s.uploads && StandsAt(s.uploads[w], n, replies)
    ensures w in UploadStep(s, w, u).value.uploads && Told(s, UploadA(w, u), w) == []
    ensures StandsAt(UploadStep(s, w, u).value.uploads[w], n, replies)
  {
  }

  lemma OwnStep(s: Sys, w: nat, u: UploadAct, n: Name, replies: seq<Reply>)
    requires UploadStep(s, w, u).Some? && u != RecordIt && u != QuitRetry
    requires w in s.uploads && StandsAt(s.uploads[w], n, replies)
    ensures w in UploadStep(s, w, u).value.uploads
    ensures StandsAt(UploadStep(s, w, u).value.uploads[w], n, replies + Told(s, UploadA(w, u), w))
  {
    if u == GetReply || u == NetError || u == OpenFails {
      OwnReply(s, w, u, n, replies);
    } else {
      OwnQuiet(s, w, u, n, replies);
      assert replies + [] == replies;
    }
  }

  lemma OthersStep(s: Sys, a: Action, w: nat)
    requires StartInv(s) && Next(s, a).Some? && w in s.uploads && !(a.UploadA? && a.worker == w)
    ensures w in Next(s, a).value.uploads && Next(s, a).value.uploads[w] == s.uploads[w]
  {
    if a.UploadA? {
      OtherWorker(s, a.worker, a.u, w);
    } else if a.RunA? {
      if !a.r.PushersOk? {
        RunTouches(s, a.r);
      }
    } else if a.WatchA? {
      WatchTouches(s, a.w);
    } else {
      OutsideTouches(s, a);
    }
  }

  lemma OtherWorker(s: Sys, v: nat, u: UploadAct, w: nat)
    requires UploadStep(s, v, u).Some? && v != w && w in s.uploads
    ensures w in UploadStep(s, v, u).value.uploads && UploadStep(s, v, u).value.uploads[w] == s.uploads[w]
  {
  }

  lemma StartHolds(s: Sys)
    requires Inv(s)
    ensures StartInv(s)
  {
    LifeParts(s);
  }

  lemma {:induction false} WorkerFollows(s: Sys, acts: seq<Action>, w: nat, n: Name)
    requires Inv(s) && Exec(s, acts).Some? && OnlyPushes(acts, w)
    requires w in s.uploads && s.uploads[w] == Opening(n, 0)
    ensures w in Exec(s, acts).value.uploads
    ensures StandsAt(Exec(s, acts).value.uploads[w], n, Replies(s, acts, w))
    decreases |acts|
  {
    if acts != [] {
      var p, a := acts[..|acts| - 1], acts[|acts| - 1];
      var before := Exec(s, p).value;
      WorkerFollows(s, p, w, n);
      PushersStarted(s, p);
      assert a in acts;
      FollowsOne(before, a, w, n, Replies(s, p, w));
    }
  }

  lemma PushersStarted(s: Sys, acts: seq<Action>)
    requires Inv(s) && Exec(s, acts).Some?
    ensures StartInv(Exec(s, acts).value)
  {
    ExecKeeps(s, acts);
    StartHolds(Exec(s, acts).value);
  }

  lemma FollowsOne(s: Sys, a: Action, w: nat, n: Name, replies: seq<Reply>)
    requires StartInv(s) && Next(s, a).Some? && a != UploadA(w, RecordIt) && a != UploadA(w, QuitRetry)
    requires w in s.uploads && StandsAt(s.uploads[w], n, replies)
    ensures w in Next(s, a).value.uploads && StandsAt(Next(s, a).value.uploads[w], n, replies + Told(s, a, w))
  {
    if a.UploadA? && a.worker == w {
      OwnStep(s, w, a.u, n, replies);
    } else {
      OthersStep(s, a, w);
      assert replies + [] == replies;
    }
  }

  /**
   * A worker that takes a name off the queue and comes to a result has done what the retry loop does
   * on the replies it got: the loop ends on them with the same result, after as many attempts.
   */
  lemma WorkerIsLoop(s: Sys, acts: seq<Action>, w: nat, n: Name, ok: bool, attempts: seq<Reply>, result: bool, made: nat)
    requires Reachable(s) && Exec(s, acts).Some? && OnlyPushes(acts, w)
    requires w in s.uploads && s.uploads[w] == Opening(n, 0)
    requires w in Exec(s, acts).value.uploads && Exec(s, acts).value.uploads[w] == Pushed(n, ok)
    requires Replies(s, acts, w) <= attempts && EndsPush(attempts, result, made)
    ensures result == ok && made == |Replies(s, acts, w)|
  {
    ReachableInv(s);
    WorkerFollows(s, acts, w, n);
    LoopEndsThere(Replies(s, acts, w), n, ok, attempts, result, made);
  }

  lemma LoopEndsThere(replies: seq<Reply>, n: Name, ok: bool, attempts: seq<Reply>, result: bool, made: nat)
    requires StandsAt(Pushed(n, ok), n, replies) && replies <= attempts && EndsPush(attempts, result, made)
    ensures result == ok && made == |replies|
  {
    var k := |replies|;
    assert forall i :: 0 <= i < k ==> attempts[i] == replies[i];
  }
}
