/**
 * masterd's session table (internal/masterd/sessions.go): registration, TTL, drain windows and
 * tombstones, and the claim that keeping and purging tombstones cannot be observed.
 *
 * Time is a number. A scheduled `time.AfterFunc` is a pending timer that may fire at any moment
 * after it is due. Push tokens are compared as such; their hashing is not modelled.
 */
module Sessions {
  import opened Prelude

  datatype Session = Session(target: string, token: string, expires: nat, tombstoned: bool, tombstonedAt: nat)

  datatype Timer = Timer(id: string, due: nat)

  datatype Store = Store(ttl: nat, drain: nat, keep: nat, now: nat, sessions: map<string, Session>, timers: multiset<Timer>)

  const DRAIN: nat := 2

  function NewStore(ttl: nat): Store {
    Store(ttl, DRAIN, ttl, 0, map[], multiset{})
  }

  // ---- the store, method by method ----

  function Register(st: Store, id: string, target: string, token: string): Store {
    st.(sessions := st.sessions[id := Session(target, token, st.now + st.ttl, false, 0)])
  }

  predicate IsLive(st: Store, id: string) {
    id in st.sessions && !st.sessions[id].tombstoned
  }

  function Lookup(st: Store, id: string): Option<Session> {
    if IsLive(st, id) then Some(st.sessions[id]) else None
  }

  function Touch(st: Store, id: string): Store {
    if IsLive(st, id)
    then st.(sessions := st.sessions[id := st.sessions[id].(expires := st.now + st.ttl)])
    else st
  }

  function Close(st: Store, id: string): Store {
    if IsLive(st, id) then st.(timers := st.timers + multiset{Timer(id, st.now + st.drain)}) else st
  }

  function Tombstone(st: Store, id: string): Store {
    if IsLive(st, id)
    then st.(sessions := st.sessions[id := st.sessions[id].(tombstoned := true, tombstonedAt := st.now)])
    else st
  }

  predicate Expired(s: Session, now: nat) {
    !s.tombstoned && now > s.expires
  }

  predicate Purgeable(s: Session, now: nat, keep: nat) {
    s.tombstoned && now > s.tombstonedAt + keep
  }

  function Reap(st: Store): Store {
    st.(sessions := map id | id in st.sessions && !Purgeable(st.sessions[id], st.now, st.keep) ::
      if Expired(st.sessions[id], st.now)
      then st.sessions[id].(tombstoned := true, tombstonedAt := st.now)
      else st.sessions[id])
  }

  // ---- the HTTP side ----

  /** What happens to an admitted PUT once it reaches the file system. */
  datatype Outcome = Renamed | DirRemoved | IoError

  datatype Op =
    | RegisterOp(id: string, target: string, token: string)
    | DeleteOp(id: string)
    | PutStart(id: string, presented: Option<string>, safe: bool)
    | PutEnd(id: string, outcome: Outcome)
    | FireOp(timer: Timer)
    | ReapOp
    | Elapse(time: nat)

  datatype Response =
    | Registered | NoContent
    | Admitted(target: string) | Gone410 | Unauthorized401 | BadRequest400
    | Stored200 | Failed500
    | Silent

  /** handlePutFile up to the file system: 410 unless live, 401 without the token, 400 for a bad path. */
  function Admit(live: Option<Session>, presented: Option<string>, safe: bool): Response {
    if live.None? then Gone410
    else if presented.None? || presented.value != live.value.token then Unauthorized401
    else if !safe then BadRequest400
    else Admitted(live.value.target)
  }

  function Ended(o: Outcome): Response {
    match o
    case Renamed => Stored200
    case DirRemoved => Gone410
    case IoError => Failed500
  }

  function Step(st: Store, op: Op): (Store, Response) {
    match op
    case RegisterOp(id, target, token) => (Register(st, id, target, token), Registered)
    case DeleteOp(id) => (Close(st, id), NoContent)
    case PutStart(id, presented, safe) => (st, Admit(Lookup(st, id), presented, safe))
    case PutEnd(id, o) =>
      (match o
       case Renamed => Touch(st, id)
       case DirRemoved => Tombstone(st, id)
       case IoError => st, Ended(o))
    case FireOp(t) =>
      (if t in st.timers && st.now >= t.due then Tombstone(st, t.id).(timers := st.timers - multiset{t}) else st, Silent)
    case ReapOp => (Reap(st), Silent)
    case Elapse(d) => (st.(now := st.now + d), Silent)
  }

  function Run(st: Store, ops: seq<Op>): (Store, seq<Response>)
    decreases |ops|
  {
    if ops == [] then (st, [])
    else
      var (st1, rs) := Run(st, ops[..|ops| - 1]);
      var (st2, r) := Step(st1, ops[|ops| - 1]);
      (st2, rs + [r])
  }

  // ---- the reference: live sessions only ----

  datatype LiveSession = LiveSession(target: string, token: string, expires: nat)

  datatype Live = Live(ttl: nat, drain: nat, now: nat, sessions: map<string, LiveSession>, timers: multiset<Timer>)

  function LiveStep(l: Live, op: Op): (Live, Response) {
    match op
    case RegisterOp(id, target, token) =>
      (l.(sessions := l.sessions[id := LiveSession(target, token, l.now + l.ttl)]), Registered)
    case DeleteOp(id) =>
      (if id in l.sessions then l.(timers := l.timers + multiset{Timer(id, l.now + l.drain)}) else l, NoContent)
    case PutStart(id, presented, safe) =>
      (l, if id !in l.sessions then Gone410
          else if presented != Some(l.sessions[id].token) then Unauthorized401
          else if !safe then BadRequest400
          else Admitted(l.sessions[id].target))
    case PutEnd(id, o) =>
      (match o
       case Renamed =>
         if id in l.sessions then l.(sessions := l.sessions[id := l.sessions[id].(expires := l.now + l.ttl)]) else l
       case DirRemoved => l.(sessions := l.sessions - {id})
       case IoError => l, Ended(o))
    case FireOp(t) =>
      (if t in l.timers && l.now >= t.due
       then l.(sessions := l.sessions - {t.id}, timers := l.timers - multiset{t}) else l, Silent)
    case ReapOp =>
      (l.(sessions := map id | id in l.sessions && l.now <= l.sessions[id].expires :: l.sessions[id]), Silent)
    case Elapse(d) => (l.(now := l.now + d), Silent)
  }

  function LiveRun(l: Live, ops: seq<Op>): (Live, seq<Response>)
    decreases |ops|
  {
    if ops == [] then (l, [])
    else
      var (l1, rs) := LiveRun(l, ops[..|ops| - 1]);
      var (l2, r) := LiveStep(l1, ops[|ops| - 1]);
      (l2, rs + [r])
  }

  /** Forget the tombstones. */
  function Forget(st: Store): Live {
    Live(st.ttl, st.drain, st.now,
         map id | id in st.sessions && !st.sessions[id].tombstoned ::
           LiveSession(st.sessions[id].target, st.sessions[id].token, st.sessions[id].expires),
         st.timers)
  }

  lemma StepForgets(st: Store, op: Op)
    ensures LiveStep(Forget(st), op) == (Forget(Step(st, op).0), Step(st, op).1)
  {
    match op
    case RegisterOp(_, _, _) => TableForgets(st, op);
    case DeleteOp(_) => PlainForgets(st, op);
    case PutStart(_, _, _) => PlainForgets(st, op);
    case PutEnd(id, o) => PutForgets(st, id, o);
    case FireOp(t) => FireForgets(st, t);
    case ReapOp => TableForgets(st, op);
    case Elapse(_) => PlainForgets(st, op);
  }

  lemma PlainForgets(st: Store, op: Op)
    requires op.DeleteOp? || op.PutStart? || op.Elapse?
    ensures LiveStep(Forget(st), op) == (Forget(Step(st, op).0), Step(st, op).1)
  {
    assert Step(st, op).0.sessions == st.sessions;
  }

  lemma TableForgets(st: Store, op: Op)
    requires op.RegisterOp? || op.ReapOp?
    ensures LiveStep(Forget(st), op) == (Forget(Step(st, op).0), Step(st, op).1)
  {
    assert LiveStep(Forget(st), op).0.sessions == Forget(Step(st, op).0).sessions;
  }

  lemma PutForgets(st: Store, id: string, o: Outcome)
    ensures LiveStep(Forget(st), PutEnd(id, o)).0 == Forget(Step(st, PutEnd(id, o)).0)
  {
    match o
    case Renamed => TouchForgets(st, id);
    case DirRemoved => TombstoneForgets(st, id);
    case IoError =>
  }

  lemma TouchForgets(st: Store, id: string)
    ensures LiveStep(Forget(st), PutEnd(id, Renamed)).0 == Forget(Touch(st, id))
  {
    assert LiveStep(Forget(st), PutEnd(id, Renamed)).0.sessions == Forget(Touch(st, id)).sessions;
  }

  lemma FireForgets(st: Store, t: Timer)
    ensures LiveStep(Forget(st), FireOp(t)).0 == Forget(Step(st, FireOp(t)).0)
  {
    if t in st.timers && st.now >= t.due {
      TombstoneForgets(st, t.id);
    }
  }

  /** Setting a tombstone drops the live session. */
  lemma TombstoneForgets(st: Store, id: string)
    ensures Forget(Tombstone(st, id)) == Forget(st).(sessions := Forget(st).sessions - {id})
  {
    assert Forget(Tombstone(st, id)).sessions == Forget(st).sessions - {id};
  }

  /**
   * Tombstones and their purging are unobservable: on every sequence of operations the store
   * answers exactly as one that keeps live sessions only and drops the others at once.
   */
  lemma {:induction false} PurgingUnobservable(st: Store, ops: seq<Op>)
    ensures Run(st, ops).1 == LiveRun(Forget(st), ops).1
    ensures Forget(Run(st, ops).0) == LiveRun(Forget(st), ops).0
    decreases |ops|
  {
    if ops != [] {
      PurgingUnobservable(st, ops[..|ops| - 1]);
      StepForgets(Run(st, ops[..|ops| - 1]).0, ops[|ops| - 1]);
    }
  }

  // ---- the TTL reaps only idle sessions ----

  predicate IsActivity(op: Op, id: string) {
    (op.RegisterOp? && op.id == id) || (op.PutEnd? && op.id == id && op.outcome.Renamed?)
  }

  function TimeOf(ops: seq<Op>): nat
    decreases |ops|
  {
    if ops == [] then 0
    else TimeOf(ops[..|ops| - 1]) + (if ops[|ops| - 1].Elapse? then ops[|ops| - 1].time else 0)
  }

  lemma StepClock(st: Store, op: Op)
    ensures Step(st, op).0.now == st.now + (if op.Elapse? then op.time else 0)
    ensures Step(st, op).0.ttl == st.ttl && Step(st, op).0.keep == st.keep
  {
  }

  lemma {:induction false} ClockIs(ttl: nat, ops: seq<Op>)
    ensures Run(NewStore(ttl), ops).0.now == TimeOf(ops)
    ensures Run(NewStore(ttl), ops).0.ttl == ttl
    decreases |ops|
  {
    if ops != [] {
      ClockIs(ttl, ops[..|ops| - 1]);
      StepClock(Run(NewStore(ttl), ops[..|ops| - 1]).0, ops[|ops| - 1]);
    }
  }

  lemma {:induction false} TimeGrows(ops: seq<Op>, k: nat)
    requires k <= |ops|
    ensures TimeOf(ops[..k]) <= TimeOf(ops)
    decreases |ops|
  {
    if k < |ops| {
      TimeGrows(ops[..|ops| - 1], k);
      assert ops[..|ops| - 1][..k] == ops[..k];
    } else {
      assert ops[..k] == ops;
    }
  }

  /** Some activity on `id` in the run is no older than `age`. */
  ghost predicate ActiveWithin(ops: seq<Op>, id: string, age: nat) {
    exists k :: 0 <= k < |ops| && IsActivity(ops[k], id) && TimeOf(ops) <= TimeOf(ops[..k]) + age
  }

  /** The latest activity on `id` is operation number `k`. */
  ghost predicate LatestAt(ops: seq<Op>, id: string, k: nat) {
    k < |ops| && IsActivity(ops[k], id) && forall m :: k < m < |ops| ==> !IsActivity(ops[m], id)
  }

  lemma LatestGrows(ops: seq<Op>, id: string, k: nat)
    requires ops != [] && LatestAt(ops[..|ops| - 1], id, k) && !IsActivity(ops[|ops| - 1], id)
    ensures LatestAt(ops, id, k) && TimeOf(ops[..k]) == TimeOf(ops[..|ops| - 1][..k])
  {
    var pre := ops[..|ops| - 1];
    assert pre[..k] == ops[..k];
    forall m | k < m < |ops|
      ensures !IsActivity(ops[m], id)
    {
      assert m < |pre| ==> pre[m] == ops[m];
    }
  }

  /** A live session expires one TTL after its latest activity. */
  lemma {:induction false} ExpiryIsLatestActivity(ttl: nat, ops: seq<Op>, id: string) returns (k: nat)
    requires IsLive(Run(NewStore(ttl), ops).0, id)
    ensures LatestAt(ops, id, k)
    ensures Run(NewStore(ttl), ops).0.sessions[id].expires == TimeOf(ops[..k]) + ttl
    decreases |ops|
  {
    var n := |ops| - 1;
    ClockIs(ttl, ops[..n]);
    StepLive(Run(NewStore(ttl), ops[..n]).0, ops[n], id);
    if IsActivity(ops[n], id) {
      k := n;
    } else {
      k := ExpiryIsLatestActivity(ttl, ops[..n], id);
      LatestGrows(ops, id, k);
    }
  }

  /** A session that is live after an operation was renewed by it, or was live before and untouched. */
  lemma StepLive(st: Store, op: Op, id: string)
    requires IsLive(Step(st, op).0, id)
    ensures IsActivity(op, id) ==> Step(st, op).0.sessions[id].expires == st.now + st.ttl
    ensures !IsActivity(op, id) ==> IsLive(st, id) && Step(st, op).0.sessions[id].expires == st.sessions[id].expires
  {
  }

  /**
   * The TTL reaps a live session exactly when the last activity on it, registration or a stored
   * segment, is more than a TTL ago.
   */
  lemma ReapedExactlyWhenIdle(ttl: nat, ops: seq<Op>, id: string)
    requires IsLive(Run(NewStore(ttl), ops).0, id)
    ensures !IsLive(Reap(Run(NewStore(ttl), ops).0), id) <==> !ActiveWithin(ops, id, ttl)
  {
    var st := Run(NewStore(ttl), ops).0;
    ClockIs(ttl, ops);
    var k := ExpiryIsLatestActivity(ttl, ops, id);
    assert !IsLive(Reap(st), id) <==> TimeOf(ops) > TimeOf(ops[..k]) + ttl;
    if ActiveWithin(ops, id, ttl) {
      var m :| 0 <= m < |ops| && IsActivity(ops[m], id) && TimeOf(ops) <= TimeOf(ops[..m]) + ttl;
      TimeGrows(ops[..k], m);
      assert ops[..k][..m] == ops[..m];
    }
  }

  // ---- how long a tombstone stays ----

  /** Some reap of the run comes later than the retention of a tombstone set at `since`. */
  ghost predicate LateReap(st: Store, ops: seq<Op>, since: nat) {
    exists k :: 0 <= k < |ops| && ops[k].ReapOp? && st.now + TimeOf(ops[..k]) > since + st.keep
  }

  predicate NoRegister(ops: seq<Op>, id: string) {
    forall k :: 0 <= k < |ops| ==> !(ops[k].RegisterOp? && ops[k].id == id)
  }

  lemma {:induction false} RunClock(st: Store, ops: seq<Op>)
    ensures Run(st, ops).0.now == st.now + TimeOf(ops) && Run(st, ops).0.keep == st.keep
    decreases |ops|
  {
    if ops != [] {
      RunClock(st, ops[..|ops| - 1]);
      StepClock(Run(st, ops[..|ops| - 1]).0, ops[|ops| - 1]);
    }
  }

  /** One operation on a table that holds the tombstone, or has lost it. */
  lemma StepTombstone(st: Store, op: Op, id: string)
    requires !(op.RegisterOp? && op.id == id) && (id in st.sessions ==> st.sessions[id].tombstoned)
    ensures id !in st.sessions ==> id !in Step(st, op).0.sessions
    ensures id in st.sessions ==>
              (id in Step(st, op).0.sessions <==> !(op.ReapOp? && st.now > st.sessions[id].tombstonedAt + st.keep))
    ensures id in Step(st, op).0.sessions ==> Step(st, op).0.sessions[id] == st.sessions[id]
  {
    match op
    case RegisterOp(_, _, _) =>
    case PutEnd(other, o) => OthersTombstone(st, other, id);
    case FireOp(t) => OthersTombstone(st, t.id, id);
    case ReapOp =>
    case _ =>
  }

  /** A tombstone is neither touched nor tombstoned again. */
  lemma OthersTombstone(st: Store, other: string, id: string)
    requires id in st.sessions ==> st.sessions[id].tombstoned
    ensures id in Tombstone(st, other).sessions <==> id in st.sessions
    ensures id in Touch(st, other).sessions <==> id in st.sessions
    ensures id in st.sessions ==>
              Tombstone(st, other).sessions[id] == st.sessions[id] && Touch(st, other).sessions[id] == st.sessions[id]
  {
  }

  lemma LateReapGrows(st: Store, ops: seq<Op>, since: nat)
    requires ops != []
    ensures LateReap(st, ops, since) <==>
              LateReap(st, ops[..|ops| - 1], since)
              || (ops[|ops| - 1].ReapOp? && st.now + TimeOf(ops[..|ops| - 1]) > since + st.keep)
  {
    var pre := ops[..|ops| - 1];
    assert forall k :: 0 <= k < |pre| ==> pre[..k] == ops[..k] && pre[k] == ops[k];
  }

  /**
   * A tombstone is purged exactly by the first reap that comes later than its retention: on every
   * sequence of operations that does not register the id again, it is there unchanged until then, and
   * nothing brings it back.
   */
  lemma {:induction false} PurgedExactly(st: Store, ops: seq<Op>, id: string)
    requires id in st.sessions && st.sessions[id].tombstoned && NoRegister(ops, id)
    ensures id in Run(st, ops).0.sessions <==> !LateReap(st, ops, st.sessions[id].tombstonedAt)
    ensures id in Run(st, ops).0.sessions ==> Run(st, ops).0.sessions[id] == st.sessions[id]
    decreases |ops|
  {
    if ops != [] {
      var pre := ops[..|ops| - 1];
      PurgedExactly(st, pre, id);
      RunClock(st, pre);
      LateReapGrows(st, ops, st.sessions[id].tombstonedAt);
      StepTombstone(Run(st, pre).0, ops[|ops| - 1], id);
    }
  }
}

/** The store as the Go program has it: a map updated in place under a mutex. */
module SessionStoreImpl {
  import opened Prelude
  import S = Sessions

  class SessionStore {
    const ttl: nat
    const drain: nat
    const keep: nat
    var now: nat
    var sessions: map<string, S.Session>
    var timers: multiset<S.Timer>

    ghost function View(): S.Store
      reads this
    {
      S.Store(ttl, drain, keep, now, sessions, timers)
    }

    constructor (ttl: nat)
      ensures View() == S.NewStore(ttl)
    {
      this.ttl, this.drain, this.keep := ttl, S.DRAIN, ttl;
      now, sessions, timers := 0, map[], multiset{};
    }

    method Register(id: string, target: string, token: string)
      modifies this
      ensures View() == S.Register(old(View()), id, target, token)
    {
      sessions := sessions[id := S.Session(target, token, now + ttl, false, 0)];
    }

    method Lookup(id: string) returns (r: Option<S.Session>)
      ensures r == S.Lookup(View(), id)
    {
      if id !in sessions {
        return None;
      }
      if sessions[id].tombstoned {
        return None;
      }
      r := Some(sessions[id]);
    }

    method Touch(id: string)
      modifies this
      ensures View() == S.Touch(old(View()), id)
    {
      if id in sessions && !sessions[id].tombstoned {
        sessions := sessions[id := sessions[id].(expires := now + ttl)];
      }
    }

    method Close(id: string)
      modifies this
      ensures View() == S.Close(old(View()), id)
    {
      if id !in sessions || sessions[id].tombstoned {
        return;
      }
      timers := timers + multiset{S.Timer(id, now + drain)};
    }

    method Tombstone(id: string)
      modifies this
      ensures View() == S.Tombstone(old(View()), id)
    {
      if id in sessions && !sessions[id].tombstoned {
        sessions := sessions[id := sessions[id].(tombstoned := true, tombstonedAt := now)];
      }
    }

    method Reap()
      modifies this
      ensures View() == S.Reap(old(View()))
    {
      var todo := sessions.Keys;
      while todo != {}
        invariant todo <= sessions.Keys <= old(sessions).Keys
        invariant now == old(now) && timers == old(timers)
        invariant forall id | id in todo :: sessions[id] == old(sessions)[id]
        invariant forall id | id in old(sessions) && id !in todo ::
          id in sessions <==> !S.Purgeable(old(sessions)[id], now, keep)
        invariant forall id | id in sessions && id !in todo ::
          sessions[id] == if S.Expired(old(sessions)[id], now)
                          then old(sessions)[id].(tombstoned := true, tombstonedAt := now)
                          else old(sessions)[id]
        decreases todo
      {
        var id :| id in todo;
        todo := todo - {id};
        var s := sessions[id];
        if !s.tombstoned && now > s.expires {
          sessions := sessions[id := s.(tombstoned := true, tombstonedAt := now)];
        } else if s.tombstoned && now > s.tombstonedAt + keep {
          sessions := sessions - {id};
        }
      }
      assert sessions == S.Reap(old(View())).sessions;
    }
  }
}
