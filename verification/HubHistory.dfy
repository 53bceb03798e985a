/**
 * What a subscriber of the hub is sent, told without the hub: from the operations on it alone, each
 * client has a stream of its own that is caught up, fed while there is room, cut off or ended.
 */
module HubHistory {
  import opened Prelude
  import opened Protocol
  import opened EventHubSpec

  datatype HubOp =
    | Published(ev: Event)
    | Joined(id: nat)
    | Quit(id: nat)
    | Took(id: nat)
    | Shut
    | Elsewhere

  function Apply(h: Hub, op: HubOp): Hub {
    match op
    case Published(ev) => Publish(h, ev)
    case Joined(id) => Subscribe(h, id)
    case Quit(id) => Unsubscribe(h, id)
    case Took(id) => Drain(h, id)
    case Shut => CloseHub(h)
    case Elsewhere => h
  }

  function HubAfter(ops: seq<HubOp>): Hub
    decreases |ops|
  {
    if ops == [] then NEW_HUB else Apply(HubAfter(ops[..|ops| - 1]), ops[|ops| - 1])
  }

  // ---- the log, and what a late client is told of it ----

  predicate IsShut(ops: seq<HubOp>) {
    Shut in ops
  }

  /** Everything published before the hub was closed. */
  function LogOf(ops: seq<HubOp>): seq<Event>
    decreases |ops|
  {
    if ops == [] then []
    else
      var p, op := ops[..|ops| - 1], ops[|ops| - 1];
      LogOf(p) + (if op.Published? && !IsShut(p) then [op.ev] else [])
  }

  function StatesIn(log: seq<Event>): seq<Event> {
    if log == [] then []
    else StatesIn(log[..|log| - 1]) + (if log[|log| - 1].StateEvent? then [log[|log| - 1]] else [])
  }

  function LinesIn(log: seq<Event>): seq<Event> {
    if log == [] then []
    else LinesIn(log[..|log| - 1]) + (if log[|log| - 1].StderrEvent? then [log[|log| - 1]] else [])
  }

  /** The latest exit event, if any. */
  function ExitIn(log: seq<Event>): seq<Event> {
    if log == [] then []
    else if log[|log| - 1].ExitEvent? then [log[|log| - 1]]
    else ExitIn(log[..|log| - 1])
  }

  /** All states in order, the last 200 lines of stderr, and the exit. */
  function CatchUp(log: seq<Event>): seq<Event> {
    var lines := LinesIn(log);
    StatesIn(log) + (if |lines| <= 200 then lines else lines[|lines| - 200..]) + ExitIn(log)
  }

  // ---- one client's stream ----

  datatype Stage = Unknown | Attached | Overrun | Unhooked | Ended

  /** `sent`: all that was ever put into the channel; `unread`: how much of it the client has yet to read. */
  datatype Link = Link(stage: Stage, sent: seq<Event>, unread: nat)

  function Follow(ops: seq<HubOp>, id: nat): Link
    decreases |ops|
  {
    if ops == [] then Link(Unknown, [], 0)
    else
      var p := ops[..|ops| - 1];
      var l := Follow(p, id);
      match ops[|ops| - 1]
      case Joined(k) =>
        if k != id then l
        else Link(if IsShut(p) then Ended else Attached, CatchUp(LogOf(p)), |CatchUp(LogOf(p))|)
      case Published(ev) =>
        if !l.stage.Attached? then l
        else if l.unread < 1024 then Link(Attached, l.sent + [ev], l.unread + 1)
        else if ev.StderrEvent? then l
        else l.(stage := Overrun)
      case Quit(k) => if k == id && l.stage.Attached? then l.(stage := Unhooked) else l
      case Took(k) => if k == id && l.unread > 0 then l.(unread := l.unread - 1) else l
      case Shut => if l.stage.Attached? then l.(stage := Ended) else l
      case Elsewhere => l
  }

  /** What is asked of those who use the hub: a client joins once, and there are few states. */
  ghost predicate Orderly(ops: seq<HubOp>)
    decreases |ops|
  {
    ops != [] ==>
      var p, op := ops[..|ops| - 1], ops[|ops| - 1];
      && Orderly(p)
      && (op.Joined? ==> Follow(p, op.id).stage.Unknown? && |StatesIn(LogOf(p))| + 201 <= 1024)
  }

  // ---- the hub does so ----

  ghost predicate Remembers(h: Hub, log: seq<Event>) {
    && h.states == StatesIn(log)
    && h.stderr == (if |LinesIn(log)| <= 200 then LinesIn(log) else LinesIn(log)[|LinesIn(log)| - 200..])
    && (if h.exit.Some? then [h.exit.value] else []) == ExitIn(log)
  }

  ghost predicate HistoryIs(h: Hub, ops: seq<HubOp>) {
    h.closed == IsShut(ops) && h.log == LogOf(ops) && Remembers(h, LogOf(ops)) && (h.closed ==> h.subs == {})
  }

  lemma OneMore(log: seq<Event>, ev: Event)
    ensures StatesIn(log + [ev]) == StatesIn(log) + (if ev.StateEvent? then [ev] else [])
    ensures LinesIn(log + [ev]) == LinesIn(log) + (if ev.StderrEvent? then [ev] else [])
    ensures ExitIn(log + [ev]) == if ev.ExitEvent? then [ev] else ExitIn(log)
  {
    assert (log + [ev])[..|log|] == log;
  }

  lemma RecordRemembers(h: Hub, ev: Event, log: seq<Event>)
    requires Remembers(h, log)
    ensures Remembers(Record(h, ev), log + [ev])
  {
    OneMore(log, ev);
    if ev.StderrEvent? {
      LastLines(LinesIn(log), ev);
      assert StatesIn(log) + [] == StatesIn(log);
    } else {
      assert StatesIn(log) + [] == StatesIn(log);
      assert LinesIn(log) + [] == LinesIn(log);
    }
  }

  /** The last 200 lines after one more. */
  lemma LastLines(lines: seq<Event>, ev: Event)
    ensures
      var before := if |lines| <= 200 then lines else lines[|lines| - 200..];
      var all := lines + [ev];
      Ring(before + [ev]) == if |all| <= 200 then all else all[|all| - 200..]
  {
    if |lines| > 200 {
      assert (lines[|lines| - 200..] + [ev])[1..] == (lines + [ev])[|lines| + 1 - 200..];
    }
  }

  lemma ShutGrows(p: seq<HubOp>, op: HubOp)
    ensures IsShut(p + [op]) <==> IsShut(p) || op.Shut?
  {
  }

  lemma LogGrows(p: seq<HubOp>, op: HubOp)
    ensures LogOf(p + [op]) == LogOf(p) + (if op.Published? && !IsShut(p) then [op.ev] else [])
  {
    assert (p + [op])[..|p|] == p;
  }

  lemma PublishRecords(h: Hub, ev: Event)
    requires !h.closed
    ensures
      var h', r := Publish(h, ev), Record(h, ev);
      h'.states == r.states && h'.stderr == r.stderr && h'.exit == r.exit && h'.log == h.log + [ev] && !h'.closed
  {
  }

  lemma SameMemory(h: Hub, h': Hub, log: seq<Event>)
    requires Remembers(h, log) && h'.states == h.states && h'.stderr == h.stderr && h'.exit == h.exit
    ensures Remembers(h', log)
  {
  }

  lemma PublishHistory(h: Hub, p: seq<HubOp>, ev: Event)
    requires HistoryIs(h, p)
    ensures HistoryIs(Publish(h, ev), p + [Published(ev)])
  {
    ShutGrows(p, Published(ev));
    LogGrows(p, Published(ev));
    if h.closed {
      assert LogOf(p) + [] == LogOf(p);
    } else {
      RecordRemembers(h, ev, LogOf(p));
      PublishRecords(h, ev);
      SameMemory(Record(h, ev), Publish(h, ev), LogOf(p) + [ev]);
    }
  }

  lemma OtherHistory(h: Hub, p: seq<HubOp>, op: HubOp)
    requires HistoryIs(h, p) && !op.Published?
    ensures HistoryIs(Apply(h, op), p + [op])
  {
    ShutGrows(p, op);
    LogGrows(p, op);
    assert LogOf(p) + [] == LogOf(p);
    OtherKeepsLog(h, op);
  }

  /** Only a publish adds to what the hub remembers, and only a close closes it. */
  lemma OtherKeepsLog(h: Hub, op: HubOp)
    requires !op.Published?
    ensures
      var h' := Apply(h, op);
      && h'.states == h.states && h'.stderr == h.stderr && h'.exit == h.exit && h'.log == h.log
      && (h'.closed <==> h.closed || op.Shut?)
      && (h'.closed && (h.closed ==> h.subs == {}) ==> h'.subs == {})
  {
  }

  /** What the hub has of client `id` is its stream. */
  ghost predicate Linked(h: Hub, id: nat, l: Link) {
    && (id in h.chans <==> !l.stage.Unknown?)
    && (id in h.subs <==> l.stage.Attached?)
    && l.unread <= |l.sent|
    && (id in h.chans ==>
          h.chans[id] == Chan(l.sent[|l.sent| - l.unread..], l.sent, l.stage.Overrun? || l.stage.Ended?, false))
    && l.unread <= 1024
  }

  lemma SnapshotIsCatchUp(h: Hub, log: seq<Event>)
    requires Remembers(h, log) && |h.states| + 201 <= 1024
    ensures SendAll(NEW_CHAN, Snapshot(h)) == Chan(CatchUp(log), CatchUp(log), false, false)
    ensures |CatchUp(log)| <= 1024
  {
    assert Snapshot(h) == CatchUp(log);
    SendAllFits(NEW_CHAN, Snapshot(h));
    assert [] + Snapshot(h) == Snapshot(h);
  }

  lemma JoinLinks(h: Hub, p: seq<HubOp>, k: nat, id: nat)
    requires HistoryIs(h, p) && Linked(h, id, Follow(p, id)) && Orderly(p + [Joined(k)])
    ensures Linked(Subscribe(h, k), id, Follow(p + [Joined(k)], id))
  {
    var ops := p + [Joined(k)];
    assert ops[..|ops| - 1] == p;
    if k == id {
      var c := CatchUp(LogOf(p));
      SnapshotIsCatchUp(h, LogOf(p));
      assert c[|c| - |c|..] == c;
    }
  }

  lemma PublishLinks(h: Hub, p: seq<HubOp>, ev: Event, id: nat)
    requires HistoryIs(h, p) && Linked(h, id, Follow(p, id))
    ensures Linked(Publish(h, ev), id, Follow(p + [Published(ev)], id))
  {
    var ops := p + [Published(ev)];
    assert ops[..|ops| - 1] == p;
    var l := Follow(p, id);
    if l.stage.Attached? && l.unread < 1024 {
      assert l.sent[|l.sent| - l.unread..] + [ev] == (l.sent + [ev])[|l.sent| - l.unread..];
    }
  }

  lemma TakeLinks(h: Hub, p: seq<HubOp>, k: nat, id: nat)
    requires Linked(h, id, Follow(p, id))
    ensures Linked(Drain(h, k), id, Follow(p + [Took(k)], id))
  {
    var ops := p + [Took(k)];
    assert ops[..|ops| - 1] == p;
    var l := Follow(p, id);
    if k == id && l.unread > 0 && id in h.chans {
      assert l.sent[|l.sent| - l.unread..][1..] == l.sent[|l.sent| - (l.unread - 1)..];
    }
  }

  lemma OtherLinks(h: Hub, p: seq<HubOp>, op: HubOp, id: nat)
    requires HistoryIs(h, p) && Linked(h, id, Follow(p, id)) && (op.Quit? || op.Shut? || op.Elsewhere?)
    ensures Linked(Apply(h, op), id, Follow(p + [op], id))
  {
    var ops := p + [op];
    assert ops[..|ops| - 1] == p;
  }

  lemma {:induction false} HubRemembers(ops: seq<HubOp>)
    ensures HistoryIs(HubAfter(ops), ops)
    decreases |ops|
  {
    if ops != [] {
      var p, op := ops[..|ops| - 1], ops[|ops| - 1];
      HubRemembers(p);
      assert p + [op] == ops;
      if op.Published? {
        PublishHistory(HubAfter(p), p, op.ev);
      } else {
        OtherHistory(HubAfter(p), p, op);
      }
    }
  }

  /**
   * Hub delivery, over every sequence of operations: each client's channel is its stream. It has been
   * sent the catch-up and then every event that met it attached and with room; it is still attached
   * unless it left, the hub was closed, or a state or exit event met it with 1024 events unread.
   */
  lemma {:induction false} StreamsAreFollowed(ops: seq<HubOp>, id: nat)
    requires Orderly(ops)
    ensures Linked(HubAfter(ops), id, Follow(ops, id))
    decreases |ops|
  {
    if ops != [] {
      var p, op := ops[..|ops| - 1], ops[|ops| - 1];
      StreamsAreFollowed(p, id);
      HubRemembers(p);
      LinkStep(HubAfter(p), p, op, ops, id);
    }
  }

  lemma LinkStep(h: Hub, p: seq<HubOp>, op: HubOp, ops: seq<HubOp>, id: nat)
    requires ops == p + [op] && Orderly(ops) && HistoryIs(h, p) && Linked(h, id, Follow(p, id))
    ensures Linked(Apply(h, op), id, Follow(ops, id))
  {
    match op
    case Joined(k) => JoinLinks(h, p, k, id);
    case Published(ev) => PublishLinks(h, p, ev, id);
    case Took(k) => TakeLinks(h, p, k, id);
    case _ => OtherLinks(h, p, op, id);
  }
}
