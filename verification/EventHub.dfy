/**
 * The per-job event hub (internal/workerd/events.go): fan-out of a job's events to
 * subscriber channels, with a snapshot replayed to late subscribers.
 *
 * Channels are named by numbers. `Hub.log` and `Chan.sent` are history: everything the hub
 * accepted, and everything ever put into one channel. `Chan.fault` records the three things a
 * Go channel must never be asked for here: a send after close, a second close, and a send
 * that would block while the hub lock is held.
 */
module EventHubSpec {
  import opened Prelude
  import opened Protocol

  const STDERR_RING_SIZE: nat := 200
  const SUB_BUFFER: nat := 1024

  datatype Chan = Chan(buf: seq<Event>, sent: seq<Event>, closed: bool, fault: bool)

  datatype Hub = Hub(
    chans: map<nat, Chan>,
    subs: set<nat>,
    states: seq<Event>,
    stderr: seq<Event>,
    exit: Option<Event>,
    closed: bool,
    log: seq<Event>)

  const NEW_HUB := Hub(map[], {}, [], [], None, false, [])
  const NEW_CHAN := Chan([], [], false, false)

  // ---- channel operations ----

  /** `ch <- ev`: faults on a closed channel and where it would block. */
  function Send(c: Chan, ev: Event): Chan {
    if c.closed || |c.buf| >= SUB_BUFFER then c.(fault := true)
    else c.(buf := c.buf + [ev], sent := c.sent + [ev])
  }

  function SendAll(c: Chan, evs: seq<Event>): Chan
    decreases |evs|
  {
    if evs == [] then c else SendAll(Send(c, evs[0]), evs[1..])
  }

  function CloseChan(c: Chan): Chan {
    if c.closed then c.(fault := true) else c.(closed := true)
  }

  /** `v, ok := <-ch` on a channel that has something buffered. */
  function Receive(c: Chan): Chan {
    if c.buf == [] then c else c.(buf := c.buf[1..])
  }

  // ---- hub operations ----

  function Ring(lines: seq<Event>): seq<Event> {
    if |lines| > STDERR_RING_SIZE then lines[|lines| - STDERR_RING_SIZE..] else lines
  }

  function Record(h: Hub, ev: Event): Hub {
    match ev
    case StateEvent(_) => h.(states := h.states + [ev], log := h.log + [ev])
    case StderrEvent(_) => h.(stderr := Ring(h.stderr + [ev]), log := h.log + [ev])
    case ExitEvent(_) => h.(exit := Some(ev), log := h.log + [ev])
  }

  /** A full subscriber misses a stderr line, but is cut off by any other event. */
  predicate CutOff(c: Chan, ev: Event) {
    !c.closed && |c.buf| >= SUB_BUFFER && !ev.StderrEvent?
  }

  function Offer(c: Chan, ev: Event): Chan {
    if c.closed || |c.buf| < SUB_BUFFER then Send(c, ev)
    else if ev.StderrEvent? then c
    else CloseChan(c)
  }

  function Publish(h: Hub, ev: Event): Hub {
    if h.closed then h
    else Record(h, ev).(
      chans := map id | id in h.chans :: if id in h.subs then Offer(h.chans[id], ev) else h.chans[id],
      subs := set id | id in h.subs && !(id in h.chans && CutOff(h.chans[id], ev)))
  }

  function Snapshot(h: Hub): seq<Event> {
    h.states + h.stderr + (if h.exit.Some? then [h.exit.value] else [])
  }

  function Subscribe(h: Hub, id: nat): Hub {
    var c := SendAll(NEW_CHAN, Snapshot(h));
    if h.closed then h.(chans := h.chans[id := CloseChan(c)])
    else h.(chans := h.chans[id := c], subs := h.subs + {id})
  }

  function Unsubscribe(h: Hub, id: nat): Hub {
    h.(subs := h.subs - {id})
  }

  function Drain(h: Hub, id: nat): Hub {
    if id in h.chans then h.(chans := h.chans[id := Receive(h.chans[id])]) else h
  }

  function CloseHub(h: Hub): Hub {
    if h.closed then h
    else h.(
      closed := true,
      chans := map id | id in h.chans :: if id in h.subs then CloseChan(h.chans[id]) else h.chans[id],
      subs := {})
  }

  // ---- what the hub promises ----

  function NonStderr(evs: seq<Event>): seq<Event> {
    if evs == [] then []
    else NonStderr(evs[..|evs| - 1]) + (if evs[|evs| - 1].StderrEvent? then [] else [evs[|evs| - 1]])
  }

  function StderrOf(evs: seq<Event>): seq<Event> {
    if evs == [] then []
    else StderrOf(evs[..|evs| - 1]) + (if evs[|evs| - 1].StderrEvent? then [evs[|evs| - 1]] else [])
  }

  lemma ProjectOne(evs: seq<Event>, ev: Event)
    ensures NonStderr(evs + [ev]) == NonStderr(evs) + (if ev.StderrEvent? then [] else [ev])
    ensures StderrOf(evs + [ev]) == StderrOf(evs) + (if ev.StderrEvent? then [ev] else [])
    ensures ev.StderrEvent? ==> NonStderr(evs + [ev]) == NonStderr(evs)
    ensures !ev.StderrEvent? ==> StderrOf(evs + [ev]) == StderrOf(evs)
  {
    assert (evs + [ev])[..|evs|] == evs;
    assert NonStderr(evs) + [] == NonStderr(evs);
    assert StderrOf(evs) + [] == StderrOf(evs);
  }

  lemma {:induction false} ProjectConcat(a: seq<Event>, b: seq<Event>)
    ensures NonStderr(a + b) == NonStderr(a) + NonStderr(b)
    ensures StderrOf(a + b) == StderrOf(a) + StderrOf(b)
    decreases |b|
  {
    if b == [] {
      assert a + b == a;
    } else {
      var b' := b[..|b| - 1];
      assert a + b == (a + b') + [b[|b| - 1]];
      ProjectConcat(a, b');
      ProjectOne(a + b', b[|b| - 1]);
    }
  }

  ghost predicate AllStderr(evs: seq<Event>) {
    forall i :: 0 <= i < |evs| ==> evs[i].StderrEvent?
  }

  ghost predicate NoStderr(evs: seq<Event>) {
    forall i :: 0 <= i < |evs| ==> !evs[i].StderrEvent?
  }

  lemma {:induction false} ProjectAllStderr(evs: seq<Event>)
    requires AllStderr(evs)
    ensures NonStderr(evs) == [] && StderrOf(evs) == evs
    decreases |evs|
  {
    if evs != [] {
      ProjectAllStderr(evs[..|evs| - 1]);
      assert evs[..|evs| - 1] + [evs[|evs| - 1]] == evs;
    }
  }

  lemma {:induction false} ProjectNoStderr(evs: seq<Event>)
    requires NoStderr(evs)
    ensures NonStderr(evs) == evs && StderrOf(evs) == []
    decreases |evs|
  {
    if evs != [] {
      ProjectNoStderr(evs[..|evs| - 1]);
      assert evs[..|evs| - 1] + [evs[|evs| - 1]] == evs;
    }
  }

  lemma ProjectSorted(states: seq<Event>, lines: seq<Event>, exit: seq<Event>)
    requires NoStderr(states) && AllStderr(lines) && NoStderr(exit)
    ensures NonStderr(states + lines + exit) == states + exit
    ensures StderrOf(states + lines + exit) == lines
  {
    calc {
      NonStderr(states + lines + exit);
      { ProjectConcat(states + lines, exit); ProjectNoStderr(exit); }
      NonStderr(states + lines) + exit;
      { ProjectConcat(states, lines); ProjectNoStderr(states); ProjectAllStderr(lines); }
      states + [] + exit;
      states + exit;
    }
    calc {
      StderrOf(states + lines + exit);
      { ProjectConcat(states + lines, exit); ProjectNoStderr(exit); }
      StderrOf(states + lines) + [];
      { ProjectConcat(states, lines); ProjectNoStderr(states); ProjectAllStderr(lines); }
      [] + lines + [];
      lines;
    }
  }

  /** State and exit events that the log fixes: all states in order, then the exit. */
  function Milestones(h: Hub): seq<Event> {
    h.states + (if h.exit.Some? then [h.exit.value] else [])
  }

  /** The kinds of the events kept in each history. */
  ghost predicate Sorted(h: Hub) {
    && (forall i :: 0 <= i < |h.states| ==> h.states[i].StateEvent?)
    && AllStderr(h.stderr)
    && (h.exit.Some? ==> h.exit.value.ExitEvent?)
  }

  /** The histories are what the log says they are. */
  ghost predicate HistoriesOk(h: Hub) {
    && Sorted(h)
    && NonStderr(h.log) == Milestones(h)
    && h.stderr == Ring(StderrOf(h.log))
  }

  /** What holds of the channel of a subscriber that is still attached. */
  ghost predicate AttachedOk(c: Chan, log: seq<Event>) {
    && !c.closed
    && NonStderr(c.sent) == NonStderr(log)
    && Subseq(StderrOf(c.sent), StderrOf(log))
  }

  /** What holds of every channel ever handed out. */
  ghost predicate ChanOk(c: Chan, log: seq<Event>) {
    && !c.fault
    && |c.buf| <= SUB_BUFFER
    && NonStderr(c.sent) <= NonStderr(log)
  }

  ghost predicate HubInv(h: Hub) {
    && HistoriesOk(h)
    && h.subs <= h.chans.Keys
    && (h.closed ==> h.subs == {})
    && (forall id :: id in h.chans ==> ChanOk(h.chans[id], h.log))
    && (forall id :: id in h.subs ==> AttachedOk(h.chans[id], h.log))
  }

  /**
   * What the job lifecycle owes the hub: no state or second exit once the exit is out, and few
   * enough states that a snapshot fits a subscriber's buffer.
   */
  ghost predicate MayPublish(h: Hub, ev: Event) {
    ev.StderrEvent? || h.exit.None?
  }

  ghost predicate FewStates(h: Hub) {
    |h.states| + STDERR_RING_SIZE + 1 <= SUB_BUFFER
  }

  lemma NewHubInv()
    ensures HubInv(NEW_HUB)
  {
  }

  lemma RecordHistories(h: Hub, ev: Event)
    requires HistoriesOk(h) && MayPublish(h, ev)
    ensures HistoriesOk(Record(h, ev))
  {
    ProjectOne(h.log, ev);
    if ev.StderrEvent? {
      RingNext(StderrOf(h.log), ev);
    }
  }

  /** The ring of a longer history is the ring of the old one with the new line. */
  lemma RingNext(all: seq<Event>, ev: Event)
    ensures Ring(Ring(all) + [ev]) == Ring(all + [ev])
  {
    if |all| > STDERR_RING_SIZE {
      assert (all[|all| - STDERR_RING_SIZE..] + [ev])[1..] == (all + [ev])[|all| + 1 - STDERR_RING_SIZE..];
    }
  }

  lemma OfferKeeps(c: Chan, log: seq<Event>, ev: Event)
    requires ChanOk(c, log) && AttachedOk(c, log)
    ensures ChanOk(Offer(c, ev), log + [ev])
    ensures !CutOff(c, ev) ==> AttachedOk(Offer(c, ev), log + [ev])
  {
    ProjectOne(log, ev);
    if |c.buf| < SUB_BUFFER {
      ProjectOne(c.sent, ev);
      if ev.StderrEvent? {
        SubseqTake(StderrOf(c.sent), StderrOf(log), ev);
      }
    } else if ev.StderrEvent? {
      SubseqSkip(StderrOf(c.sent), StderrOf(log), ev);
    }
  }

  /**
   * Hub delivery, one publish: every channel keeps its promises. In particular a subscriber that
   * is still attached afterwards has been given every state and exit event published so far, in
   * order, and nothing was sent to or closed on a closed channel.
   */
  lemma PublishKeeps(h: Hub, ev: Event)
    requires HubInv(h) && MayPublish(h, ev)
    ensures HubInv(Publish(h, ev))
  {
    if !h.closed {
      var h' := Publish(h, ev);
      RecordHistories(h, ev);
      ProjectOne(h.log, ev);
      forall id | id in h'.chans
        ensures ChanOk(h'.chans[id], h'.log)
        ensures id in h'.subs ==> AttachedOk(h'.chans[id], h'.log)
      {
        if id in h.subs {
          OfferKeeps(h.chans[id], h.log, ev);
        }
      }
    }
  }

  lemma {:induction false} SendAllFits(c: Chan, evs: seq<Event>)
    requires !c.closed && !c.fault && |c.buf| + |evs| <= SUB_BUFFER
    ensures SendAll(c, evs) == Chan(c.buf + evs, c.sent + evs, false, false)
    decreases |evs|
  {
    if evs == [] {
      assert c.buf + evs == c.buf && c.sent + evs == c.sent;
    } else {
      SendAllFits(Send(c, evs[0]), evs[1..]);
      assert (c.buf + [evs[0]]) + evs[1..] == c.buf + evs;
      assert (c.sent + [evs[0]]) + evs[1..] == c.sent + evs;
    }
  }

  lemma RingSubseq(lines: seq<Event>)
    ensures Subseq(Ring(lines), lines)
  {
    if |lines| > STDERR_RING_SIZE {
      SubseqSuffix(lines, |lines| - STDERR_RING_SIZE);
    } else {
      SubseqSelf(lines);
    }
  }

  lemma SnapshotProjects(h: Hub)
    requires HistoriesOk(h)
    ensures NonStderr(Snapshot(h)) == NonStderr(h.log)
    ensures Subseq(StderrOf(Snapshot(h)), StderrOf(h.log))
  {
    var e := if h.exit.Some? then [h.exit.value] else [];
    ProjectSorted(h.states, h.stderr, e);
    RingSubseq(StderrOf(h.log));
  }

  lemma SnapshotLoads(h: Hub)
    requires HistoriesOk(h) && FewStates(h)
    ensures
      var c := SendAll(NEW_CHAN, Snapshot(h));
      && c == Chan(Snapshot(h), Snapshot(h), false, false)
      && ChanOk(c, h.log) && AttachedOk(c, h.log)
  {
    SendAllFits(NEW_CHAN, Snapshot(h));
    assert [] + Snapshot(h) == Snapshot(h);
    SnapshotProjects(h);
  }

  /**
   * A snapshot never blocks: it is loaded whole into the new channel, so a subscriber has been
   * given all states and the exit however late it came, and its stderr is the ring.
   */
  lemma SubscribeKeeps(h: Hub, id: nat)
    requires HubInv(h) && FewStates(h) && id !in h.chans
    ensures HubInv(Subscribe(h, id))
    ensures Subscribe(h, id).chans[id] == Chan(Snapshot(h), Snapshot(h), h.closed, false)
  {
    SnapshotLoads(h);
    var c := SendAll(NEW_CHAN, Snapshot(h));
    var h' := Subscribe(h, id);
    assert h'.chans[id] == c.(closed := h.closed);
    assert HistoriesOk(h');
    forall k | k in h'.chans
      ensures ChanOk(h'.chans[k], h'.log)
      ensures k in h'.subs ==> AttachedOk(h'.chans[k], h'.log)
    {
      assert k != id ==> h'.chans[k] == h.chans[k];
    }
  }

  lemma UnsubscribeKeeps(h: Hub, id: nat)
    requires HubInv(h)
    ensures HubInv(Unsubscribe(h, id))
  {
  }

  lemma DrainKeeps(h: Hub, id: nat)
    requires HubInv(h)
    ensures HubInv(Drain(h, id))
  {
  }

  /**
   * Closing ends every attached channel with all that it was given: closed once, nothing sent or
   * dropped; other channels are left as they are.
   */
  lemma CloseHubKeeps(h: Hub)
    requires HubInv(h)
    ensures HubInv(CloseHub(h)) && CloseHub(h).closed && CloseHub(h).subs == {}
    ensures CloseHub(h).chans.Keys == h.chans.Keys
    ensures forall id :: id in h.chans ==>
              CloseHub(h).chans[id] == if id in h.subs then h.chans[id].(closed := true) else h.chans[id]
  {
  }
}
