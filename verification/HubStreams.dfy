/** What the events clients of a job are sent, over every run of the step system. */
module HubStreams {
  import opened Prelude
  import opened Protocol
  import opened EventHubSpec
  import opened HubHistory
  import opened System
  import opened SystemInv
  import opened SystemTheorems
  import ExitLast
  import SystemPuts

  /** The event that an action publishes. */
  function EventOf(s: Sys, a: Action): Option<Event> {
    match a
    case Stderr(line) => Some(StderrEvent(line))
    case RunA(StepPublish) =>
      if s.run.PubPreparing? then Some(StateEvent(Preparing))
      else if s.run.PubRunning? then Some(StateEvent(Running))
      else if s.run.PubDraining? then Some(StateEvent(Draining))
      else None
    case RunA(StepFinPublish) => if s.run.Finalizing? then Some(StateEvent(s.run.final)) else None
    case RunA(StepFinExit) => if s.run.Finalizing? then Some(ExitEvent(s.run.code)) else None
    case _ => None
  }

  /** What an action does to the hub. */
  function OpOf(s: Sys, a: Action): HubOp {
    if EventOf(s, a).Some? then Published(EventOf(s, a).value)
    else
      match a
      case ClientA(id, Attach) => Joined(id)
      case ClientA(id, Detach) => Quit(id)
      case ClientA(id, ReadOne) => Took(id)
      case RunA(StepCloseHub) => Shut
      case _ => Elsewhere
  }

  /** The operations on the hub in the course of a run; a new job has published PENDING. */
  function HubOps(cfg: Config, acts: seq<Action>): seq<HubOp>
    requires Exec(Init(cfg), acts).Some?
    decreases |acts|
  {
    if acts == [] then [Published(StateEvent(Pending))]
    else
      var p := acts[..|acts| - 1];
      HubOps(cfg, p) + [OpOf(Exec(Init(cfg), p).value, acts[|acts| - 1])]
  }

  // ---- every action is such an operation ----

  lemma RunIsOp(s: Sys, a: RunAct)
    requires RunStep(s, a).Some?
    ensures RunStep(s, a).value.hub == Apply(s.hub, OpOf(s, RunA(a)))
  {
    if a.StepPublish? {
      PublishMoves(s);
    } else if a.StepFinPublish? || a.StepFinExit? || a.StepCloseHub? {
      FinalHub(s, a);
    } else {
      RunNoHub(s, a);
    }
  }

  lemma ClientIsOp(s: Sys, id: nat, a: ClientAct)
    requires ClientStep(s, id, a).Some?
    ensures ClientStep(s, id, a).value.hub == Apply(s.hub, OpOf(s, ClientA(id, a)))
    ensures a.Attach? ==> id !in s.hub.chans
  {
  }

  lemma StepIsOp(s: Sys, a: Action)
    requires Next(s, a).Some?
    ensures Next(s, a).value.hub == Apply(s.hub, OpOf(s, a))
  {
    if a.RunA? {
      RunIsOp(s, a.r);
    } else if a.ClientA? {
      ClientIsOp(s, a.client, a.c);
    } else if a.Stderr? {
      StderrNext(s, a.line);
    } else {
      ExitLast.HubUntouched(s, a);
    }
  }

  lemma HubNext(ops: seq<HubOp>, op: HubOp)
    ensures HubAfter(ops + [op]) == Apply(HubAfter(ops), op)
  {
    assert (ops + [op])[..|ops|] == ops;
  }

  lemma {:induction false} HubIsOps(cfg: Config, acts: seq<Action>)
    requires Exec(Init(cfg), acts).Some?
    ensures Exec(Init(cfg), acts).value.hub == HubAfter(HubOps(cfg, acts))
    decreases |acts|
  {
    if acts == [] {
      HubNext([], Published(StateEvent(Pending)));
      assert [] + [Published(StateEvent(Pending))] == HubOps(cfg, acts);
    } else {
      var p, a := acts[..|acts| - 1], acts[|acts| - 1];
      HubIsOps(cfg, p);
      StepIsOp(Exec(Init(cfg), p).value, a);
      HubNext(HubOps(cfg, p), OpOf(Exec(Init(cfg), p).value, a));
    }
  }

  /** The worker's handlers and its run goroutine use the hub in an orderly way. */
  lemma {:induction false} RunIsOrderly(cfg: Config, acts: seq<Action>)
    requires Exec(Init(cfg), acts).Some?
    ensures Orderly(HubOps(cfg, acts))
    decreases |acts|
  {
    if acts == [] {
      FirstOrderly(StateEvent(Pending));
    } else {
      var p, a := acts[..|acts| - 1], acts[|acts| - 1];
      RunIsOrderly(cfg, p);
      NextIsOrderly(cfg, p, a, Exec(Init(cfg), p).value);
    }
  }

  lemma FirstOrderly(ev: Event)
    ensures Orderly([Published(ev)])
  {
    assert [Published(ev)][..0] == [];
  }

  lemma NextIsOrderly(cfg: Config, p: seq<Action>, a: Action, s: Sys)
    requires Exec(Init(cfg), p) == Some(s) && Next(s, a).Some? && Orderly(HubOps(cfg, p))
    ensures Orderly(HubOps(cfg, p) + [OpOf(s, a)])
  {
    var ops := HubOps(cfg, p);
    assert (ops + [OpOf(s, a)])[..|ops|] == ops;
    if OpOf(s, a).Joined? {
      ClientIsOp(s, a.client, a.c);
      HubIsOps(cfg, p);
      StreamsAreFollowed(ops, a.client);
      HubRemembers(ops);
      RunStage(cfg, p);
      ExitLast.StageFew(s);
    }
  }

  /**
   * Hub delivery, over every run: a client has a channel if and only if it has attached; what its
   * channel was sent, what is still unread, whether it is closed and whether it is attached are those
   * of the stream that the run's operations give it.
   */
  lemma ClientStream(cfg: Config, acts: seq<Action>, id: nat)
    requires Exec(Init(cfg), acts).Some?
    ensures
      var h, l := Exec(Init(cfg), acts).value.hub, Follow(HubOps(cfg, acts), id);
      && (id in h.chans <==> !l.stage.Unknown?)
      && (id in h.subs <==> l.stage.Attached?)
      && l.unread <= |l.sent| && l.unread <= 1024
      && (id in h.chans ==>
            && h.chans[id].sent == l.sent && h.chans[id].buf == l.sent[|l.sent| - l.unread..]
            && (h.chans[id].closed <==> l.stage.Overrun? || l.stage.Ended?))
  {
    RunLinked(cfg, acts, id);
    LinkedMeans(Exec(Init(cfg), acts).value.hub, id, Follow(HubOps(cfg, acts), id));
  }

  lemma RunLinked(cfg: Config, acts: seq<Action>, id: nat)
    requires Exec(Init(cfg), acts).Some?
    ensures Linked(Exec(Init(cfg), acts).value.hub, id, Follow(HubOps(cfg, acts), id))
  {
    HubIsOps(cfg, acts);
    RunIsOrderly(cfg, acts);
    StreamsAreFollowed(HubOps(cfg, acts), id);
  }

  lemma LinkedMeans(h: Hub, id: nat, l: Link)
    requires Linked(h, id, l)
    ensures (id in h.chans <==> !l.stage.Unknown?) && (id in h.subs <==> l.stage.Attached?)
    ensures l.unread <= |l.sent| && l.unread <= 1024
    ensures id in h.chans ==>
              && h.chans[id].sent == l.sent && h.chans[id].buf == l.sent[|l.sent| - l.unread..]
              && (h.chans[id].closed <==> l.stage.Overrun? || l.stage.Ended?)
  {
  }

  // ---- what the client can tell ----

  /** The channel `id` has a subscriber attached and room for one more event. */
  predicate Room(h: Hub, id: nat) {
    id in h.subs && id in h.chans && |h.chans[id].buf| < 1024
  }

  predicate Full(h: Hub, id: nat) {
    id in h.subs && id in h.chans && |h.chans[id].buf| == 1024
  }

  /** The events published in the course of `acts` from `s` that met channel `id` attached and with room. */
  function MetWithRoom(s: Sys, acts: seq<Action>, id: nat): seq<Event>
    requires Exec(s, acts).Some?
    decreases |acts|
  {
    if acts == [] then []
    else
      var p, a := acts[..|acts| - 1], acts[|acts| - 1];
      var b := Exec(s, p).value;
      MetWithRoom(s, p, id) + (if EventOf(b, a).Some? && Room(b.hub, id) then [EventOf(b, a).value] else [])
  }

  /** In the course of the run a state or exit event met the attached channel `id` with its 1024 slots full. */
  predicate MetFull(cfg: Config, acts: seq<Action>, id: nat)
    requires Exec(Init(cfg), acts).Some?
    decreases |acts|
  {
    if acts == [] then false
    else
      var p, a := acts[..|acts| - 1], acts[|acts| - 1];
      var b := Exec(Init(cfg), p).value;
      || MetFull(cfg, p, id)
      || (EventOf(b, a).Some? && !EventOf(b, a).value.StderrEvent? && Full(b.hub, id))
  }

  /** One more operation, for a client that has joined. */
  lemma FollowOne(ops: seq<HubOp>, op: HubOp, id: nat)
    requires Orderly(ops + [op]) && !Follow(ops, id).stage.Unknown? && Follow(ops, id).unread <= 1024
    ensures
      var l, l' := Follow(ops, id), Follow(ops + [op], id);
      && l'.sent == l.sent + (if op.Published? && l.stage.Attached? && l.unread < 1024 then [op.ev] else [])
      && (l'.stage.Attached? <==>
            && l.stage.Attached? && op != Shut && op != Quit(id)
            && !(op.Published? && !op.ev.StderrEvent? && l.unread == 1024))
      && (l'.stage.Overrun? <==>
            l.stage.Overrun? || (l.stage.Attached? && op.Published? && !op.ev.StderrEvent? && l.unread == 1024))
      && !l'.stage.Unknown?
  {
    assert (ops + [op])[..|ops|] == ops;
    assert Follow(ops, id).sent + [] == Follow(ops, id).sent;
  }

  /** What the operation says of the action. */
  lemma OpMeans(s: Sys, a: Action, id: nat)
    ensures OpOf(s, a).Published? <==> EventOf(s, a).Some?
    ensures OpOf(s, a).Published? ==> OpOf(s, a).ev == EventOf(s, a).value
    ensures OpOf(s, a) == Shut <==> a == RunA(StepCloseHub)
    ensures OpOf(s, a) == Quit(id) <==> a == ClientA(id, Detach)
    ensures OpOf(s, a) == HubOp.Joined(id) <==> a == ClientA(id, Attach)
  {
  }

  /** One more action at the end of a run, as an operation on the stream. */
  lemma StepLinked(cfg: Config, p: seq<Action>, s: Sys, a: Action, s': Sys, id: nat)
    requires Exec(Init(cfg), p) == Some(s) && Next(s, a) == Some(s')
    ensures
      var ops, op := HubOps(cfg, p), OpOf(s, a);
      && Orderly(ops + [op])
      && Linked(s.hub, id, Follow(ops, id)) && Linked(s'.hub, id, Follow(ops + [op], id))
  {
    var ops, op := HubOps(cfg, p), OpOf(s, a);
    HubIsOps(cfg, p);
    RunIsOrderly(cfg, p);
    NextIsOrderly(cfg, p, a, s);
    StreamsAreFollowed(ops, id);
    HubRemembers(ops);
    StepIsOp(s, a);
    LinkStep(s.hub, ops, op, ops + [op], id);
  }

  lemma LinkedStep(h: Hub, h': Hub, ops: seq<HubOp>, op: HubOp, id: nat)
    requires Orderly(ops + [op]) && id in h.chans
    requires Linked(h, id, Follow(ops, id)) && Linked(h', id, Follow(ops + [op], id))
    ensures
      && id in h'.chans
      && h'.chans[id].sent == h.chans[id].sent + (if op.Published? && Room(h, id) then [op.ev] else [])
      && (id in h'.subs <==>
            && id in h.subs && op != Shut && op != Quit(id)
            && !(op.Published? && !op.ev.StderrEvent? && Full(h, id)))
  {
    FollowOne(ops, op, id);
  }

  /** What one more action does to a channel. */
  ghost predicate ChannelMoves(s: Sys, a: Action, s': Sys, id: nat)
    requires id in s.hub.chans
  {
    var ev := EventOf(s, a);
    && id in s'.hub.chans
    && s'.hub.chans[id].sent == s.hub.chans[id].sent + (if ev.Some? && Room(s.hub, id) then [ev.value] else [])
    && (id in s'.hub.subs <==>
          && id in s.hub.subs && a != RunA(StepCloseHub) && a != ClientA(id, Detach)
          && !(ev.Some? && !ev.value.StderrEvent? && Full(s.hub, id)))
  }

  lemma ChannelStep(cfg: Config, p: seq<Action>, s: Sys, a: Action, s': Sys, id: nat)
    requires Exec(Init(cfg), p) == Some(s) && Next(s, a) == Some(s') && id in s.hub.chans
    ensures ChannelMoves(s, a, s', id)
  {
    StepLinked(cfg, p, s, a, s', id);
    LinkedStep(s.hub, s'.hub, HubOps(cfg, p), OpOf(s, a), id);
    OpMeans(s, a, id);
  }

  /** The first thing in a new channel is the catch-up on all that the hub has accepted. */
  lemma AttachSends(cfg: Config, p: seq<Action>, s: Sys, id: nat, s': Sys)
    requires Exec(Init(cfg), p) == Some(s) && ClientStep(s, id, Attach) == Some(s')
    ensures id !in s.hub.chans && id in s'.hub.chans && s'.hub.chans[id].sent == CatchUp(s.hub.log)
    ensures id in s'.hub.subs <==> !s.hub.closed
  {
    HubIsOps(cfg, p);
    HubRemembers(HubOps(cfg, p));
    RunStage(cfg, p);
    ExitLast.StageFew(s);
    SnapshotIsCatchUp(s.hub, s.hub.log);
  }

  /**
   * What a client is sent, over every run in which it attaches: first the catch-up (all states, the
   * last 200 lines of stderr, the exit if there is one), then exactly those later events that met its
   * channel attached and with room, in order.
   */
  lemma {:induction false} SentExactly(cfg: Config, pre: seq<Action>, id: nat, post: seq<Action>)
    requires Exec(Init(cfg), pre).Some? && Exec(Init(cfg), pre + [ClientA(id, Attach)]).Some?
    requires Exec(Exec(Init(cfg), pre + [ClientA(id, Attach)]).value, post).Some?
    ensures
      var s, s1 := Exec(Init(cfg), pre).value, Exec(Init(cfg), pre + [ClientA(id, Attach)]).value;
      var h := Exec(s1, post).value.hub;
      id in h.chans && h.chans[id].sent == CatchUp(s.hub.log) + MetWithRoom(s1, post, id)
    decreases |post|
  {
    var mid := pre + [ClientA(id, Attach)];
    var s1 := Exec(Init(cfg), mid).value;
    if post == [] {
      assert mid[..|mid| - 1] == pre;
      AttachSends(cfg, pre, Exec(Init(cfg), pre).value, id, s1);
    } else {
      var p := post[..|post| - 1];
      SentExactly(cfg, pre, id, p);
      SystemPuts.Joined(Init(cfg), mid, s1, p, Exec(s1, p).value);
      ChannelStep(cfg, mid + p, Exec(s1, p).value, post[|post| - 1], Exec(s1, post).value, id);
    }
  }

  /** Every client has a channel. */
  lemma {:induction false} ClientsHaveChannels(cfg: Config, acts: seq<Action>, id: nat)
    requires Exec(Init(cfg), acts).Some? && id in Exec(Init(cfg), acts).value.clients
    ensures id in Exec(Init(cfg), acts).value.hub.chans
    decreases |acts|
  {
    if acts != [] {
      var p, a := acts[..|acts| - 1], acts[|acts| - 1];
      var b := Exec(Init(cfg), p).value;
      if id in b.clients {
        ClientsHaveChannels(cfg, p, id);
        ChannelStep(cfg, p, b, a, Exec(Init(cfg), acts).value, id);
      } else {
        NewClient(b, a, id);
        AttachSends(cfg, p, b, id, Exec(Init(cfg), acts).value);
      }
    }
  }

  lemma NewClient(s: Sys, a: Action, id: nat)
    requires Next(s, a).Some? && id !in s.clients && id in Next(s, a).value.clients
    ensures a == ClientA(id, Attach)
  {
    match a
    case RunA(r) => RunClients(s, r);
    case WatchA(w) => WatchTouches(s, w);
    case UploadA(w, u) => UploadTouches(s, w, u);
    case ClientA(k, c) => OwnClient(s, k, c, id);
    case _ => OtherClients(s, a);
  }

  lemma OwnClient(s: Sys, k: nat, c: ClientAct, id: nat)
    requires ClientStep(s, k, c).Some? && id !in s.clients && id in ClientStep(s, k, c).value.clients
    ensures k == id && c == Attach
  {
  }

  lemma RunClients(s: Sys, r: RunAct)
    requires RunStep(s, r).Some?
    ensures RunStep(s, r).value.clients == s.clients
  {
    if !r.PushersOk? {
      RunTouches(s, r);
    }
  }

  lemma OtherClients(s: Sys, a: Action)
    requires Next(s, a).Some? && Outside(a) && !a.ClientA?
    ensures Next(s, a).value.clients == s.clients
  {
    match a
    case CreateFile(n) => FileTouches(s, n, []);
    case CompleteFile(n, data) => FileTouches(s, n, data);
    case GateA(id, g) => GateTouches(s, id, g);
    case MonTick => MonTouches(s, a);
    case MonCancel => MonTouches(s, a);
    case MonStop => MonTouches(s, a);
    case Forget => ReapTouches(s, a);
    case RemoveForgotten => ReapTouches(s, a);
    case _ =>
  }

  /** A client that detaches has a channel by then. */
  lemma DetachHasChannel(cfg: Config, p: seq<Action>, s: Sys, id: nat)
    requires Exec(Init(cfg), p) == Some(s) && ClientStep(s, id, Detach).Some?
    ensures id in s.hub.chans
  {
    ClientsHaveChannels(cfg, p, id);
  }

  lemma {:induction false} ClosedByStep(cfg: Config, acts: seq<Action>)
    requires Exec(Init(cfg), acts).Some?
    ensures Exec(Init(cfg), acts).value.hub.closed <==> RunA(StepCloseHub) in acts
    decreases |acts|
  {
    if acts != [] {
      var p, a := acts[..|acts| - 1], acts[|acts| - 1];
      ClosedByStep(cfg, p);
      StepCloses(Exec(Init(cfg), p).value, a);
      LastIn(acts, RunA(StepCloseHub));
    }
  }

  lemma LastIn(acts: seq<Action>, a: Action)
    requires acts != []
    ensures a in acts <==> a in acts[..|acts| - 1] || acts[|acts| - 1] == a
  {
    assert acts == acts[..|acts| - 1] + [acts[|acts| - 1]];
  }

  lemma StepCloses(s: Sys, a: Action)
    requires Next(s, a).Some?
    ensures Next(s, a).value.hub.closed <==> s.hub.closed || a == RunA(StepCloseHub)
  {
    StepIsOp(s, a);
    OpMeans(s, a, 0);
    ClosesHub(s.hub, OpOf(s, a));
  }

  lemma ClosesHub(h: Hub, op: HubOp)
    ensures Apply(h, op).closed <==> h.closed || op.Shut?
  {
  }

  /** A channel comes from its client's attaching, and is there for good. */
  lemma NewChannel(cfg: Config, p: seq<Action>, s: Sys, a: Action, s': Sys, id: nat)
    requires Exec(Init(cfg), p) == Some(s) && Next(s, a) == Some(s')
    requires id !in s.hub.chans && id in s'.hub.chans
    ensures a == ClientA(id, Attach)
  {
    StepLinked(cfg, p, s, a, s', id);
    StillUnknown(HubOps(cfg, p), OpOf(s, a), id);
    OpMeans(s, a, id);
  }

  lemma StillUnknown(ops: seq<HubOp>, op: HubOp, id: nat)
    requires Follow(ops, id).stage.Unknown? && !Follow(ops + [op], id).stage.Unknown?
    ensures op == HubOp.Joined(id)
  {
    assert (ops + [op])[..|ops|] == ops;
  }

  /** A client that has not attached has neither left nor been cut off. */
  lemma {:induction false} NotBefore(cfg: Config, acts: seq<Action>, id: nat)
    requires Exec(Init(cfg), acts).Some? && id !in Exec(Init(cfg), acts).value.hub.chans
    ensures ClientA(id, Detach) !in acts && !MetFull(cfg, acts, id)
    decreases |acts|
  {
    if acts != [] {
      var p, a := acts[..|acts| - 1], acts[|acts| - 1];
      var b := Exec(Init(cfg), p).value;
      if id in b.hub.chans {
        ChannelStep(cfg, p, b, a, Exec(Init(cfg), acts).value, id);
      } else {
        NotBefore(cfg, p, id);
        LastIn(acts, ClientA(id, Detach));
        if a == ClientA(id, Detach) {
          DetachHasChannel(cfg, p, b, id);
        }
      }
    }
  }

  /**
   * Who is not attached any more, over every run: a client with a channel has lost its subscription if
   * and only if it detached, the hub was closed, or a state or exit event met its channel attached with
   * 1024 events unread. No other event, and no slowness short of that, costs it the stream.
   */
  lemma {:induction false} LeavesExactly(cfg: Config, acts: seq<Action>, id: nat)
    requires Exec(Init(cfg), acts).Some? && id in Exec(Init(cfg), acts).value.hub.chans
    ensures id !in Exec(Init(cfg), acts).value.hub.subs
      <==> ClientA(id, Detach) in acts || RunA(StepCloseHub) in acts || MetFull(cfg, acts, id)
    decreases |acts|
  {
    if acts != [] {
      var p, a := acts[..|acts| - 1], acts[|acts| - 1];
      var b, s := Exec(Init(cfg), p).value, Exec(Init(cfg), acts).value;
      LastIn(acts, ClientA(id, Detach));
      LastIn(acts, RunA(StepCloseHub));
      if id in b.hub.chans {
        LeavesExactly(cfg, p, id);
        ChannelStep(cfg, p, b, a, s, id);
      } else {
        NewChannel(cfg, p, b, a, s, id);
        AttachSends(cfg, p, b, id, s);
        NotBefore(cfg, p, id);
        ClosedByStep(cfg, p);
      }
    }
  }
}
