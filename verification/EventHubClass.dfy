/**
 * The hub as the Go program has it: an object updated in place under its mutex, with a loop
 * over the subscribers in no particular order. Each method is proved against EventHubSpec.
 */
module EventHubImpl {
  import opened Prelude
  import opened Protocol
  import opened EventHubSpec

  class EventHub {
    var chans: map<nat, Chan>
    var subs: set<nat>
    var states: seq<Event>
    var stderr: seq<Event>
    var exit: Option<Event>
    var closed: bool
    var log: seq<Event>

    ghost function View(): Hub
      reads this
    {
      Hub(chans, subs, states, stderr, exit, closed, log)
    }

    constructor ()
      ensures View() == NEW_HUB
    {
      chans, subs, states, stderr := map[], {}, [], [];
      exit, closed, log := None, false, [];
    }

    method Publish(ev: Event)
      requires HubInv(View()) && MayPublish(View(), ev)
      modifies this
      ensures View() == EventHubSpec.Publish(old(View()), ev)
      ensures HubInv(View())
    {
      PublishKeeps(View(), ev);
      if !closed {
        Append(ev);
        FanOut(ev);
      }
    }

    method Append(ev: Event)
      modifies this
      ensures View() == Record(old(View()), ev)
    {
      log := log + [ev];
      match ev {
        case StateEvent(_) =>
          states := states + [ev];
        case StderrEvent(_) =>
          stderr := stderr + [ev];
          if |stderr| > STDERR_RING_SIZE {
            stderr := stderr[|stderr| - STDERR_RING_SIZE..];
          }
        case ExitEvent(_) =>
          exit := Some(ev);
      }
    }

    method FanOut(ev: Event)
      requires subs <= chans.Keys
      modifies this`chans, this`subs
      ensures chans == map id | id in old(chans) ::
                if id in old(subs) then Offer(old(chans)[id], ev) else old(chans)[id]
      ensures subs == set id | id in old(subs) && !(id in old(chans) && CutOff(old(chans)[id], ev))
    {
      var todo := subs;
      while todo != {}
        invariant todo <= subs <= old(subs)
        invariant chans.Keys == old(chans).Keys
        invariant forall id | id in old(chans) ::
          chans[id] == if id in old(subs) && id !in todo then Offer(old(chans)[id], ev) else old(chans)[id]
        invariant forall id | id in old(subs) ::
          id in subs <==> id in todo || !CutOff(old(chans)[id], ev)
        decreases todo
      {
        var ch :| ch in todo;
        todo := todo - {ch};
        TrySend(ch, ev);
      }
    }

    /** A select with a default: the send happens if there is room. */
    method TrySend(ch: nat, ev: Event)
      requires ch in chans
      modifies this`chans, this`subs
      ensures chans == old(chans)[ch := Offer(old(chans)[ch], ev)]
      ensures subs == if CutOff(old(chans)[ch], ev) then old(subs) - {ch} else old(subs)
    {
      if chans[ch].closed || |chans[ch].buf| < SUB_BUFFER {
        chans := chans[ch := Send(chans[ch], ev)];
      } else if !ev.StderrEvent? {
        subs := subs - {ch};
        chans := chans[ch := CloseChan(chans[ch])];
      }
    }

    /** `id` is the identity of the channel that `make` returns. */
    method Subscribe(id: nat) returns (ch: nat)
      requires HubInv(View()) && FewStates(View()) && id !in chans
      modifies this
      ensures ch == id
      ensures View() == EventHubSpec.Subscribe(old(View()), id)
      ensures HubInv(View())
    {
      ghost var h := View();
      SubscribeKeeps(h, id);
      SnapshotLoads(h);
      var c := Replay();
      assert c == SendAll(NEW_CHAN, Snapshot(h));
      Register(id, c);
      ch := id;
    }

    method Register(id: nat, c: Chan)
      modifies this`chans, this`subs
      ensures chans == old(chans)[id := if closed then CloseChan(c) else c]
      ensures subs == if closed then old(subs) else old(subs) + {id}
    {
      if closed {
        chans := chans[id := CloseChan(c)];
      } else {
        chans := chans[id := c];
        subs := subs + {id};
      }
    }

    /** A new channel loaded with the snapshot; no send blocks. */
    method Replay() returns (c: Chan)
      requires |states| + |stderr| + 1 <= SUB_BUFFER
      ensures c == Chan(Snapshot(View()), Snapshot(View()), false, false)
    {
      c := NEW_CHAN;
      for i := 0 to |states|
        invariant c == Chan(states[..i], states[..i], false, false)
      {
        c := Send(c, states[i]);
      }
      for i := 0 to |stderr|
        invariant c == Chan(states + stderr[..i], states + stderr[..i], false, false)
      {
        c := Send(c, stderr[i]);
      }
      assert states + stderr[..|stderr|] == states + stderr;
      if exit.Some? {
        c := Send(c, exit.value);
      }
    }

    /** The cancel function of a subscription: idempotent, and it never closes the channel. */
    method Unsubscribe(ch: nat)
      requires HubInv(View())
      modifies this
      ensures View() == EventHubSpec.Unsubscribe(old(View()), ch)
      ensures HubInv(View())
    {
      UnsubscribeKeeps(View(), ch);
      subs := subs - {ch};
    }

    method Close()
      requires HubInv(View())
      modifies this
      ensures View() == CloseHub(old(View()))
      ensures HubInv(View()) && closed
    {
      CloseHubKeeps(View());
      if !closed {
        closed := true;
        CutAll();
      }
    }

    method CutAll()
      requires subs <= chans.Keys
      modifies this`chans, this`subs
      ensures chans == map id | id in old(chans) ::
                if id in old(subs) then CloseChan(old(chans)[id]) else old(chans)[id]
      ensures subs == {}
    {
      while subs != {}
        invariant subs <= old(subs) && chans.Keys == old(chans).Keys
        invariant forall id | id in old(chans) ::
          chans[id] == if id in old(subs) && id !in subs then CloseChan(old(chans)[id]) else old(chans)[id]
        decreases subs
      {
        var ch :| ch in subs;
        chans := chans[ch := CloseChan(chans[ch])];
        subs := subs - {ch};
      }
    }
  }
}
