/** The reconnecting client as an object that changes its record and its session in place. */
module ClientObject {
  import opened Results
  import opened Protocol
  import opened BrokerState
  import opened BrokerObject
  import Steps = BrokerSteps
  import BrokerInvariants
  import opened Reconnecting
  import opened Restoring

  /** One CLAIM exchange as the daemon serves it. */
  method ClaimCall(broker: Broker, peer: PeerId, claim: NamespaceClaim) returns (r: Result<(), ClientError>)
    modifies broker
    ensures (broker.View(), r) == ClaimCallStep(broker.config, old(broker.View()), peer, claim)
  {
    hide Steps.ClaimStep, Steps.Disconnect;
    if claim.headers != map[] {
      var _ := broker.Disconnect(peer);
      return Err(SessionClosed);
    }
    var answer := broker.Claim(peer, claim.namespace);
    r := if answer.Ok? then Ok(()) else Err(Refused(answer.error));
  }

  /** One SUBSCRIBE exchange. */
  method SubscribeCall(broker: Broker, peer: PeerId, sub: Subscription) returns (r: Result<(), ClientError>)
    modifies broker
    ensures (broker.View(), r) == SubscribeCallStep(broker.config, old(broker.View()), peer, sub)
  {
    hide Steps.SubscribeStep;
    var answer := broker.SubscribeWithFilters(peer, sub.channel, sub.filters);
    r := if answer.Ok? then Ok(()) else Err(Refused(answer.error));
  }

  /** Keeps the subscriptions to other channels, in order. */
  method Retain(subscriptions: seq<Subscription>, channel: Channel) returns (kept: seq<Subscription>)
    ensures kept == Without(subscriptions, channel)
    ensures forall x :: x in kept <==> x in subscriptions && x.channel != channel
  {
    kept := [];
    for i := 0 to |subscriptions|
      invariant kept == Without(subscriptions[..i], channel)
      invariant forall x :: x in kept <==> x in subscriptions[..i] && x.channel != channel
    {
      assert subscriptions[..i + 1][..i] == subscriptions[..i];
      if subscriptions[i].channel != channel {
        kept := kept + [subscriptions[i]];
      }
    }
    assert subscriptions[..|subscriptions|] == subscriptions;
  }

  /** Calls of other peers, one after another. */
  method PerformAll(broker: Broker, calls: seq<Steps.Call>)
    modifies broker
    ensures broker.View() == Among(broker.config, old(broker.View()), calls)
  {
    hide Steps.Apply;
    ghost var start := broker.View();
    for i := 0 to |calls|
      invariant broker.View() == Among(broker.config, start, calls[..i])
    {
      assert calls[..i + 1][..i] == calls[..i];
      var _ := broker.Perform(calls[i]);
    }
    assert calls[..|calls|] == calls;
  }

  /** Opens a session, with nothing on record yet. */
  method Connect(broker: Broker, who: Identity) returns (r: Result<ReconnectingBus, ClientError>)
    requires BrokerInvariants.Inv(broker.config, broker.View())
    modifies broker
    ensures var step := Steps.ConnectSession(broker.config, old(broker.View()), who.credentials, who.hello);
      && broker.View() == step.state
      && match r
         case Ok(bus) =>
           && step.result.Ok? && bus.Valid() && bus.broker == broker && bus.who == who && fresh(bus)
           && bus.View() == World(step.state, Client(step.result.value, [], []))
         case Err(e) => step.result.Err? && e == Refused(step.result.error)
  {
    hide Steps.ConnectSession, WorldOk, BrokerInvariants.Inv;
    ghost var start := broker.View();
    var answer := broker.ConnectSession(who.credentials, who.hello);
    if answer.Err? {
      return Err(Refused(answer.error));
    }
    FirstWorld(broker.config, who, start);
    var bus := new ReconnectingBus(broker, who, answer.value);
    r := Ok(bus);
  }

  class ReconnectingBus {
    const broker: Broker
    const who: Identity
    var peer: PeerId
    var claims: seq<NamespaceClaim>
    var subscriptions: seq<Subscription>

    function View(): World
      reads this, broker
    {
      World(broker.View(), Client(peer, claims, subscriptions))
    }

    /** The record was granted, and while the session lasts the broker holds exactly what is on record. */
    ghost predicate Valid()
      reads this, broker
    {
      WorldOk(broker.config, who, View())
    }

    /** A client for a session that has just been opened. */
    constructor (broker: Broker, who: Identity, peer: PeerId)
      ensures this.broker == broker && this.who == who
      ensures View() == World(broker.View(), Client(peer, [], []))
    {
      this.broker, this.who, this.peer := broker, who, peer;
      claims, subscriptions := [], [];
    }

    method Claim(claim: NamespaceClaim) returns (r: Result<(), ClientError>)
      requires Valid()
      modifies this, broker
      ensures (View(), r) == DoClaim(broker.config, old(View()), claim)
      ensures Valid()
    {
      hide ClaimCallStep, WorldOk;
      ClaimKeepsWorld(broker.config, who, View(), claim);
      r := ClaimCall(broker, peer, claim);
      if r.Ok? {
        claims := claims + [claim];
      }
    }

    method Subscribe(sub: Subscription) returns (r: Result<(), ClientError>)
      requires Valid()
      modifies this, broker
      ensures (View(), r) == DoSubscribe(broker.config, old(View()), sub)
      ensures Valid()
    {
      hide SubscribeCallStep, WorldOk;
      SubscribeKeepsWorld(broker.config, who, View(), sub);
      r := SubscribeCall(broker, peer, sub);
      if r.Ok? {
        subscriptions := subscriptions + [sub];
      }
    }

    method Unsubscribe(channel: Channel) returns (r: Result<(), ClientError>)
      requires Valid()
      modifies this, broker
      ensures (View(), r) == DoUnsubscribe(old(View()), channel)
      ensures Valid()
    {
      hide Steps.UnsubscribeStep, Without, WorldOk;
      UnsubscribeKeepsWorld(broker.config, who, View(), channel);
      var answer := broker.Unsubscribe(peer, channel);
      if answer.Err? {
        return Err(Refused(answer.error));
      }
      subscriptions := Retain(subscriptions, channel);
      r := Ok(());
    }

    /**
     Opens a new session, replays the record in order, and switches over only if
     all of it was granted; `others(i)` is what other peers do before call `i`.
     */
    method Reconnect(others: Interference) returns (r: Result<PeerId, ClientError>)
      requires Valid() && AllForeign(others, peer) && AllForeign(others, broker.nextPeer)
      modifies this, broker
      ensures (View(), r) == DoReconnect(broker.config, who, old(View()), others)
      ensures Valid()
    {
      hide Steps.ConnectSession, ReplayClaims, ReplaySubscriptions, WorldOk, AllForeign;
      ReconnectKeepsWorld(broker.config, who, View(), others);
      var connected := broker.ConnectSession(who.credentials, who.hello);
      if connected.Err? {
        return Err(Refused(connected.error));
      }
      var id := connected.value;
      var claimed := RestoreClaims(id, others);
      if claimed.Err? {
        return Err(claimed.error);
      }
      var subscribed := RestoreSubscriptions(id, others);
      if subscribed.Err? {
        return Err(subscribed.error);
      }
      peer := id;
      r := Ok(id);
    }

    method RestoreClaims(id: PeerId, others: Interference) returns (r: Result<(), ClientError>)
      modifies broker
      ensures (broker.View(), r) == ReplayClaims(broker.config, old(broker.View()), id, claims, others)
    {
      hide ClaimCallStep, Among;
      ghost var start := broker.View();
      r := Ok(());
      for i := 0 to |claims|
        invariant r.Ok? && (broker.View(), r) == ReplayClaims(broker.config, start, id, claims[..i], others)
      {
        assert claims[..i + 1][..i] == claims[..i];
        PerformAll(broker, others(i));
        r := ClaimCall(broker, id, claims[i]);
        if r.Err? {
          ClaimsStopAt(broker.config, start, id, claims, others, i);
          return;
        }
      }
      assert claims[..|claims|] == claims;
    }

    method RestoreSubscriptions(id: PeerId, others: Interference) returns (r: Result<(), ClientError>)
      modifies broker
      ensures (broker.View(), r)
           == ReplaySubscriptions(broker.config, old(broker.View()), id, subscriptions, |claims|, others)
    {
      hide SubscribeCallStep, Among;
      ghost var start := broker.View();
      r := Ok(());
      for i := 0 to |subscriptions|
        invariant r.Ok?
        invariant (broker.View(), r)
               == ReplaySubscriptions(broker.config, start, id, subscriptions[..i], |claims|, others)
      {
        assert subscriptions[..i + 1][..i] == subscriptions[..i];
        PerformAll(broker, others(|claims| + i));
        r := SubscribeCall(broker, id, subscriptions[i]);
        if r.Err? {
          SubscriptionsStopAt(broker.config, start, id, subscriptions, |claims|, others, i);
          return;
        }
      }
      assert subscriptions[..|subscriptions|] == subscriptions;
    }
  }

  /** After a refusal the rest is not replayed. */
  lemma {:induction false} ClaimsStopAt(c: Config, s: State, id: PeerId, claims: seq<NamespaceClaim>,
                                        others: Interference, i: nat)
    requires i < |claims| && ReplayClaims(c, s, id, claims[..i + 1], others).1.Err?
    ensures ReplayClaims(c, s, id, claims, others) == ReplayClaims(c, s, id, claims[..i + 1], others)
    decreases |claims|
  {
    hide ClaimCallStep, Among;
    if i + 1 == |claims| {
      assert claims[..i + 1] == claims;
    } else {
      var fewer := claims[..|claims| - 1];
      assert fewer[..i + 1] == claims[..i + 1];
      ClaimsStopAt(c, s, id, fewer, others, i);
    }
  }

  lemma {:induction false} SubscriptionsStopAt(c: Config, s: State, id: PeerId, subs: seq<Subscription>, from: nat,
                                               others: Interference, i: nat)
    requires i < |subs| && ReplaySubscriptions(c, s, id, subs[..i + 1], from, others).1.Err?
    ensures ReplaySubscriptions(c, s, id, subs, from, others) == ReplaySubscriptions(c, s, id, subs[..i + 1], from, others)
    decreases |subs|
  {
    hide SubscribeCallStep, Among;
    if i + 1 == |subs| {
      assert subs[..i + 1] == subs;
    } else {
      var fewer := subs[..|subs| - 1];
      assert fewer[..i + 1] == subs[..i + 1];
      SubscriptionsStopAt(c, s, id, fewer, from, others, i);
    }
  }
}
