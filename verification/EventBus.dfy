/** The event bus of the supervisor: components subscribe, and events are sent to those who listen. */
module EventBus {
  import opened Subscriptions

  const MAX_SUBSCRIPTIONS := 128

  datatype Instance = Instance(permissions: set<string>, subscriptions: set<string>, connected: bool, ready: bool)

  /** An event was sent: to whom, with which permissions, about what. */
  datatype Delivery = Delivery(id: nat, permissions: set<string>, topic: string)

  predicate Listens(i: Instance, topic: string) {
    && (exists pattern :: pattern in i.subscriptions && Matches(pattern, topic)) && i.connected && i.ready
  }

  ghost predicate InstanceOk(i: Instance) {
    && |i.subscriptions| <= MAX_SUBSCRIPTIONS
    && forall pattern :: pattern in i.subscriptions ==> AllowsEvent(i.permissions, Subscribe, pattern)
  }

  class Bus {
    const network: (nat, nat) -> bool
    var tick: nat
    var instances: map<nat, Instance>
    ghost var delivered: seq<Delivery>
    ghost var published: seq<Delivery>

    /** Nobody was ever sent an event, or had one sent, without a grant that matches it. */
    ghost predicate Valid()
      reads this
    {
      && (forall id :: id in instances ==> InstanceOk(instances[id]))
      && (forall d :: d in delivered ==> Entitled(d.permissions, Subscribe, d.topic))
      && (forall d :: d in published ==> Entitled(d.permissions, Publish, d.topic))
    }

    constructor (network: (nat, nat) -> bool)
      ensures Valid() && instances == map[] && delivered == [] && published == []
    {
      this.network := network;
      tick, instances, delivered, published := 0, map[], [], [];
    }

    /** A component is started or restarted: it has no subscriptions yet. */
    method Join(id: nat, permissions: set<string>, connected: bool)
      requires Valid()
      modifies `instances
      ensures Valid() && instances == old(instances)[id := Instance(permissions, {}, connected, false)]
    {
      instances := instances[id := Instance(permissions, {}, connected, false)];
    }

    method Leave(id: nat)
      requires Valid()
      modifies `instances
      ensures Valid() && instances == old(instances) - {id}
    {
      instances := instances - {id};
    }

    method BecomeReady(id: nat)
      requires Valid() && id in instances
      modifies `instances
      ensures Valid() && instances == old(instances)[id := old(instances)[id].(ready := true)]
    {
      instances := instances[id := instances[id].(ready := true)];
    }

    /** A component asks for a subscription; it gets it exactly when it is well-formed, granted and there is room. */
    method SubscribeTo(id: nat, pattern: string) returns (ok: bool)
      requires Valid() && id in instances
      modifies `instances
      ensures Valid()
      ensures var i := old(instances)[id];
        ok <==>
          AllowsEvent(i.permissions, Subscribe, pattern) &&
            (pattern in i.subscriptions || |i.subscriptions| < MAX_SUBSCRIPTIONS)
      ensures instances ==
        if ok then
          old(instances)[id := old(instances)[id].(subscriptions := old(instances)[id].subscriptions + {pattern})]
        else old(instances)
    {
      hide AllowsEvent, Entitled;
      var i := instances[id];
      if !ValidSubscription(pattern) {
        AllowedIsValid(i.permissions, pattern);
        return false;
      }
      if !AllowsEvent(i.permissions, Subscribe, pattern) {
        return false;
      }
      if pattern !in i.subscriptions && |i.subscriptions| >= MAX_SUBSCRIPTIONS {
        return false;
      }
      assert pattern in i.subscriptions ==> i.subscriptions + {pattern} == i.subscriptions;
      instances := instances[id := i.(subscriptions := i.subscriptions + {pattern})];
      ok := true;
    }

    /** Those who are ready and connected, have a subscription that matches, and whose socket takes the event; `network`
        says so for each broadcast and component. */
    ghost function Receivers(topic: string, broadcast: nat): set<nat>
      reads this
    {
      set id | id in instances && instances[id].connected && instances[id].ready && network(broadcast, id) &&
        exists pattern :: pattern in instances[id].subscriptions && Matches(pattern, topic)
    }

    lemma ReceiversListen(topic: string, broadcast: nat)
      ensures Receivers(topic, broadcast) ==
              set id | id in instances && Listens(instances[id], topic) && network(broadcast, id)
    {
      hide Matches;
    }

    /** The new deliveries are those to the given components. */
    ghost predicate Reached(before: seq<Delivery>, receivers: set<nat>, topic: string)
      reads this
    {
      && receivers <= instances.Keys && before <= delivered
      && forall d :: d in delivered[|before|..] <==>
        d.id in receivers && d == Delivery(d.id, instances[d.id].permissions, topic)
    }

    /** Sends an event to everybody who listens and can be reached, and to nobody else. */
    method Broadcast(topic: string)
      requires Valid()
      modifies `tick, `delivered
      ensures Valid()
      ensures if ValidTopic(topic)
        then Reached(old(delivered), Receivers(topic, old(tick)), topic)
        else delivered == old(delivered)
    {
      hide AllowsEvent, Entitled, Listens, Receivers;
      if !ValidTopic(topic) {
        return;
      }
      var now := tick;
      tick := tick + 1;
      var left := instances.Keys;
      ghost var sent: set<nat> := {};
      assert delivered[|old(delivered)|..] == [];
      while left != {}
        invariant left <= instances.Keys && Valid() && Reached(old(delivered), sent, topic)
        invariant sent == set id | id in instances && id !in left && Listens(instances[id], topic) && network(now, id)
        decreases left
      {
        var id :| id in left;
        left := left - {id};
        if Listens(instances[id], topic) && network(now, id) {
          ListenerIsEntitled(instances[id], topic);
          ghost var d := Delivery(id, instances[id].permissions, topic);
          assert (delivered + [d])[|old(delivered)|..] == delivered[|old(delivered)|..] + [d];
          delivered := delivered + [d];
          sent := sent + {id};
        }
      }
      ReceiversListen(topic, now);
    }

    /** A component publishes an event: if it may, the event is broadcast. */
    method PublishEvent(id: nat, topic: string) returns (ok: bool)
      requires Valid() && id in instances
      modifies `tick, `delivered, `published
      ensures Valid()
      ensures ok <==> AllowsEvent(instances[id].permissions, Publish, topic)
      ensures !ok ==> delivered == old(delivered) && published == old(published)
      ensures ok ==>
        && published == old(published) + [Delivery(id, instances[id].permissions, topic)]
        && Reached(old(delivered), Receivers(topic, old(tick)), topic)
    {
      hide AllowsEvent, Entitled, Listens, InstanceOk, Receivers;
      if !ValidTopic(topic) {
        PublishedIsTopic(instances[id].permissions, topic);
        return false;
      }
      if !AllowsEvent(instances[id].permissions, Publish, topic) {
        return false;
      }
      TopicMatchesItself(topic);
      SubscriberIsEntitled(instances[id].permissions, Publish, topic, topic);
      published := published + [Delivery(id, instances[id].permissions, topic)];
      Broadcast(topic);
      ok := true;
    }
  }

  lemma AllowedIsValid(permissions: set<string>, pattern: string)
    ensures AllowsEvent(permissions, Subscribe, pattern) ==> ValidSubscription(pattern)
  {
  }

  lemma PublishedIsTopic(permissions: set<string>, topic: string)
    ensures AllowsEvent(permissions, Publish, topic) ==> ValidTopic(topic)
  {
  }

  lemma ListenerIsEntitled(i: Instance, topic: string)
    requires InstanceOk(i) && Listens(i, topic) && ValidTopic(topic)
    ensures Entitled(i.permissions, Subscribe, topic)
  {
    hide AllowsEvent, Entitled, Matches;
    var pattern :| pattern in i.subscriptions && Matches(pattern, topic);
    SubscriberIsEntitled(i.permissions, Subscribe, pattern, topic);
  }
}
