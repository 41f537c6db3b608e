/**
 * The consuming end: `subscribe` shares one wire subscription among all callers with the same
 * key. `out` records what was posted, `received` and `got` what arrived.
 */
module TransportConsumer {
  import opened Common
  import opened TransportProducer

  datatype Up = Start(id: nat, key: Key) | Stop(id: nat)

  /** A caller's callback, what had been received when it joined, and what it has been called with since. */
  datatype Listener = Listener(callback: nat, since: nat, got: seq<Value>)

  /** After an interrupt the entry stays until it is unsubscribed, but nothing reaches it. */
  datatype Sub = Sub(id: nat, listeners: seq<Listener>, interrupted: bool, received: seq<Value>)

  datatype Consumer = Consumer(subs: map<Key, Sub>, nextId: nat, out: seq<Up>)

  function Subscribe(c: Consumer, key: Key, callback: nat): Consumer {
    if key in c.subs then
      var sub := c.subs[key];
      c.(subs := c.subs[key := sub.(listeners := sub.listeners + [Listener(callback, |sub.received|, [])])])
    else
      var sub := Sub(c.nextId, [Listener(callback, 0, [])], false, []);
      Consumer(c.subs[key := sub], c.nextId + 1, c.out + [Start(c.nextId, key)])
  }

  /** Listeners are removed by the identity of their callback. */
  function Without(listeners: seq<Listener>, callback: nat): seq<Listener> {
    if listeners == [] then []
    else
      Without(listeners[..|listeners| - 1], callback) +
      if listeners[|listeners| - 1].callback != callback then [listeners[|listeners| - 1]] else []
  }

  function Unsubscribe(c: Consumer, key: Key, callback: nat): Consumer {
    if key !in c.subs then c
    else
      var sub := c.subs[key];
      var remaining := Without(sub.listeners, callback);
      if remaining == [] then c.(subs := c.subs - {key}, out := c.out + [Stop(sub.id)])
      else c.(subs := c.subs[key := sub.(listeners := remaining)])
  }

  function Called(listeners: seq<Listener>, v: Value): seq<Listener> {
    seq(|listeners|, i requires 0 <= i < |listeners| => listeners[i].(got := listeners[i].got + [v]))
  }

  /** A wire subscription sees only messages under its id, until it is interrupted. */
  function Handle(sub: Sub, m: Down): Sub {
    if sub.id != m.id || sub.interrupted then sub
    else
      match m
      case Receive(_, v) => sub.(listeners := Called(sub.listeners, v), received := sub.received + [v])
      case Interrupted(_) => sub.(interrupted := true)
  }

  function OnMessage(c: Consumer, m: Down): Consumer {
    c.(subs := map key <- c.subs :: Handle(c.subs[key], m))
  }

  // -- What the consumer keeps --------------------------------------------------------------

  ghost predicate Active(c: Consumer, id: nat) { exists key :: key in c.subs && c.subs[key].id == id }

  ghost predicate Opened(out: seq<Up>, id: nat) { exists i :: 0 <= i < |out| && out[i].Start? && out[i].id == id }

  /** Each id is started once, and stopped at most once, later. */
  ghost predicate Ordered(out: seq<Up>) {
    forall i, j :: 0 <= i < j < |out| && out[i].id == out[j].id ==> out[i].Start? && out[j].Stop?
  }

  /** A listener has been called with exactly what arrived since it joined. */
  ghost predicate Served(sub: Sub) {
    && sub.listeners != []
    && forall i :: 0 <= i < |sub.listeners| ==>
         sub.listeners[i].since <= |sub.received| && sub.listeners[i].got == sub.received[sub.listeners[i].since..]
  }

  /** Ids are never shared, each was announced by one start, and an id is active until its stop is posted. */
  ghost predicate Shared(c: Consumer) {
    && (forall key <- c.subs :: Served(c.subs[key]) && c.subs[key].id < c.nextId)
    && (forall k1, k2 :: k1 in c.subs && k2 in c.subs && k1 != k2 ==> c.subs[k1].id != c.subs[k2].id)
    && (forall key <- c.subs :: Start(c.subs[key].id, key) in c.out)
    && Ordered(c.out)
    && (forall i :: 0 <= i < |c.out| ==> c.out[i].id < c.nextId)
    && (forall id: nat | id < c.nextId :: Opened(c.out, id) && (Active(c, id) <==> Stop(id) !in c.out))
  }

  lemma OpenedAppend(out: seq<Up>, m: Up, id: nat)
    ensures Opened(out + [m], id) <==> Opened(out, id) || (m.Start? && m.id == id)
  {
    if Opened(out, id) {
      var i :| 0 <= i < |out| && out[i].Start? && out[i].id == id;
      assert (out + [m])[i] == out[i];
    }
    if m.Start? && m.id == id {
      assert (out + [m])[|out|] == m;
    }
  }

  lemma SubscribeShared(c: Consumer, key: Key, callback: nat)
    requires Shared(c)
    ensures Shared(Subscribe(c, key, callback))
  {
    if key in c.subs {
      JoinShared(c, key, callback);
    } else {
      OpenShared(c, key, callback);
    }
  }

  lemma JoinShared(c: Consumer, key: Key, callback: nat)
    requires Shared(c) && key in c.subs
    ensures Shared(Subscribe(c, key, callback))
  {
    var c' := Subscribe(c, key, callback);
    assert Served(c'.subs[key]) by {
      assert Served(c.subs[key]);
    }
    hide Served;
    forall id ensures Active(c, id) <==> Active(c', id) {
      SameIdsSameActive(c, c', id);
    }
  }

  lemma OpenShared(c: Consumer, key: Key, callback: nat)
    requires Shared(c) && key !in c.subs
    ensures Shared(Subscribe(c, key, callback))
  {
    var c' := Subscribe(c, key, callback);
    assert Served(c'.subs[key]);
    hide Served;
    forall id: nat | id < c'.nextId
      ensures Opened(c'.out, id) && (Active(c', id) <==> Stop(id) !in c'.out)
    {
      OpenedAppend(c.out, Start(c.nextId, key), id);
      OpenActive(c, c', key, id);
    }
  }

  lemma OpenActive(c: Consumer, c': Consumer, key: Key, id: nat)
    requires key !in c.subs && c'.subs.Keys == c.subs.Keys + {key}
    requires forall k <- c.subs :: c'.subs[k] == c.subs[k]
    ensures Active(c', id) <==> Active(c, id) || c'.subs[key].id == id
  {
    if Active(c, id) {
      var k :| k in c.subs && c.subs[k].id == id;
      assert c'.subs[k].id == id;
    }
    if c'.subs[key].id == id {
      assert Active(c', id);
    }
  }

  lemma SameIdsSameActive(c: Consumer, c': Consumer, id: nat)
    requires c.subs.Keys == c'.subs.Keys && forall key <- c.subs :: c.subs[key].id == c'.subs[key].id
    ensures Active(c, id) <==> Active(c', id)
  {
  }

  lemma {:induction false} WithoutKeeps(listeners: seq<Listener>, callback: nat)
    ensures forall l <- Without(listeners, callback) :: l in listeners && l.callback != callback
    ensures forall l <- listeners | l.callback != callback :: l in Without(listeners, callback)
  {
    if listeners != [] {
      WithoutKeeps(listeners[..|listeners| - 1], callback);
      assert listeners == listeners[..|listeners| - 1] + [listeners[|listeners| - 1]];
    }
  }

  lemma UnsubscribeShared(c: Consumer, key: Key, callback: nat)
    requires Shared(c)
    ensures Shared(Unsubscribe(c, key, callback))
  {
    if key in c.subs {
      var c' := Unsubscribe(c, key, callback);
      var sub := c.subs[key];
      WithoutKeeps(sub.listeners, callback);
      if Without(sub.listeners, callback) == [] {
        DroppedShared(c, key);
      } else {
        assert Served(c'.subs[key]);
        forall id ensures Active(c, id) <==> Active(c', id) {
          SameIdsSameActive(c, c', id);
        }
      }
    }
  }

  lemma DroppedShared(c: Consumer, key: Key)
    requires Shared(c) && key in c.subs
    ensures Shared(c.(subs := c.subs - {key}, out := c.out + [Stop(c.subs[key].id)]))
  {
    var gone := c.subs[key].id;
    var c' := c.(subs := c.subs - {key}, out := c.out + [Stop(gone)]);
    assert Active(c, gone);
    assert Ordered(c'.out) by {
      forall i, j | 0 <= i < j < |c'.out| && c'.out[i].id == c'.out[j].id ensures c'.out[i].Start? && c'.out[j].Stop? {
        if j == |c.out| {
          assert c.out[i] in c.out;
        }
      }
    }
    forall id: nat | id < c'.nextId ensures Opened(c'.out, id) && (Active(c', id) <==> Stop(id) !in c'.out) {
      OpenedAppend(c.out, Stop(gone), id);
      if id != gone && Active(c, id) {
        var k :| k in c.subs && c.subs[k].id == id;
        assert k in c'.subs;
      }
    }
  }

  lemma HandleServed(sub: Sub, m: Down)
    requires Served(sub)
    ensures Served(Handle(sub, m)) && Handle(sub, m).id == sub.id
  {
  }

  lemma OnMessageShared(c: Consumer, m: Down)
    requires Shared(c)
    ensures Shared(OnMessage(c, m))
  {
    var c' := OnMessage(c, m);
    forall key | key in c.subs ensures Served(c'.subs[key]) && c'.subs[key].id == c.subs[key].id {
      HandleServed(c.subs[key], m);
    }
    forall id ensures Active(c, id) <==> Active(c', id) {
      SameIdsSameActive(c, c', id);
    }
  }

  // -- The consuming transport as an object ------------------------------------------------------

  class SubscriptionTable {
    var activeSubscriptions: map<Key, Sub>
    var nextId: nat
    var out: seq<Up>

    ghost function Value(): Consumer
      reads this
    {
      Consumer(activeSubscriptions, nextId, out)
    }

    constructor ()
      ensures Value() == Consumer(map[], 0, [])
    {
      activeSubscriptions, nextId, out := map[], 0, [];
    }

    /** Callers with the same key observe the same subscription id. */
    method AddListener(key: Key, callback: nat) returns (subscriptionId: nat)
      modifies this
      ensures Value() == Subscribe(old(Value()), key, callback)
      ensures key in activeSubscriptions && activeSubscriptions[key].id == subscriptionId
      ensures key in old(activeSubscriptions) ==> subscriptionId == old(activeSubscriptions[key].id)
    {
      if key in activeSubscriptions {
        var sub := activeSubscriptions[key];
        subscriptionId := sub.id;
        activeSubscriptions := activeSubscriptions[
          key := sub.(listeners := sub.listeners + [Listener(callback, |sub.received|, [])])];
      } else {
        subscriptionId := nextId;
        nextId := nextId + 1;
        activeSubscriptions := activeSubscriptions[
          key := Sub(subscriptionId, [Listener(callback, 0, [])], false, [])];
        out := out + [Start(subscriptionId, key)];
      }
    }

    method RemoveListener(key: Key, callback: nat)
      modifies this
      ensures Value() == Unsubscribe(old(Value()), key, callback)
    {
      if key in activeSubscriptions {
        var sub := activeSubscriptions[key];
        var remaining: seq<Listener> := [];
        for i := 0 to |sub.listeners|
          invariant remaining == Without(sub.listeners[..i], callback)
        {
          assert sub.listeners[..i + 1][..i] == sub.listeners[..i];
          if sub.listeners[i].callback != callback {
            remaining := remaining + [sub.listeners[i]];
          }
        }
        assert sub.listeners[..|sub.listeners|] == sub.listeners;
        if |remaining| == 0 {
          activeSubscriptions := activeSubscriptions - {key};
          out := out + [Stop(sub.id)];
        } else {
          activeSubscriptions := activeSubscriptions[key := sub.(listeners := remaining)];
        }
      }
    }

    /** The provider hands a message to every listening subscription; each compares the id. */
    method Dispatch(m: Down)
      modifies this
      ensures Value() == OnMessage(old(Value()), m)
    {
      var before := activeSubscriptions;
      var rest := before.Keys;
      while rest != {}
        invariant rest <= before.Keys
        invariant nextId == old(nextId) && out == old(out)
        invariant activeSubscriptions ==
          map key <- before :: if key in rest then before[key] else Handle(before[key], m)
        decreases rest
      {
        var key :| key in rest;
        rest := rest - {key};
        var sub := before[key];
        if sub.id == m.id && !sub.interrupted {
          match m {
            case Receive(_, v) =>
              var listeners := sub.listeners;
              for i := 0 to |listeners|
                invariant |listeners| == |sub.listeners|
                invariant forall j :: 0 <= j < |listeners| ==>
                  listeners[j] == if j < i then Called(sub.listeners, v)[j] else sub.listeners[j]
              {
                listeners := listeners[i := listeners[i].(got := listeners[i].got + [v])];
              }
              assert listeners == Called(sub.listeners, v);
              activeSubscriptions := activeSubscriptions[
                key := sub.(listeners := listeners, received := sub.received + [v])];
            case Interrupted(_) =>
              activeSubscriptions := activeSubscriptions[key := sub.(interrupted := true)];
          }
        }
      }
    }
  }
}
