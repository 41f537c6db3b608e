/** Subscriptions multiplexed by topic set: callers with the same key share one upstream. */
module StatementClient {
  import opened Common
  import opened Hex
  import opened TopicKey
  import Codec = StatementCodec

  type Listener = nat

  /** One RPC subscription: its filter, the key its events look up, and how often it was torn down. */
  datatype Upstream = Upstream(topics: seq<Topic>, key: string, teardowns: nat)

  /** Listeners in insertion order, and the upstream that `teardown` closes. */
  datatype Mux = Mux(listeners: seq<Listener>, upstream: nat)

  datatype Client = Client(muxes: map<string, Mux>, upstreams: seq<Upstream>)

  function AddListener(listeners: seq<Listener>, l: Listener): seq<Listener> {
    if l in listeners then listeners else listeners + [l]
  }

  function AfterSubscribe(c: Client, topics: seq<Topic>, l: Listener): Client {
    var key := SubscriptionKey(topics);
    if key in c.muxes then
      c.(muxes := c.muxes[key := c.muxes[key].(listeners := AddListener(c.muxes[key].listeners, l))])
    else
      Client(c.muxes[key := Mux([l], |c.upstreams|)], c.upstreams + [Upstream(topics, key, 0)])
  }

  function TearDown(upstreams: seq<Upstream>, u: nat): seq<Upstream> {
    if u < |upstreams| then upstreams[u := upstreams[u].(teardowns := upstreams[u].teardowns + 1)] else upstreams
  }

  /** Calling the function that `subscribe` returned for this key and callback. */
  function AfterUnsubscribe(c: Client, key: string, l: Listener): Client {
    if key !in c.muxes || l !in c.muxes[key].listeners then c
    else
      var mux := c.muxes[key];
      var remaining := Remove(mux.listeners, l);
      if remaining == [] then Client(c.muxes - {key}, TearDown(c.upstreams, mux.upstream))
      else c.(muxes := c.muxes[key := mux.(listeners := remaining)])
  }

  /** Malformed statements in an event are skipped. */
  function DecodeStatements(texts: seq<string>): seq<Codec.Statement> {
    if texts == [] then []
    else
      (match Codec.DecodeStatement(HexToBytes(texts[0]), [])
       case Ok(d) => [d.statement]
       case Err(_) => []) + DecodeStatements(texts[1..])
  }

  /** Who is called for an event of an upstream. */
  function Receivers(c: Client, u: Upstream): seq<Listener> {
    if u.key in c.muxes then c.muxes[u.key].listeners else []
  }

  // -- Runs ----------------------------------------------------------------------

  /** The i-th `subscribe` call passes the callback i; `Unsub(i)` calls what it returned. */
  datatype Event = Sub(topics: seq<Topic>) | Unsub(i: nat)

  datatype World = World(client: Client, calls: seq<seq<Topic>>, attached: set<Listener>)

  function Step(w: World, e: Event): World {
    match e
    case Sub(topics) =>
      World(AfterSubscribe(w.client, topics, |w.calls|), w.calls + [topics], w.attached + {|w.calls|})
    case Unsub(i) =>
      if i >= |w.calls| then w
      else w.(client := AfterUnsubscribe(w.client, SubscriptionKey(w.calls[i]), i), attached := w.attached - {i})
  }

  function Run(evs: seq<Event>): World {
    if evs == [] then World(Client(map[], []), [], {})
    else Step(Run(evs[..|evs| - 1]), evs[|evs| - 1])
  }

  /** A node sends a published statement once on every open upstream whose filter it matches. */
  function Sent(c: Client, topics: Option<seq<Topic>>, u: nat): seq<Listener>
    requires u < |c.upstreams|
  {
    var up := c.upstreams[u];
    if up.teardowns == 0 && MatchAll(topics, up.topics) then Receivers(c, up) else []
  }

  /** Everyone who is called for a published statement, upstream by upstream. */
  function Deliveries(c: Client, topics: Option<seq<Topic>>, n: nat): seq<Listener>
    requires n <= |c.upstreams|
  {
    if n == 0 then [] else Deliveries(c, topics, n - 1) + Sent(c, topics, n - 1)
  }

  ghost predicate ValidMux(c: Client, key: string)
    requires key in c.muxes
  {
    var mux := c.muxes[key];
    && mux.listeners != [] && Distinct(mux.listeners)
    && mux.upstream < |c.upstreams| && c.upstreams[mux.upstream].key == key
    && c.upstreams[mux.upstream].teardowns == 0
  }

  ghost predicate ValidUpstream(c: Client, u: nat)
    requires u < |c.upstreams|
  {
    var up := c.upstreams[u];
    && up.key == SubscriptionKey(up.topics)
    && up.teardowns <= 1
    && (up.teardowns == 0 ==> up.key in c.muxes && c.muxes[up.key].upstream == u)
  }

  ghost predicate Attached(w: World, key: string, l: Listener) {
    l in w.attached && l < |w.calls| && SubscriptionKey(w.calls[l]) == key
  }

  ghost predicate Inv(w: World) {
    && (forall key <- w.client.muxes :: ValidMux(w.client, key))
    && (forall u | 0 <= u < |w.client.upstreams| :: ValidUpstream(w.client, u))
    && (forall key, l :: Attached(w, key, l) <==> key in w.client.muxes && l in w.client.muxes[key].listeners)
    && (forall l <- w.attached :: l < |w.calls|)
  }

  lemma StepKeepsInv(w: World, e: Event)
    requires Inv(w)
    ensures Inv(Step(w, e))
  {
    match e
    case Sub(topics) => SubKeepsInv(w, topics);
    case Unsub(i) =>
      if i < |w.calls| {
        UnsubKeepsInv(w, i);
      }
  }

  lemma SubKeepsInv(w: World, topics: seq<Topic>)
    requires Inv(w)
    ensures Inv(Step(w, Sub(topics)))
  {
    hide SubscriptionKey;
    var w', key, l := Step(w, Sub(topics)), SubscriptionKey(topics), |w.calls|;
    assert !Attached(w, key, l);
    forall k, x ensures Attached(w', k, x) <==> k in w'.client.muxes && x in w'.client.muxes[k].listeners {
      SubAttached(w, topics, k, x);
    }
    forall u | 0 <= u < |w'.client.upstreams| ensures ValidUpstream(w'.client, u) {
      if u < |w.client.upstreams| {
        assert ValidUpstream(w.client, u);
      }
    }
    forall k <- w'.client.muxes ensures ValidMux(w'.client, k) {
      if k in w.client.muxes {
        assert ValidMux(w.client, k);
      }
    }
  }

  lemma SubAttached(w: World, topics: seq<Topic>, k: string, x: Listener)
    requires Inv(w)
    ensures var w' := Step(w, Sub(topics));
      Attached(w', k, x) <==> k in w'.client.muxes && x in w'.client.muxes[k].listeners
  {
    hide SubscriptionKey;
    var w', key, l := Step(w, Sub(topics)), SubscriptionKey(topics), |w.calls|;
    assert !Attached(w, key, l);
    assert Attached(w', k, x) <==> Attached(w, k, x) || (k == key && x == l);
  }

  lemma UnsubKeepsInv(w: World, i: nat)
    requires Inv(w) && i < |w.calls|
    ensures Inv(Step(w, Unsub(i)))
  {
    var w', key := Step(w, Unsub(i)), SubscriptionKey(w.calls[i]);
    assert Attached(w, key, i) <==> i in w.attached;
    if i !in w.attached {
      assert w' == w;
    } else {
      var mux := w.client.muxes[key];
      assert ValidMux(w.client, key);
      RemoveSpec(mux.listeners, i);
      forall k, x ensures Attached(w', k, x) <==> k in w'.client.muxes && x in w'.client.muxes[k].listeners {
        UnsubAttached(w, i, k, x);
      }
      forall u | 0 <= u < |w.client.upstreams| ensures ValidUpstream(w'.client, u) {
        assert ValidUpstream(w.client, u);
      }
      forall k <- w'.client.muxes ensures ValidMux(w'.client, k) {
        assert ValidMux(w.client, k);
      }
    }
  }

  lemma UnsubAttached(w: World, i: nat, k: string, x: Listener)
    requires Inv(w) && i in w.attached
    ensures var w' := Step(w, Unsub(i));
      Attached(w', k, x) <==> k in w'.client.muxes && x in w'.client.muxes[k].listeners
  {
    var w', key := Step(w, Unsub(i)), SubscriptionKey(w.calls[i]);
    assert Attached(w, key, i);
    assert Attached(w', k, x) <==> Attached(w, k, x) && x != i;
    assert ValidMux(w.client, key);
    var remaining := Remove(w.client.muxes[key].listeners, i);
    RemoveSpec(w.client.muxes[key].listeners, i);
    assert x in remaining <==> Attached(w, key, x) && x != i;
    if k != key {
      assert !Attached(w, k, i);
      assert k in w'.client.muxes <==> k in w.client.muxes;
    }
  }

  lemma {:induction false} RunKeepsInv(evs: seq<Event>)
    ensures Inv(Run(evs))
  {
    if evs != [] {
      RunKeepsInv(evs[..|evs| - 1]);
      StepKeepsInv(Run(evs[..|evs| - 1]), evs[|evs| - 1]);
    }
  }

  ghost predicate HasListener(w: World, key: string) { exists l :: Attached(w, key, l) }

  ghost predicate OpenFor(c: Client, u: nat, key: string) {
    u < |c.upstreams| && c.upstreams[u].key == key && c.upstreams[u].teardowns == 0
  }

  ghost predicate HasUpstream(c: Client, key: string) { exists u :: OpenFor(c, u, key) }

  /** Upstreams are open exactly for the keys with listeners, one each, and are torn down at most once. */
  lemma UpstreamsFollowListeners(evs: seq<Event>, key: string)
    ensures var w := Run(evs);
      && (HasListener(w, key) <==> HasUpstream(w.client, key))
      && (forall u, v | OpenFor(w.client, u, key) && OpenFor(w.client, v, key) :: u == v)
      && (forall u | 0 <= u < |w.client.upstreams| :: w.client.upstreams[u].teardowns <= 1)
  {
    var w := Run(evs);
    RunKeepsInv(evs);
    forall u | 0 <= u < |w.client.upstreams| ensures w.client.upstreams[u].teardowns <= 1 {
      assert ValidUpstream(w.client, u);
    }
    forall u, v | OpenFor(w.client, u, key) && OpenFor(w.client, v, key) ensures u == v {
      assert ValidUpstream(w.client, u) && ValidUpstream(w.client, v);
    }
    forall u | OpenFor(w.client, u, key) ensures key in w.client.muxes {
      assert ValidUpstream(w.client, u);
    }
    if key in w.client.muxes {
      assert ValidMux(w.client, key);
      assert OpenFor(w.client, w.client.muxes[key].upstream, key);
      assert Attached(w, key, w.client.muxes[key].listeners[0]);
    }
  }

  /** The upstream an attached listener hears from. */
  function Home(w: World, l: Listener): nat
    requires Inv(w) && l in w.attached
  {
    assert Attached(w, SubscriptionKey(w.calls[l]), l);
    w.client.muxes[SubscriptionKey(w.calls[l])].upstream
  }

  lemma HomeIsOpen(w: World, l: Listener)
    requires Inv(w) && l in w.attached
    ensures Home(w, l) < |w.client.upstreams|
    ensures var u := w.client.upstreams[Home(w, l)];
      u.teardowns == 0 && u.key == SubscriptionKey(w.calls[l]) == SubscriptionKey(u.topics)
  {
    assert Attached(w, SubscriptionKey(w.calls[l]), l);
    assert ValidMux(w.client, SubscriptionKey(w.calls[l]));
    assert ValidUpstream(w.client, Home(w, l));
  }

  lemma HeardOnce(w: World, l: Listener, u: nat)
    requires Inv(w) && u < |w.client.upstreams| && w.client.upstreams[u].teardowns == 0
    ensures multiset(Receivers(w.client, w.client.upstreams[u]))[l]
         == if l in w.attached && Home(w, l) == u then 1 else 0
  {
    hide SubscriptionKey;
    var up := w.client.upstreams[u];
    assert ValidUpstream(w.client, u);
    assert ValidMux(w.client, up.key);
    DistinctCount(Receivers(w.client, up), l);
    assert Attached(w, up.key, l) <==> l in Receivers(w.client, up);
    if l in w.attached {
      HomeIsOpen(w, l);
    }
  }

  lemma {:induction false} DeliveryCount(c: Client, topics: Option<seq<Topic>>, l: Listener, n: nat, home: Option<nat>)
    requires n <= |c.upstreams|
    requires forall u | 0 <= u < n :: multiset(Sent(c, topics, u))[l] == if home == Some(u) then 1 else 0
    ensures multiset(Deliveries(c, topics, n))[l] == if home.Some? && home.value < n then 1 else 0
  {
    hide Sent;
    if n > 0 {
      DeliveryCount(c, topics, l, n - 1, home);
      CountAppend(Deliveries(c, topics, n - 1), Sent(c, topics, n - 1), l);
    }
  }

  /** Sharing is invisible: each caller gets a statement as often as on an upstream of its own. */
  lemma SharedLikePrivate(evs: seq<Event>, topics: Option<seq<Topic>>, l: Listener)
    ensures var w := Run(evs);
      multiset(Deliveries(w.client, topics, |w.client.upstreams|))[l]
        == if l in w.attached && l < |w.calls| && MatchAll(topics, w.calls[l]) then 1 else 0
  {
    RunKeepsInv(evs);
    var w := Run(evs);
    var home := if l in w.attached && MatchAll(topics, w.calls[l]) then Some(Home(w, l)) else None;
    if l in w.attached {
      HomeIsOpen(w, l);
      SameKeySameFilter(w.calls[l], w.client.upstreams[Home(w, l)].topics, topics);
    }
    forall u | 0 <= u < |w.client.upstreams|
      ensures multiset(Sent(w.client, topics, u))[l] == if home == Some(u) then 1 else 0
    {
      if w.client.upstreams[u].teardowns == 0 {
        HeardOnce(w, l, u);
      }
    }
    DeliveryCount(w.client, topics, l, |w.client.upstreams|, home);
  }

  function Calls(receivers: seq<Listener>, decoded: seq<Codec.Statement>): seq<(Listener, seq<Codec.Statement>)> {
    seq(|receivers|, i requires 0 <= i < |receivers| => (receivers[i], decoded))
  }

  // -- The client object -----------------------------------------------------------

  class StatementStoreClient {
    var multiplexes: map<string, Mux>
    var upstreams: seq<Upstream>

    function View(): Client
      reads this
    {
      Client(multiplexes, upstreams)
    }

    constructor ()
      ensures View() == Client(map[], [])
    {
      multiplexes := map[];
      upstreams := [];
    }

    method Subscribe(topics: seq<Topic>, callback: Listener)
      modifies this
      ensures View() == AfterSubscribe(old(View()), topics, callback)
      ensures var key := SubscriptionKey(topics);
        && key in multiplexes && callback in multiplexes[key].listeners
        && |upstreams| == |old(upstreams)| + if key in old(multiplexes) then 0 else 1
    {
      var key := SubscriptionKey(topics);
      if key !in multiplexes {
        // The multiplex is registered before the upstream opens.
        multiplexes := multiplexes[key := Mux([], |upstreams|)];
        upstreams := upstreams + [Upstream(topics, key, 0)];
      }
      var mux := multiplexes[key];
      multiplexes := multiplexes[key := mux.(listeners := AddListener(mux.listeners, callback))];
      assert [] + [callback] == [callback];
    }

    method Unsubscribe(key: string, callback: Listener)
      modifies this
      ensures View() == AfterUnsubscribe(old(View()), key, callback)
      ensures key in old(multiplexes) && Distinct(old(multiplexes)[key].listeners) ==>
        key !in multiplexes || callback !in multiplexes[key].listeners
      ensures forall other <- old(multiplexes) | other != key ::
        other in multiplexes && multiplexes[other] == old(multiplexes)[other]
    {
      if key in multiplexes && Distinct(multiplexes[key].listeners) {
        RemoveSpec(multiplexes[key].listeners, callback);
      }
      if key !in multiplexes { return; }
      var current := multiplexes[key];
      if callback !in current.listeners { return; }
      var remaining := Remove(current.listeners, callback);
      multiplexes := multiplexes[key := current.(listeners := remaining)];
      if remaining == [] {
        multiplexes := multiplexes - {key};
        upstreams := TearDown(upstreams, current.upstream);
      }
    }

    /** The calls made for one event: every listener once, in order, unless there is nothing to hand over. */
    method OnEvent(u: Upstream, isNewStatements: bool, texts: seq<string>)
      returns (calls: seq<(Listener, seq<Codec.Statement>)>)
      ensures var decoded := DecodeStatements(texts);
        calls == if !isNewStatements || decoded == [] then [] else Calls(Receivers(View(), u), decoded)
      ensures var decoded := DecodeStatements(texts);
        if !isNewStatements || decoded == [] || u.key !in multiplexes then calls == []
        else
          && |calls| == |multiplexes[u.key].listeners|
          && forall i :: 0 <= i < |calls| ==> calls[i] == (multiplexes[u.key].listeners[i], decoded)
    {
      calls := [];
      if !isNewStatements { return; }
      var decoded := DecodeAll(texts);
      if decoded == [] { return; }
      if u.key !in multiplexes { return; }
      var copy := multiplexes[u.key].listeners;
      for i := 0 to |copy|
        invariant calls == Calls(copy, decoded)[..i]
      {
        calls := calls + [(copy[i], decoded)];
      }
    }
  }

  lemma {:induction false} DecodeStatementsAppend(texts: seq<string>, text: string)
    ensures DecodeStatements(texts + [text]) == DecodeStatements(texts) + DecodeStatements([text])
  {
    hide Codec.DecodeStatement;
    hide HexToBytes;
    if texts == [] {
      assert [] + [text] == [text];
      assert DecodeStatements([]) + DecodeStatements([text]) == DecodeStatements([text]);
    } else {
      DecodeStatementsAppend(texts[1..], text);
      assert (texts + [text])[1..] == texts[1..] + [text] && (texts + [text])[0] == texts[0];
    }
  }

  lemma NoTexts()
    ensures DecodeStatements([]) == []
  {
  }

  lemma {:induction false} DecodeStatementsConcat(a: seq<string>, b: seq<string>)
    ensures DecodeStatements(a + b) == DecodeStatements(a) + DecodeStatements(b)
    decreases |b|
  {
    hide DecodeStatements;
    if b == [] {
      NoTexts();
      assert a + b == a && DecodeStatements(a) + [] == DecodeStatements(a);
    } else {
      var n := |b| - 1;
      DecodeStatementsConcat(a, b[..n]);
      DecodeStatementsAppend(a + b[..n], b[n]);
      DecodeStatementsAppend(b[..n], b[n]);
      assert a + b[..n] + [b[n]] == a + b && b[..n] + [b[n]] == b;
      assert DecodeStatements(a) + DecodeStatements(b[..n]) + DecodeStatements([b[n]])
          == DecodeStatements(a) + (DecodeStatements(b[..n]) + DecodeStatements([b[n]]));
    }
  }

  /** A text that does not decode is as good as absent, wherever it stands. */
  lemma MalformedIsSkipped(a: seq<string>, bad: string, b: seq<string>)
    requires Codec.DecodeStatement(HexToBytes(bad), []).Err?
    ensures DecodeStatements(a + [bad] + b) == DecodeStatements(a + b)
  {
    DecodeStatementsConcat(a + [bad], b);
    DecodeStatementsConcat(a, [bad]);
    DecodeStatementsConcat(a, b);
    assert DecodeStatements([bad]) == [] + DecodeStatements([bad][1..]) == [];
    assert DecodeStatements(a) + [] == DecodeStatements(a);
  }

  /** The texts of some statements, as a client submits them. */
  function Texts(statements: seq<Codec.Statement>): seq<string>
    requires forall s <- statements :: Codec.EncodeStatement(s).Ok?
  {
    seq(|statements|, i requires 0 <= i < |statements| => BytesToHex(Codec.EncodeStatement(statements[i]).value))
  }

  /** What was printed as hex text comes out again: all of it, in order. */
  lemma {:induction false} TextsComeBack(statements: seq<Codec.Statement>)
    requires forall s <- statements :: Codec.WellFormed(s) && Codec.EncodeStatement(s).Ok?
    ensures DecodeStatements(Texts(statements)) == statements
  {
    hide Codec.DecodeStatement;
    hide Codec.EncodeStatement;
    hide Codec.WellFormed;
    hide HexToBytes;
    hide BytesToHex;
    if statements != [] {
      var s, texts := statements[0], Texts(statements);
      var bytes := Codec.EncodeStatement(s).value;
      TextsComeBack(statements[1..]);
      HexRoundTrip(bytes);
      Codec.ParserInvertsPrinter(s, [], []);
      assert bytes + [] == bytes;
      assert texts[0] == BytesToHex(bytes) && texts[1..] == Texts(statements[1..]);
      assert [s] + statements[1..] == statements;
    }
  }

  method DecodeAll(texts: seq<string>) returns (decoded: seq<Codec.Statement>)
    ensures decoded == DecodeStatements(texts)
  {
    decoded := [];
    for i := 0 to |texts|
      invariant decoded == DecodeStatements(texts[..i])
    {
      DecodeStatementsAppend(texts[..i], texts[i]);
      assert texts[..i + 1] == texts[..i] + [texts[i]];
      var bytes := ReadHex(texts[i]);
      var statement := Codec.ScanStatement(bytes[..], []);
      if statement.Ok? {
        decoded := decoded + [statement.value];
      }
      assert DecodeStatements([texts[i]]) == if statement.Ok? then [statement.value] else [];
    }
    assert texts[..|texts|] == texts;
  }
}
