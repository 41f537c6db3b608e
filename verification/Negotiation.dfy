/**
 * Codec negotiation between the two facades: the host selects a format, swaps its codec and
 * only then answers; either side swaps when it receives a structured-clone message.
 */
module Negotiation {
  import opened Common

  datatype Format = Scale | StructuredClone

  const Preference := [StructuredClone, Scale]

  // -- Selection -------------------------------------------------------------------------------

  /** `offered` are the product's formats, `adapters` those of the host. */
  function Select(offered: set<Format>, adapters: set<Format>): Option<Format> {
    if StructuredClone in offered * adapters then Some(StructuredClone)
    else if Scale in offered * adapters then Some(Scale)
    else None
  }

  /** The host's loop finds the first format of the preference that both sides support. */
  method SelectFormat(offered: set<Format>, adapters: set<Format>) returns (selected: Option<Format>)
    ensures selected == Select(offered, adapters)
    ensures selected.None? <==> offered * adapters == {}
    ensures selected.Some? ==> selected.value in offered * adapters
  {
    selected := None;
    for i := 0 to |Preference|
      invariant selected.None?
      invariant forall j :: 0 <= j < i ==> Preference[j] !in offered * adapters
    {
      if Preference[i] in offered && Preference[i] in adapters {
        assert i == 1 ==> Preference[0] !in offered * adapters;
        selected := Some(Preference[i]);
        return;
      }
    }
    assert Preference[0] !in offered * adapters && Preference[1] !in offered * adapters;
    forall f: Format ensures f !in offered * adapters {
      assert f.Scale? || f.StructuredClone?;
    }
  }

  // -- Messages and endpoints --------------------------------------------------------------------

  /** A selection of `None` is the not-supported marker. */
  datatype Kind =
    | UpgradeRequest(id: nat, offered: Option<set<Format>>)
    | UpgradeResponse(id: nat, selected: Option<Format>)
    | Other

  /** A message on the wire, in the format it was encoded with. */
  datatype Message = Message(format: Format, kind: Kind)

  datatype Endpoint = Endpoint(codec: Format, out: seq<Message>)

  function Post(e: Endpoint, kind: Kind): Endpoint { e.(out := e.out + [Message(e.codec, kind)]) }

  /** Decoding a structured-clone message upgrades the outgoing codec. */
  function Decode(e: Endpoint, m: Message): Endpoint {
    if m.format.StructuredClone? then e.(codec := StructuredClone) else e
  }

  /** The host's answer: a malformed request or an empty intersection falls back to SCALE, without a swap. */
  function Answer(e: Endpoint, adapters: set<Format>, id: nat, offered: Option<set<Format>>): Endpoint {
    var selected := if offered.None? then None else Select(offered.value, adapters);
    match selected
    case None => Post(e, UpgradeResponse(id, Some(Scale)))
    case Some(f) => Post(e.(codec := f), UpgradeResponse(id, Some(f)))
  }

  /** The not-supported marker has no SCALE encoding: encoding it throws, and nothing is posted. */
  function NotSupported(e: Endpoint, id: nat): Endpoint {
    if e.codec.StructuredClone? then Post(e, UpgradeResponse(id, None)) else e
  }

  /**
   * Every listener of the transport decodes every message. `rest` says whether any was
   * registered after the upgrade handler, and so decodes the message after the answer.
   */
  function OnHostMessage(e: Endpoint, handler: bool, rest: bool, adapters: set<Format>, m: Message): Endpoint {
    var t := Decode(e, m);
    var u := match m.kind
      case UpgradeRequest(id, offered) => if handler then Answer(t, adapters, id, offered) else NotSupported(t, id)
      case _ => t;
    if rest then Decode(u, m) else u
  }

  /** One transport's codec, as an object. */
  class CodecEndpoint {
    var codecAdapter: Format
    var out: seq<Message>

    ghost function Value(): Endpoint
      reads this
    {
      Endpoint(codecAdapter, out)
    }

    constructor ()
      ensures Value() == Endpoint(Scale, [])
    {
      codecAdapter, out := Scale, [];
    }

    method PostMessage(kind: Kind)
      modifies this
      ensures Value() == Post(old(Value()), kind)
    {
      out := out + [Message(codecAdapter, kind)];
    }

    method DecodeIncoming(m: Message)
      modifies this
      ensures Value() == Decode(old(Value()), m)
    {
      if m.format.StructuredClone? {
        codecAdapter := StructuredClone;
      }
    }

    /** The upgrade handler's callback, after its own decoding. */
    method AnswerUpgrade(adapters: set<Format>, id: nat, offered: Option<set<Format>>)
      modifies this
      ensures Value() == Answer(old(Value()), adapters, id, offered)
      ensures |out| == |old(out)| + 1 && out[..|old(out)|] == old(out) && out[|old(out)|].format == codecAdapter
      ensures out[|old(out)|].kind.UpgradeResponse? && out[|old(out)|].kind.id == id
      ensures var answer := out[|old(out)|].kind.selected;
        if offered.None? || offered.value * adapters == {} then answer == Some(Scale) && codecAdapter == old(codecAdapter)
        else answer == Some(codecAdapter) && codecAdapter in offered.value * adapters
             && (StructuredClone in offered.value * adapters ==> codecAdapter == StructuredClone)
    {
      if offered.None? {
        PostMessage(UpgradeResponse(id, Some(Scale)));
        return;
      }
      var selected := SelectFormat(offered.value, adapters);
      if selected.None? {
        PostMessage(UpgradeResponse(id, Some(Scale)));
      } else {
        codecAdapter := selected.value;
        PostMessage(UpgradeResponse(id, selected));
      }
    }

    /** The provider hands the message to all listeners in the order of their registration. */
    method HandleMessage(handler: bool, rest: bool, adapters: set<Format>, m: Message)
      modifies this
      ensures Value() == OnHostMessage(old(Value()), handler, rest, adapters, m)
      ensures m.format.StructuredClone? && rest ==> codecAdapter.StructuredClone?
      ensures !m.kind.UpgradeRequest? ==>
        out == old(out) && codecAdapter == (if m.format.StructuredClone? then StructuredClone else old(codecAdapter))
      ensures m.kind.UpgradeRequest? && !handler ==>
        out == old(out) + if codecAdapter.StructuredClone?
                          then [Message(StructuredClone, UpgradeResponse(m.kind.id, None))] else []
    {
      DecodeIncoming(m);
      if m.kind.UpgradeRequest? {
        if handler {
          AnswerUpgrade(adapters, m.kind.id, m.kind.offered);
        } else if codecAdapter.StructuredClone? {
          PostMessage(UpgradeResponse(m.kind.id, None));
        }
      }
      if rest {
        DecodeIncoming(m);
      }
    }
  }

  // -- The two facades and their channels ------------------------------------------------------------

  /**
   * `waiting` maps each upgrade request that has neither been answered nor timed out to the
   * formats it offered; `chosen` are answers whose continuation has yet to run, with those
   * formats. `swapped` records how much the host had posted when it first swapped.
   */
  datatype System = System(
    product: Endpoint, host: Endpoint, up: nat, down: nat,
    handler: bool, rest: bool, waiting: map<nat, set<Format>>, nextId: nat,
    chosen: seq<Choice>, swapped: Option<nat>)

  datatype Choice = Choice(format: Format, offered: set<Format>)

  const Fresh := System(Endpoint(Scale, []), Endpoint(Scale, []), 0, 0, false, false, map[], 0, [], None)

  datatype Move =
    | Requests(offered: set<Format>)
    | TimesOut(id: nat)
    | ProductSends
    | HostSends
    | HostReads
    | ProductReads
    | Continues
    | ListenersChange(handler: bool, rest: bool)

  function Request(s: System, offered: set<Format>): System {
    if offered == {} then s
    else
      s.(product := Post(s.product, UpgradeRequest(s.nextId, Some(offered))),
         waiting := s.waiting[s.nextId := offered], nextId := s.nextId + 1)
  }

  function HostRead(s: System, adapters: set<Format>): System {
    if s.up >= |s.product.out| then s
    else
      var host := OnHostMessage(s.host, s.handler, s.rest, adapters, s.product.out[s.up]);
      s.(host := host, up := s.up + 1,
         swapped := if s.swapped.None? && host.codec.StructuredClone? then Some(|s.host.out|) else s.swapped)
  }

  /** An answer that comes too late is only decoded. */
  function ProductRead(s: System): System {
    if s.down >= |s.host.out| then s
    else
      var m := s.host.out[s.down];
      var t := s.(product := Decode(s.product, m), down := s.down + 1);
      match m.kind
      case UpgradeResponse(id, selected) =>
        if id !in s.waiting then t
        else
          t.(waiting := t.waiting - {id},
             chosen := if selected.Some? then t.chosen + [Choice(selected.value, s.waiting[id])] else t.chosen)
      case _ => t
  }

  /** The requesting code resumes: it swaps if it has an adapter for the selection. */
  function Continue(s: System): System {
    if s.chosen == [] then s
    else
      var choice := s.chosen[0];
      s.(chosen := s.chosen[1..],
         product := if choice.format in choice.offered then s.product.(codec := choice.format) else s.product)
  }

  function Step(s: System, adapters: set<Format>, move: Move): System {
    match move
    case Requests(offered) => Request(s, offered)
    case TimesOut(id) => s.(waiting := s.waiting - {id})
    case ProductSends => s.(product := Post(s.product, Other))
    case HostSends => s.(host := Post(s.host, Other))
    case HostReads => HostRead(s, adapters)
    case ProductReads => ProductRead(s)
    case Continues => Continue(s)
    case ListenersChange(handler, rest) => s.(handler := handler, rest := rest)
  }

  function RunFrom(s: System, adapters: set<Format>, moves: seq<Move>): System {
    if moves == [] then s else Step(RunFrom(s, adapters, moves[..|moves| - 1]), adapters, moves[|moves| - 1])
  }

  function Run(adapters: set<Format>, moves: seq<Move>): System { RunFrom(Fresh, adapters, moves) }

  // -- What requests can do -------------------------------------------------------------------------

  /** The upgrade requests of the run offer only these sets of formats. */
  ghost predicate OffersFrom(moves: seq<Move>, offers: set<set<Format>>) {
    forall move <- moves | move.Requests? :: move.offered in offers
  }

  /** The request makes the host swap to structured clone. */
  predicate Upgrades(offered: set<Format>, adapters: set<Format>) { StructuredClone in offered * adapters }

  /** The request makes the host swap to SCALE. */
  predicate Downgrades(offered: set<Format>, adapters: set<Format>) { offered * adapters == {Scale} }

  /** The request is answered with SCALE, and the product has an adapter for it. */
  predicate FallsBack(offered: set<Format>, adapters: set<Format>) {
    !Upgrades(offered, adapters) && Scale in offered
  }

  lemma SelectCases(offered: set<Format>, adapters: set<Format>)
    ensures Select(offered, adapters) == Some(StructuredClone) <==> Upgrades(offered, adapters)
    ensures Select(offered, adapters) == Some(Scale) <==> Downgrades(offered, adapters)
    ensures Downgrades(offered, adapters) ==> FallsBack(offered, adapters)
  {
    var common := offered * adapters;
    if Scale in common && StructuredClone !in common {
      forall f | f in common ensures f in {Scale} {
        assert f.Scale? || f.StructuredClone?;
      }
      assert common == {Scale};
    }
    if Downgrades(offered, adapters) {
      assert Scale in common;
    }
  }

  /** Some offer upgrades and some offer sends the host back. */
  ghost predicate HostClash(adapters: set<Format>, offers: set<set<Format>>) {
    exists o1, o2 :: o1 in offers && o2 in offers && Upgrades(o1, adapters) && Downgrades(o2, adapters)
  }

  /** Some offer upgrades and some offer is answered with a fallback that the product follows. */
  ghost predicate ProductClash(adapters: set<Format>, offers: set<set<Format>>) {
    exists o1, o2 :: o1 in offers && o2 in offers && Upgrades(o1, adapters) && FallsBack(o2, adapters)
  }

  ghost predicate IsClone(m: Message) { m.format.StructuredClone? }

  ghost predicate Answers(m: Message, f: Format) { m.kind.UpgradeResponse? && m.kind.selected == Some(f) }

  /** A request on the wire has a number of its own, and its formats as long as it waits. */
  ghost predicate Registered(s: System, offers: set<set<Format>>, m: Message) {
    m.kind.UpgradeRequest? ==>
      && m.kind.id < s.nextId && m.kind.offered.Some? && m.kind.offered.value in offers
      && (m.kind.id in s.waiting ==> s.waiting[m.kind.id] == m.kind.offered.value)
  }

  // -- The host never reverts ------------------------------------------------------------------------

  /** The host is on structured clone exactly if it has swapped; nothing else is unless it has. */
  ghost predicate HostLeads(s: System, adapters: set<Format>, offers: set<set<Format>>) {
    && (s.host.codec.StructuredClone? <==> s.swapped.Some?)
    && (s.swapped.Some? ==> exists o :: o in offers && Upgrades(o, adapters))
    && (s.product.codec.StructuredClone? ==> s.swapped.Some?)
    && (forall i :: 0 <= i < |s.host.out| && (IsClone(s.host.out[i]) || Answers(s.host.out[i], StructuredClone)) ==>
          s.swapped.Some?)
    && (forall i :: 0 <= i < |s.product.out| ==>
          Registered(s, offers, s.product.out[i]) && (IsClone(s.product.out[i]) ==> s.swapped.Some?))
    && (forall i :: 0 <= i < |s.chosen| && s.chosen[i].format.StructuredClone? ==> s.swapped.Some?)
  }

  lemma HostReadLeads(s: System, adapters: set<Format>, offers: set<set<Format>>)
    requires HostLeads(s, adapters, offers) && !HostClash(adapters, offers)
    ensures HostLeads(HostRead(s, adapters), adapters, offers)
  {
    if s.up < |s.product.out| {
      var m := s.product.out[s.up];
      assert Registered(s, offers, m);
      if m.kind.UpgradeRequest? {
        SelectCases(m.kind.offered.value, adapters);
      }
    }
  }

  lemma StepLeads(s: System, adapters: set<Format>, offers: set<set<Format>>, move: Move)
    requires HostLeads(s, adapters, offers) && !HostClash(adapters, offers)
    requires move.Requests? ==> move.offered in offers
    ensures HostLeads(Step(s, adapters, move), adapters, offers)
    ensures s.swapped.Some? ==> Step(s, adapters, move).swapped == s.swapped
  {
    match move
    case HostReads => HostReadLeads(s, adapters, offers);
    case _ =>
  }

  lemma {:induction false} RunLeads(s: System, adapters: set<Format>, offers: set<set<Format>>, moves: seq<Move>)
    requires HostLeads(s, adapters, offers) && !HostClash(adapters, offers) && OffersFrom(moves, offers)
    ensures var s' := RunFrom(s, adapters, moves);
      HostLeads(s', adapters, offers) && (s.swapped.Some? ==> s'.swapped == s.swapped)
    decreases |moves|
  {
    if moves != [] {
      RunLeads(s, adapters, offers, moves[..|moves| - 1]);
      StepLeads(RunFrom(s, adapters, moves[..|moves| - 1]), adapters, offers, moves[|moves| - 1]);
    }
  }

  // -- Both sides stay -------------------------------------------------------------------------------------

  /** A selection waiting to be acted upon came with, or after, the host's swap, or is a fallback. */
  ghost predicate Timely(s: System, adapters: set<Format>, offers: set<set<Format>>, choice: Choice) {
    if choice.format.StructuredClone? then s.swapped.Some? && s.swapped.value < s.down
    else choice.offered in offers && !Upgrades(choice.offered, adapters)
  }

  /** An answer of structured clone is structured clone itself; an answer of SCALE was none to an upgrading request. */
  ghost predicate Honest(s: System, adapters: set<Format>, offers: set<set<Format>>, m: Message) {
    && (Answers(m, StructuredClone) ==> IsClone(m))
    && (Answers(m, Scale) ==>
          && m.kind.id < s.nextId
          && (m.kind.id in s.waiting ==>
                s.waiting[m.kind.id] in offers && !Upgrades(s.waiting[m.kind.id], adapters)))
  }

  /**
   * Exactly what the host posted from its swap on is structured clone; the product is on it
   * exactly if it has read some of that.
   */
  ghost predicate Agreed(s: System, adapters: set<Format>, offers: set<set<Format>>) {
    && HostLeads(s, adapters, offers)
    && s.up <= |s.product.out| && s.down <= |s.host.out|
    && (s.swapped.Some? ==> s.swapped.value < |s.host.out|)
    && (forall i :: 0 <= i < |s.host.out| ==>
          Honest(s, adapters, offers, s.host.out[i])
          && (IsClone(s.host.out[i]) <==> s.swapped.Some? && s.swapped.value <= i))
    && (s.product.codec.StructuredClone? <==> s.swapped.Some? && s.swapped.value < s.down)
    && (forall i :: 0 <= i < |s.chosen| ==> Timely(s, adapters, offers, s.chosen[i]))
  }

  /** A downgrade is a fallback, so the weaker clash is excluded too. */
  lemma ProductClashCovers(adapters: set<Format>, offers: set<set<Format>>)
    requires HostClash(adapters, offers)
    ensures ProductClash(adapters, offers)
  {
    var o1, o2 :| o1 in offers && o2 in offers && Upgrades(o1, adapters) && Downgrades(o2, adapters);
    SelectCases(o2, adapters);
    assert FallsBack(o2, adapters);
  }

  lemma HostReadAgreed(s: System, adapters: set<Format>, offers: set<set<Format>>)
    requires Agreed(s, adapters, offers) && !ProductClash(adapters, offers) && !HostClash(adapters, offers)
    ensures Agreed(HostRead(s, adapters), adapters, offers)
  {
    HostReadLeads(s, adapters, offers);
    if s.up < |s.product.out| {
      var m := s.product.out[s.up];
      assert Registered(s, offers, m);
      if m.kind.UpgradeRequest? {
        SelectCases(m.kind.offered.value, adapters);
      }
    }
  }

  lemma ProductReadAgreed(s: System, adapters: set<Format>, offers: set<set<Format>>)
    requires Agreed(s, adapters, offers) && !ProductClash(adapters, offers) && !HostClash(adapters, offers)
    ensures Agreed(ProductRead(s), adapters, offers)
  {
    hide Upgrades;
    hide FallsBack;
    hide Downgrades;
    hide Registered;
    StepLeads(s, adapters, offers, ProductReads);
  }

  lemma ContinueAgreed(s: System, adapters: set<Format>, offers: set<set<Format>>)
    requires Agreed(s, adapters, offers) && !ProductClash(adapters, offers) && !HostClash(adapters, offers)
    ensures Agreed(Continue(s), adapters, offers)
  {
    StepLeads(s, adapters, offers, Continues);
    if s.chosen != [] {
      assert Timely(s, adapters, offers, s.chosen[0]);
    }
  }

  lemma StepAgreed(s: System, adapters: set<Format>, offers: set<set<Format>>, move: Move)
    requires Agreed(s, adapters, offers) && !ProductClash(adapters, offers)
    requires move.Requests? ==> move.offered in offers
    ensures Agreed(Step(s, adapters, move), adapters, offers)
    ensures s.swapped.Some? ==> Step(s, adapters, move).swapped == s.swapped
    ensures Step(s, adapters, move).down >= s.down
  {
    if HostClash(adapters, offers) {
      ProductClashCovers(adapters, offers);
    }
    StepLeads(s, adapters, offers, move);
    match move
    case HostReads => HostReadAgreed(s, adapters, offers);
    case ProductReads => ProductReadAgreed(s, adapters, offers);
    case Continues => ContinueAgreed(s, adapters, offers);
    case _ =>
  }

  lemma {:induction false} RunAgreed(s: System, adapters: set<Format>, offers: set<set<Format>>, moves: seq<Move>)
    requires Agreed(s, adapters, offers) && !ProductClash(adapters, offers) && OffersFrom(moves, offers)
    ensures var s' := RunFrom(s, adapters, moves);
      && Agreed(s', adapters, offers) && s'.down >= s.down
      && (s.swapped.Some? ==> s'.swapped == s.swapped)
    decreases |moves|
  {
    if moves != [] {
      RunAgreed(s, adapters, offers, moves[..|moves| - 1]);
      StepAgreed(RunFrom(s, adapters, moves[..|moves| - 1]), adapters, offers, moves[|moves| - 1]);
    }
  }

  lemma {:induction false} RunConcat(s: System, adapters: set<Format>, first: seq<Move>, later: seq<Move>)
    ensures RunFrom(s, adapters, first + later) == RunFrom(RunFrom(s, adapters, first), adapters, later)
    decreases |later|
  {
    if later == [] {
      assert first + later == first;
    } else {
      RunConcat(s, adapters, first, later[..|later| - 1]);
      assert (first + later)[..|first + later| - 1] == first + later[..|later| - 1];
    }
  }

  // -- Witnesses ---------------------------------------------------------------------------------------------

  lemma RunSnoc(adapters: set<Format>, moves: seq<Move>, move: Move)
    ensures Run(adapters, moves + [move]) == Step(Run(adapters, moves), adapters, move)
  {
    assert (moves + [move])[..|moves|] == moves;
  }

  /** Two requests are under way before the first is answered. */
  function UpgradeMoves(o1: set<Format>, o2: set<Format>, rest: bool): seq<Move> {
    [ListenersChange(true, rest), Requests(o1), Requests(o2), HostReads, ProductReads]
  }

  /** A handler is registered, and both requests are sent in SCALE. */
  lemma BothRequested(adapters: set<Format>, o1: set<Format>, o2: set<Format>, rest: bool)
    requires o1 != {} && o2 != {}
    ensures Run(adapters, [ListenersChange(true, rest), Requests(o1), Requests(o2)]) ==
      Fresh.(handler := true, rest := rest, nextId := 2, waiting := map[0 := o1, 1 := o2],
             product := Endpoint(Scale, [Message(Scale, UpgradeRequest(0, Some(o1))),
                                         Message(Scale, UpgradeRequest(1, Some(o2)))]))
  {
    var m0, m1, m2 := ListenersChange(true, rest), Requests(o1), Requests(o2);
    RunSnoc(adapters, [], m0);
    RunSnoc(adapters, [m0], m1);
    RunSnoc(adapters, [m0, m1], m2);
    assert [] + [m0] == [m0] && [m0] + [m1] == [m0, m1] && [m0, m1] + [m2] == [m0, m1, m2];
    assert Run(adapters, []) == Fresh;
  }

  /** The answer to the first request upgrades both sides. */
  lemma BothUpgraded(adapters: set<Format>, o1: set<Format>, o2: set<Format>, rest: bool)
    requires Upgrades(o1, adapters) && o2 != {}
    ensures var s := Run(adapters, UpgradeMoves(o1, o2, rest));
      && s.product.codec.StructuredClone? && s.host.codec.StructuredClone? && s.handler
      && s.up == 1 && |s.product.out| == 2 && s.product.out[1] == Message(Scale, UpgradeRequest(1, Some(o2)))
      && s.down == |s.host.out| == 1 && s.swapped == Some(0)
      && s.waiting == map[1 := o2] && s.chosen == [Choice(StructuredClone, o1)]
  {
    hide Run;
    var moves := [ListenersChange(true, rest), Requests(o1), Requests(o2)];
    assert o1 != {} by { assert StructuredClone in o1; }
    BothRequested(adapters, o1, o2, rest);
    RunSnoc(adapters, moves, HostReads);
    RunSnoc(adapters, moves + [HostReads], ProductReads);
    assert moves + [HostReads] + [ProductReads] == UpgradeMoves(o1, o2, rest);
    var s := Run(adapters, moves + [HostReads]);
    assert s.host == Endpoint(StructuredClone, [Message(StructuredClone, UpgradeResponse(0, Some(StructuredClone)))]);
  }

  /** The host reads the second request: it is sent back exactly if SCALE is the only common format. */
  lemma RequestRead(adapters: set<Format>, o1: set<Format>, o2: set<Format>, rest: bool)
    requires Upgrades(o1, adapters) && FallsBack(o2, adapters)
    ensures var s := Run(adapters, UpgradeMoves(o1, o2, rest) + [HostReads]);
      && s.product.codec.StructuredClone? && s.swapped == Some(0) && s.down == 1 && |s.host.out| == 2
      && (s.host.codec.Scale? <==> Downgrades(o2, adapters))
      && s.host.out[1] == Message(s.host.codec, UpgradeResponse(1, Some(Scale)))
      && s.waiting == map[1 := o2] && s.chosen == [Choice(StructuredClone, o1)]
  {
    assert o2 != {} by { assert Scale in o2; }
    BothUpgraded(adapters, o1, o2, rest);
    SelectCases(o2, adapters);
    RunSnoc(adapters, UpgradeMoves(o1, o2, rest), HostReads);
    hide Run;
  }

  /** The product reads the fallback and acts on both answers. */
  lemma FallbackFollowed(adapters: set<Format>, o1: set<Format>, o2: set<Format>, rest: bool)
    requires Upgrades(o1, adapters) && FallsBack(o2, adapters)
    ensures var s := Run(adapters, UpgradeMoves(o1, o2, rest) + [HostReads] + [ProductReads] + [Continues] + [Continues]);
      && s.product.codec.Scale? && s.down == |s.host.out|
      && (s.host.codec.Scale? <==> Downgrades(o2, adapters))
  {
    RequestRead(adapters, o1, o2, rest);
    var moves := UpgradeMoves(o1, o2, rest) + [HostReads];
    RunSnoc(adapters, moves, ProductReads);
    RunSnoc(adapters, moves + [ProductReads], Continues);
    RunSnoc(adapters, moves + [ProductReads] + [Continues], Continues);
    hide Run;
    var t := Run(adapters, moves + [ProductReads]);
    assert t.chosen == [Choice(StructuredClone, o1), Choice(Scale, o2)];
  }

  // -- The exact conditions ------------------------------------------------------------------------------------

  /** The product sends structured clone only while the host does. */
  ghost predicate ProductFollows(adapters: set<Format>, moves: seq<Move>) {
    Run(adapters, moves).product.codec.StructuredClone? ==> Run(adapters, moves).host.codec.StructuredClone?
  }

  /** Once on structured clone, the host stays there. */
  ghost predicate HostStays(adapters: set<Format>, first: seq<Move>, later: seq<Move>) {
    Run(adapters, first).host.codec.StructuredClone? ==> Run(adapters, first + later).host.codec.StructuredClone?
  }

  /** Once the product has read anything the host posted from its swap on, both stay on structured clone. */
  ghost predicate BothStay(adapters: set<Format>, first: seq<Move>, later: seq<Move>) {
    Run(adapters, first).swapped.Some? && Run(adapters, first).down > Run(adapters, first).swapped.value ==>
      var s := Run(adapters, first + later); s.product.codec.StructuredClone? && s.host.codec.StructuredClone?
  }

  /** When the product has read all there is, the two codecs are the same. */
  ghost predicate AgreeWhenRead(adapters: set<Format>, moves: seq<Move>) {
    var s := Run(adapters, moves);
    s.down == |s.host.out| ==> s.product.codec == s.host.codec
  }

  /** In every interleaving of such requests the product follows the host: exactly without a host clash. */
  lemma ProductFollowsHostIff(adapters: set<Format>, offers: set<set<Format>>)
    ensures (forall moves | OffersFrom(moves, offers) :: ProductFollows(adapters, moves)) <==> !HostClash(adapters, offers)
  {
    if HostClash(adapters, offers) {
      var o1, o2 :| o1 in offers && o2 in offers && Upgrades(o1, adapters) && Downgrades(o2, adapters);
      SelectCases(o2, adapters);
      RequestRead(adapters, o1, o2, true);
      assert !ProductFollows(adapters, UpgradeMoves(o1, o2, true) + [HostReads]);
    } else {
      forall moves | OffersFrom(moves, offers) ensures ProductFollows(adapters, moves) {
        RunLeads(Fresh, adapters, offers, moves);
      }
    }
  }

  /** The host never reverts, in any run of such requests: exactly without a host clash. */
  lemma HostNeverRevertsIff(adapters: set<Format>, offers: set<set<Format>>)
    ensures (forall first, later | OffersFrom(first, offers) && OffersFrom(later, offers) :: HostStays(adapters, first, later))
       <==> !HostClash(adapters, offers)
  {
    if HostClash(adapters, offers) {
      var o1, o2 :| o1 in offers && o2 in offers && Upgrades(o1, adapters) && Downgrades(o2, adapters);
      SelectCases(o2, adapters);
      assert o2 != {} by { assert Scale in o2; }
      BothUpgraded(adapters, o1, o2, true);
      RequestRead(adapters, o1, o2, true);
      assert !HostStays(adapters, UpgradeMoves(o1, o2, true), [HostReads]);
    } else {
      forall first, later | OffersFrom(first, offers) && OffersFrom(later, offers)
        ensures HostStays(adapters, first, later)
      {
        RunLeads(Fresh, adapters, offers, first);
        RunLeads(Run(adapters, first), adapters, offers, later);
        RunConcat(Fresh, adapters, first, later);
      }
    }
  }

  /** The upgrade is for good on both sides, in any run of such requests: exactly without a product clash. */
  lemma BothStayIff(adapters: set<Format>, offers: set<set<Format>>)
    ensures (forall first, later | OffersFrom(first, offers) && OffersFrom(later, offers) :: BothStay(adapters, first, later))
       <==> !ProductClash(adapters, offers)
  {
    if ProductClash(adapters, offers) {
      var o1, o2 :| o1 in offers && o2 in offers && Upgrades(o1, adapters) && FallsBack(o2, adapters);
      assert o2 != {} by { assert Scale in o2; }
      BothUpgraded(adapters, o1, o2, true);
      FallbackFollowed(adapters, o1, o2, true);
      var first, later := UpgradeMoves(o1, o2, true), [HostReads, ProductReads, Continues, Continues];
      assert first + [HostReads] + [ProductReads] + [Continues] + [Continues] == first + later;
      assert !BothStay(adapters, first, later);
    } else {
      forall first, later | OffersFrom(first, offers) && OffersFrom(later, offers)
        ensures BothStay(adapters, first, later)
      {
        RunAgreed(Fresh, adapters, offers, first);
        RunAgreed(Run(adapters, first), adapters, offers, later);
        RunConcat(Fresh, adapters, first, later);
      }
    }
  }

  /** Whenever the product has read everything the codecs are the same: exactly without a product clash. */
  lemma AgreeWhenReadIff(adapters: set<Format>, offers: set<set<Format>>)
    ensures (forall moves | OffersFrom(moves, offers) :: AgreeWhenRead(adapters, moves)) <==> !ProductClash(adapters, offers)
  {
    if ProductClash(adapters, offers) {
      var o1, o2 :| o1 in offers && o2 in offers && Upgrades(o1, adapters) && FallsBack(o2, adapters);
      var moves := UpgradeMoves(o1, o2, true) + [HostReads] + [ProductReads];
      RequestRead(adapters, o1, o2, true);
      RunSnoc(adapters, UpgradeMoves(o1, o2, true) + [HostReads], ProductReads);
      FallbackFollowed(adapters, o1, o2, true);
      assert !AgreeWhenRead(adapters, moves) || !AgreeWhenRead(adapters, moves + [Continues] + [Continues]);
    } else {
      forall moves | OffersFrom(moves, offers) ensures AgreeWhenRead(adapters, moves) {
        RunAgreed(Fresh, adapters, offers, moves);
      }
    }
  }

  /** The host comes to send structured clone in some run: exactly if some offer upgrades. */
  lemma UpgradesIff(adapters: set<Format>, offers: set<set<Format>>)
    ensures (exists moves :: OffersFrom(moves, offers) && Run(adapters, moves).host.codec.StructuredClone?)
       <==> exists o :: o in offers && Upgrades(o, adapters)
  {
    if o :| o in offers && Upgrades(o, adapters) {
      assert o != {} by { assert StructuredClone in o; }
      BothUpgraded(adapters, o, o, true);
      assert OffersFrom(UpgradeMoves(o, o, true), offers);
    } else {
      forall moves | OffersFrom(moves, offers) ensures Run(adapters, moves).host.codec.Scale? {
        RunLeads(Fresh, adapters, offers, moves);
      }
    }
  }
}
