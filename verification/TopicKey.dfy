/** The multiplex key of a topic list, and the filter semantics it has to respect. */
module TopicKey {
  import opened Common
  import opened Hex

  type Topic = seq<byte>

  /** The order of JavaScript's `sort()` on strings. */
  predicate StringLe(a: string, b: string) {
    a == "" || (b != "" && (a[0] < b[0] || (a[0] == b[0] && StringLe(a[1..], b[1..]))))
  }

  function Insert(x: string, sorted: seq<string>): seq<string> {
    if sorted == [] || StringLe(x, sorted[0]) then [x] + sorted
    else [sorted[0]] + Insert(x, sorted[1..])
  }

  function Sort(s: seq<string>): seq<string> {
    if s == [] then [] else Insert(s[0], Sort(s[1..]))
  }

  function Join(parts: seq<string>): string {
    if parts == [] then ""
    else if |parts| == 1 then parts[0]
    else parts[0] + "|" + Join(parts[1..])
  }

  function HexAll(topics: seq<Topic>): (r: seq<string>)
    ensures |r| == |topics|
  {
    if topics == [] then [] else [BytesToHex(topics[0])] + HexAll(topics[1..])
  }

  function SubscriptionKey(topics: seq<Topic>): string { Join(Sort(HexAll(topics))) }

  /** Every filter topic occurs among the statement's topics; the empty filter matches all. */
  predicate MatchAll(statementTopics: Option<seq<Topic>>, filter: seq<Topic>) {
    if filter == [] then true
    else if statementTopics.None? || statementTopics.value == [] then false
    else forall t <- filter :: t in statementTopics.value
  }

  ghost predicate StandsIn(topics: seq<Topic>, t: Topic) { exists j :: 0 <= j < |topics| && topics[j] == t }

  lemma StandsInIff(topics: seq<Topic>, t: Topic)
    ensures t in topics <==> StandsIn(topics, t)
  {
  }

  /** In terms of places: each filter topic stands somewhere among the statement's. */
  lemma MatchAllIff(statementTopics: Option<seq<Topic>>, filter: seq<Topic>)
    ensures MatchAll(statementTopics, filter) <==>
      forall i :: 0 <= i < |filter| ==> StandsIn(if statementTopics.Some? then statementTopics.value else [], filter[i])
  {
    var topics := if statementTopics.Some? then statementTopics.value else [];
    forall t ensures t in topics <==> StandsIn(topics, t) {
      StandsInIff(topics, t);
    }
    hide StandsIn;
    if filter != [] && topics == [] {
      assert !StandsIn(topics, filter[0]);
    }
    assert forall i :: 0 <= i < |filter| ==> filter[i] in filter;
  }

  // -- Sorting is canonical --------------------------------------------------------

  lemma {:induction false} StringLeTotal(a: string, b: string)
    ensures StringLe(a, b) || StringLe(b, a)
    ensures StringLe(a, b) && StringLe(b, a) ==> a == b
  {
    if a != "" && b != "" {
      StringLeTotal(a[1..], b[1..]);
      if a[0] == b[0] && a[1..] == b[1..] {
        assert a == [a[0]] + a[1..] == b;
      }
    }
  }

  lemma {:induction false} StringLeTransitive(a: string, b: string, c: string)
    requires StringLe(a, b) && StringLe(b, c)
    ensures StringLe(a, c)
  {
    if a != "" {
      if a[0] == b[0] == c[0] {
        StringLeTransitive(a[1..], b[1..], c[1..]);
      }
    }
  }

  ghost predicate IsSorted(s: seq<string>) {
    s == [] || ((forall x <- s[1..] :: StringLe(s[0], x)) && IsSorted(s[1..]))
  }

  lemma {:induction false} InsertSorted(x: string, s: seq<string>)
    requires IsSorted(s)
    ensures IsSorted(Insert(x, s))
    ensures multiset(Insert(x, s)) == multiset(s) + multiset{x}
  {
    hide StringLe;
    if s == [] {
    } else if StringLe(x, s[0]) {
      assert ([x] + s)[1..] == s;
      forall y <- s ensures StringLe(x, y) {
        if y != s[0] {
          assert y in s[1..];
          StringLeTransitive(x, s[0], y);
        }
      }
    } else {
      var tail := Insert(x, s[1..]);
      InsertSorted(x, s[1..]);
      StringLeTotal(x, s[0]);
      BelowInserted(x, s, tail);
      assert s == [s[0]] + s[1..];
      assert ([s[0]] + tail)[1..] == tail;
    }
  }

  lemma BelowInserted(x: string, s: seq<string>, tail: seq<string>)
    requires s != [] && IsSorted(s) && StringLe(s[0], x) && multiset(tail) == multiset(s[1..]) + multiset{x}
    ensures forall y <- tail :: StringLe(s[0], y)
  {
    hide StringLe;
    forall y <- tail ensures StringLe(s[0], y) {
      assert y in multiset(tail);
      assert y == x || y in s[1..];
    }
  }

  lemma {:induction false} SortSorted(s: seq<string>)
    ensures IsSorted(Sort(s)) && multiset(Sort(s)) == multiset(s)
  {
    if s != [] {
      SortSorted(s[1..]);
      InsertSorted(s[0], Sort(s[1..]));
      assert s == [s[0]] + s[1..];
    }
  }

  lemma TailMultiset(s: seq<string>)
    requires s != []
    ensures multiset(s[1..]) == multiset(s) - multiset{s[0]} && s == [s[0]] + s[1..]
  {
    assert s == [s[0]] + s[1..];
  }

  lemma SameElement(a: seq<string>, b: seq<string>)
    requires multiset(a) == multiset(b) && b != []
    ensures b[0] in a
  {
    assert b[0] in multiset(b);
  }

  lemma FirstIsLeast(a: seq<string>, x: string)
    requires IsSorted(a) && x in a
    ensures StringLe(a[0], x)
  {
    StringLeTotal(x, x);
    if x != a[0] {
      assert x in a[1..];
    }
  }

  lemma {:induction false} SortedUnique(a: seq<string>, b: seq<string>)
    requires IsSorted(a) && IsSorted(b) && multiset(a) == multiset(b)
    ensures a == b
  {
    hide StringLe;
    assert |multiset(a)| == |a| && |multiset(b)| == |b|;
    if a != [] {
      SameElement(b, a);
      SameElement(a, b);
      FirstIsLeast(a, b[0]);
      FirstIsLeast(b, a[0]);
      StringLeTotal(a[0], b[0]);
      TailMultiset(a);
      TailMultiset(b);
      SortedUnique(a[1..], b[1..]);
    }
  }

  // -- Joining is injective --------------------------------------------------------

  /** The text before the first bar. */
  function Head(s: string): string {
    if s == "" || s[0] == '|' then "" else [s[0]] + Head(s[1..])
  }

  lemma {:induction false} HeadOfCut(x: string, u: string)
    requires '|' !in x
    ensures Head(x + "|" + u) == x && Head(x) == x
  {
    if x == "" {
      assert (x + "|" + u)[0] == '|';
    } else {
      HeadOfCut(x[1..], u);
      assert (x + "|" + u)[1..] == x[1..] + "|" + u;
    }
  }

  ghost predicate Separable(parts: seq<string>) {
    forall i :: 0 <= i < |parts| ==> parts[i] != "" && '|' !in parts[i]
  }

  lemma JoinShape(parts: seq<string>)
    requires Separable(parts)
    ensures parts != [] ==> Join(parts) != "" && Head(Join(parts)) == parts[0]
    ensures |parts| > 1 ==> Join(parts)[|parts[0]| + 1..] == Join(parts[1..])
    ensures |parts| > 1 <==> '|' in Join(parts)
  {
    if parts != [] {
      HeadOfCut(parts[0], Join(parts[1..]));
      if |parts| > 1 {
        assert Join(parts)[|parts[0]|] == '|';
      }
    }
  }

  lemma {:induction false} JoinInjective(a: seq<string>, b: seq<string>)
    requires Separable(a) && Separable(b) && Join(a) == Join(b)
    ensures a == b
  {
    JoinShape(a);
    JoinShape(b);
    if a != [] && b != [] {
      assert a == [a[0]] + a[1..] && b == [b[0]] + b[1..];
      if |a| > 1 {
        JoinInjective(a[1..], b[1..]);
      }
    }
  }

  // -- Same key, same filter ---------------------------------------------------------

  /** How often a text occurs among the hex forms: as often as the bytes it stands for. */
  lemma {:induction false} HexAllCount(topics: seq<Topic>, z: string)
    ensures multiset(HexAll(topics))[z] == if BytesToHex(HexToBytes(z)) == z then multiset(topics)[HexToBytes(z)] else 0
  {
    hide BytesToHex;
    hide HexToBytes;
    if topics != [] {
      HexAllCount(topics[1..], z);
      HexRoundTrip(topics[0]);
      assert topics == [topics[0]] + topics[1..];
      assert HexAll(topics)[0] == BytesToHex(topics[0]);
    }
  }

  lemma HexAllPermutation(a: seq<Topic>, b: seq<Topic>)
    ensures multiset(HexAll(a)) == multiset(HexAll(b)) <==> multiset(a) == multiset(b)
  {
    if multiset(HexAll(a)) == multiset(HexAll(b)) {
      forall t: Topic ensures multiset(a)[t] == multiset(b)[t] {
        HexRoundTrip(t);
        HexAllCount(a, BytesToHex(t));
        HexAllCount(b, BytesToHex(t));
      }
    }
    if multiset(a) == multiset(b) {
      forall z: string ensures multiset(HexAll(a))[z] == multiset(HexAll(b))[z] {
        HexAllCount(a, z);
        HexAllCount(b, z);
      }
    }
  }

  lemma {:induction false} HexAllSeparable(topics: seq<Topic>)
    ensures Separable(HexAll(topics))
  {
    if topics != [] {
      HexAllSeparable(topics[1..]);
      HexRoundTrip(topics[0]);
      assert HexAll(topics)[1..] == HexAll(topics[1..]);
    }
  }

  lemma SortSeparable(s: seq<string>)
    requires Separable(s)
    ensures Separable(Sort(s))
  {
    SortSorted(s);
    forall i | 0 <= i < |Sort(s)| ensures Sort(s)[i] != "" && '|' !in Sort(s)[i] {
      assert Sort(s)[i] in multiset(Sort(s));
      assert Sort(s)[i] in s;
    }
  }

  /** Two topic lists share a multiplex key exactly when one is a reordering of the other. */
  lemma KeyIffPermutation(a: seq<Topic>, b: seq<Topic>)
    ensures SubscriptionKey(a) == SubscriptionKey(b) <==> multiset(a) == multiset(b)
  {
    var x, y := HexAll(a), HexAll(b);
    HexAllPermutation(a, b);
    SortSorted(x);
    SortSorted(y);
    if multiset(x) == multiset(y) {
      SortedUnique(Sort(x), Sort(y));
    }
    HexAllSeparable(a);
    HexAllSeparable(b);
    SortSeparable(x);
    SortSeparable(y);
    if Join(Sort(x)) == Join(Sort(y)) {
      JoinInjective(Sort(x), Sort(y));
    }
  }

  /** Callers that share a key agree on every statement. */
  lemma SameKeySameFilter(a: seq<Topic>, b: seq<Topic>, statementTopics: Option<seq<Topic>>)
    requires SubscriptionKey(a) == SubscriptionKey(b)
    ensures MatchAll(statementTopics, a) == MatchAll(statementTopics, b)
  {
    KeyIffPermutation(a, b);
    assert forall t :: t in a <==> t in multiset(a);
    assert forall t :: t in b <==> t in multiset(b);
    assert |multiset(a)| == |a| && |multiset(b)| == |b|;
  }
}
