/**
 * The two latencies stamped on every response: `internal` (queueing, from the
 * request's creation to dispatch) and `network` (from dispatch to completion),
 * both in milliseconds, and their printed form.
 */
module Latency {
  import opened Base
  import opened Decimal

  const Prefix: string := "{internal: "
  const Separator: string := ", network: "
  const Suffix: string := "}"

  /** `new Latency(internal, network)` stores both values as given. */
  datatype Latency = Latency(internal: Int64, network: Int64) {

    /** `Latency.toString()`. */
    function ToString(): (s: string)
      ensures |s| > |Prefix| + |Separator| + |Suffix|
      ensures s[..|Prefix|] == Prefix && s[|s| - 1..] == Suffix
    {
      Prefix + IntToString(internal) + Separator + IntToString(network) + Suffix
    }
  }

  /** Position of the first `c` in `s`, or `|s|` when there is none. */
  function IndexOf(s: string, c: char): (k: nat)
    ensures k <= |s|
    ensures k < |s| ==> s[k] == c
    ensures forall j :: 0 <= j < k ==> s[j] != c
  {
    if s == [] then 0 else if s[0] == c then 0 else 1 + IndexOf(s[1..], c)
  }

  lemma {:induction false} IndexOfAfter(a: string, b: string, c: char)
    requires c !in a && |b| > 0 && b[0] == c
    ensures IndexOf(a + b, c) == |a|
    decreases |a|
  {
    if a != [] {
      assert (a + b)[1..] == a[1..] + b;
      IndexOfAfter(a[1..], b, c);
    }
  }

  /** Reads back a printed latency; `None` for any string `ToString` cannot produce. */
  function Parse(s: string): (r: Option<Latency>)
    ensures r.Some? ==> |s| >= |Prefix| + |Suffix| && s[..|Prefix|] == Prefix && s[|s| - 1..] == Suffix
  {
    if |s| < |Prefix| + |Suffix| || s[..|Prefix|] != Prefix || s[|s| - 1..] != Suffix then None
    else
      var mid := s[|Prefix|..|s| - 1];
      var k := IndexOf(mid, ',');
      if k + |Separator| > |mid| || mid[k..k + |Separator|] != Separator then None
      else
        match (ParseInt(mid[..k]), ParseInt(mid[k + |Separator|..]))
        case (Some(a), Some(b)) =>
          if -TWO_63 <= a < TWO_63 && -TWO_63 <= b < TWO_63 then Some(Latency(a, b)) else None
        case _ => None
  }

  /** The printed form loses nothing: it parses back to the same two values. */
  lemma ParseToString(l: Latency)
    ensures Parse(l.ToString()) == Some(l)
  {
    var a, b := IntToString(l.internal), IntToString(l.network);
    var s := l.ToString();
    var mid := a + Separator + b;
    assert s == Prefix + mid + Suffix;
    assert s[|Prefix|..|s| - 1] == mid;
    IndexOfAfter(a, Separator + b, ',');
    assert mid == a + (Separator + b);
    var k := |a|;
    assert mid[..k] == a;
    assert mid[k..k + |Separator|] == Separator;
    assert mid[k + |Separator|..] == b;
    IntToStringRoundTrip(l.internal);
    IntToStringRoundTrip(l.network);
  }

  /** Latencies print equally exactly when their fields are equal. */
  lemma ToStringInjective(l: Latency, m: Latency)
    ensures l.ToString() == m.ToString() <==> l == m
  {
    ParseToString(l);
    ParseToString(m);
  }
}
