/** The Redis keys of the two cached endpoints, as the f-strings print them. */
module CacheKey {
  /** What a request asks the database for. */
  datatype Ask = GasMetrics | Trending(hours: int, limit: int)

  const DIGITS := "0123456789"

  function NatText(n: nat): string {
    (if n < 10 then "" else NatText(n / 10)) + [DIGITS[n % 10]]
  }

  function IntText(i: int): string {
    if i < 0 then "-" + NatText(-i) else NatText(i)
  }

  const HEAD := "trending_tokens:"
  const MIDDLE := ":limit_"

  function NameOf(ask: Ask): string {
    match ask
    case GasMetrics => "cache:gas_metrics:5min"
    case Trending(hours, limit) => HEAD + (IntText(hours) + "h" + (MIDDLE + IntText(limit)))
  }

  function DigitValue(c: char): nat {
    if '0' <= c <= '9' then c as nat - '0' as nat else 0
  }

  function ReadNat(s: string): nat {
    if s == [] then 0 else 10 * ReadNat(s[..|s| - 1]) + DigitValue(s[|s| - 1])
  }

  function ReadInt(s: string): int {
    if s != [] && s[0] == '-' then 0 - ReadNat(s[1..]) else ReadNat(s)
  }

  predicate AllDigits(s: string) { forall i :: 0 <= i < |s| ==> '0' <= s[i] <= '9' }

  lemma DigitReads(d: nat)
    requires d < 10
    ensures DigitValue(DIGITS[d]) == d && '0' <= DIGITS[d] <= '9'
  {
  }

  lemma {:induction false} NatRoundTrip(n: nat)
    ensures ReadNat(NatText(n)) == n && |NatText(n)| > 0 && AllDigits(NatText(n))
    ensures NatText(n)[0] == '0' ==> n == 0 && NatText(n) == "0"
  {
    DigitReads(n % 10);
    if n >= 10 { NatRoundTrip(n / 10); }
    var front := if n < 10 then "" else NatText(n / 10);
    assert NatText(n)[..|NatText(n)| - 1] == front;
  }

  lemma NatFacts(n: nat)
    ensures ReadInt(NatText(n)) == n && |NatText(n)| > 0 && NatText(n)[0] != '-' && (NatText(n)[0] == '0' ==> NatText(n) == "0")
    ensures forall k :: 0 <= k < |NatText(n)| ==> NatText(n)[k] != 'h'
  {
    NatRoundTrip(n);
  }

  lemma MinusFacts(t: string)
    requires forall k :: 0 <= k < |t| ==> t[k] != 'h'
    ensures ReadInt("-" + t) == 0 - ReadNat(t) && ("-" + t)[0] == '-'
    ensures forall k :: 0 <= k < |"-" + t| ==> ("-" + t)[k] != 'h'
  {
    assert ("-" + t)[1..] == t;
  }

  /** A printed integer reads back as itself; it has a minus sign exactly when negative, no leading zero and no 'h'. */
  lemma IntRoundTrip(i: int)
    ensures ReadInt(IntText(i)) == i
    ensures forall k :: 0 <= k < |IntText(i)| ==> IntText(i)[k] != 'h'
    ensures |IntText(i)| > 0 && (IntText(i)[0] == '-' <==> i < 0) && (IntText(i)[0] == '0' ==> IntText(i) == "0")
  {
    if i < 0 {
      NatRoundTrip(-i);
      NatFacts(-i);
      MinusFacts(NatText(-i));
    } else {
      NatFacts(i);
    }
  }

  function FirstMark(s: string): nat {
    if s == [] || s[0] == 'h' then 0 else 1 + FirstMark(s[1..])
  }

  lemma {:induction false} MarkAfter(a: string, x: string)
    requires forall k :: 0 <= k < |a| ==> a[k] != 'h'
    ensures FirstMark(a + "h" + x) == |a|
  {
    if a == [] {
      assert (a + "h" + x)[0] == 'h';
    } else {
      MarkAfter(a[1..], x);
      assert (a + "h" + x)[1..] == a[1..] + "h" + x;
    }
  }

  /** The first 'h' separates what is before it from what is after. */
  lemma SplitAtMark(a: string, x: string, b: string, y: string)
    requires (forall k :: 0 <= k < |a| ==> a[k] != 'h') && (forall k :: 0 <= k < |b| ==> b[k] != 'h')
    requires a + "h" + x == b + "h" + y
    ensures a == b && x == y
  {
    MarkAfter(a, x);
    MarkAfter(b, y);
    assert a == (a + "h" + x)[..|a|] && b == (b + "h" + y)[..|b|];
    assert x == (a + "h" + x)[|a| + 1..] && y == (b + "h" + y)[|b| + 1..];
  }

  lemma StripHead(p: string, a: string, b: string)
    requires p + a == p + b
    ensures a == b
  {
    assert a == (p + a)[|p|..] && b == (p + b)[|p|..];
  }

  lemma TextsDetermine(hours: int, limit: int, hours': int, limit': int, head: string, middle: string)
    requires head + (IntText(hours) + "h" + (middle + IntText(limit))) == head + (IntText(hours') + "h" + (middle + IntText(limit')))
    ensures hours == hours' && limit == limit'
  {
    StripHead(head, IntText(hours) + "h" + (middle + IntText(limit)), IntText(hours') + "h" + (middle + IntText(limit')));
    IntRoundTrip(hours);
    IntRoundTrip(hours');
    SplitAtMark(IntText(hours), middle + IntText(limit), IntText(hours'), middle + IntText(limit'));
    StripHead(middle, IntText(limit), IntText(limit'));
    IntRoundTrip(limit);
    IntRoundTrip(limit');
  }

  lemma Glue(head: string, t: string, mark: string, middle: string, u: string)
    ensures head + (t + mark + (middle + u)) == head + t + (mark + middle) + u
  {
  }

  /** What the f-strings print. */
  lemma NamesAre(hours: int, limit: int)
    ensures NameOf(GasMetrics) == "cache:gas_metrics:5min"
    ensures NameOf(Trending(hours, limit)) == "trending_tokens:" + IntText(hours) + "h:limit_" + IntText(limit)
  {
    Glue(HEAD, IntText(hours), "h", MIDDLE, IntText(limit));
    assert "h" + ":limit_" == "h:limit_";
  }

  /** Two requests share a Redis key only when they ask for the same thing. */
  lemma NamesAreInjective(p: Ask, q: Ask)
    requires NameOf(p) == NameOf(q)
    ensures p == q
  {
    assert NameOf(GasMetrics)[0] == 'c';
    assert HEAD[0] == 't';
    if p.Trending? && q.Trending? {
      TextsDetermine(p.hours, p.limit, q.hours, q.limit, HEAD, MIDDLE);
    }
  }
}
