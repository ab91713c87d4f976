/** Decimal text: the port ranges kings register ("from-to") and the addresses lings
    use as map keys. */
module Text {
  import opened Basics

  const MIN_INT64: int := -0x8000_0000_0000_0000
  const MAX_INT64: int := 0x7FFF_FFFF_FFFF_FFFF

  predicate IsDigit(c: char) {
    '0' <= c <= '9'
  }

  predicate AllDigits(s: string) {
    forall i :: 0 <= i < |s| ==> IsDigit(s[i])
  }

  function Dec(n: nat): (s: string)
    ensures s != [] && AllDigits(s)
  {
    var d := ['0' + (n % 10) as char];
    if n < 10 then d else Dec(n / 10) + d
  }

  /** strconv.Itoa */
  function Itoa(n: int): string {
    if n < 0 then "-" + Dec(-n) else Dec(n)
  }

  function DigitValue(c: char): nat
    requires IsDigit(c)
  {
    (c - '0') as nat
  }

  function DecValue(s: string): (v: int)
    requires AllDigits(s)
    ensures 0 <= v
  {
    if s == [] then 0 else
      DecValue(Front(s)) * 10 + DigitValue(s[|s| - 1])
  }

  /** strconv.Atoi: an optional sign, at least one digit, and a value that fits 64 bits. */
  function Atoi(s: string): Option<int> {
    var negative := s != [] && s[0] == '-';
    var digits := if s != [] && (s[0] == '-' || s[0] == '+') then s[1..] else s;
    if digits == [] || !AllDigits(digits) then None
    else
      var v: int := if negative then -DecValue(digits) else DecValue(digits);
      if MIN_INT64 <= v <= MAX_INT64 then Some(v) else None
  }

  function IndexOf(s: string, c: char): (r: Option<nat>)
    ensures r.Some? ==> r.value < |s| && s[r.value] == c && c !in s[..r.value]
    ensures r.None? ==> c !in s
  {
    if s == [] then None
    else if s[0] == c then Some(0)
    else match IndexOf(s[1..], c)
      case None => None
      case Some(i) => Some(i + 1)
  }

  /** The bounds in a king's "from-to" text: split at the first '-', both halves integers. */
  function ParseRange(ports: string): Option<(int, int)> {
    match IndexOf(ports, '-')
    case None => None
    case Some(i) =>
      match (Atoi(ports[..i]), Atoi(ports[i + 1..]))
      case (Some(lo), Some(hi)) => Some((lo, hi))
      case _ => None
  }

  function Bracket(host: string): string {
    if ':' in host then "[" + host + "]" else host
  }

  /** net.JoinHostPort(host, strconv.Itoa(port)) */
  function JoinHostPort(host: string, port: int): string {
    Bracket(host) + ":" + Itoa(port)
  }

  lemma {:induction false} DecRoundTrip(n: nat)
    ensures DecValue(Dec(n)) == n
  {
    if n >= 10 {
      DecRoundTrip(n / 10);
      assert Front(Dec(n)) == Dec(n / 10);
    }
  }

  lemma AtoiSigned(digits: string, negative: bool)
    requires digits != [] && AllDigits(digits)
    ensures
      var v: int := if negative then -DecValue(digits) else DecValue(digits);
      Atoi(if negative then "-" + digits else digits) == if MIN_INT64 <= v <= MAX_INT64 then Some(v) else None
  {
    var s := if negative then "-" + digits else digits;
    if negative {
      assert s[1..] == digits;
    } else {
      assert IsDigit(s[0]);
    }
  }

  lemma AtoiItoa(n: int)
    ensures Atoi(Itoa(n)) ==
      if -9_223_372_036_854_775_808 <= n <= 9_223_372_036_854_775_807 then Some(n) else None
  {
    var m: nat := if n < 0 then -n else n;
    DecRoundTrip(m);
    AtoiSigned(Dec(m), n < 0);
  }

  /** Text reads as a 64-bit integer exactly when it is one or more decimal digits, perhaps behind one sign, and the
      value fits. */
  lemma {:induction false} AtoiIff(s: string, v: int)
    ensures Atoi(s) == Some(v) <==>
      && -9_223_372_036_854_775_808 <= v <= 9_223_372_036_854_775_807
      && exists digits ::
        && digits != "" && AllDigits(digits)
        && (|| ((s == digits || s == "+" + digits) && v == DecValue(digits))
            || (s == "-" + digits && v == -DecValue(digits)))
  {
    if Atoi(s) == Some(v) {
      var digits := if s[0] == '-' || s[0] == '+' then s[1..] else s;
      assert s[0] == '-' ==> s == "-" + digits;
      assert s[0] == '+' ==> s == "+" + digits;
    }
    forall digits | digits != "" && AllDigits(digits)
      ensures s == digits || s == "+" + digits ==>
        Atoi(s) == if DecValue(digits) <= MAX_INT64 then Some(DecValue(digits)) else None
      ensures s == "-" + digits ==> Atoi(s) == if MIN_INT64 <= -DecValue(digits) then Some(-DecValue(digits)) else None
    {
      assert IsDigit(digits[0]);
      assert s == "+" + digits || s == "-" + digits ==> s[1..] == digits;
    }
  }

  /** Text is a range exactly when both sides of its first '-' read as integers. */
  lemma ParseRangeIff(ports: string, lo: int, hi: int)
    ensures ParseRange(ports) == Some((lo, hi)) <==>
      exists a, b :: ports == a + "-" + b && '-' !in a && Atoi(a) == Some(lo) && Atoi(b) == Some(hi)
  {
    hide Atoi;
    if ParseRange(ports) == Some((lo, hi)) {
      var i := IndexOf(ports, '-').value;
      assert ports == ports[..i] + "-" + ports[i + 1..];
    }
    if a, b :| ports == a + "-" + b && '-' !in a && Atoi(a) == Some(lo) && Atoi(b) == Some(hi) {
      IndexOfFirst(a, '-', b);
      assert ports[..|a|] == a && ports[|a| + 1..] == b;
    }
  }

  lemma {:induction false} IndexOfFirst(a: string, c: char, b: string)
    requires c !in a
    ensures IndexOf(a + [c] + b, c) == Some(|a|)
  {
    if a != [] {
      IndexOfFirst(a[1..], c, b);
      assert (a + [c] + b)[1..] == a[1..] + [c] + b;
    }
  }

  /** A range written in decimal reads back as itself exactly when its lower end is not
      negative: a leading minus sign is taken for the separator. */
  lemma RangeRoundTrip(lo: int, hi: int)
    requires MIN_INT64 <= lo <= MAX_INT64 && MIN_INT64 <= hi <= MAX_INT64
    ensures ParseRange(Itoa(lo) + "-" + Itoa(hi)) == Some((lo, hi)) <==> 0 <= lo
    ensures lo < 0 ==> ParseRange(Itoa(lo) + "-" + Itoa(hi)) == None
  {
    var s := Itoa(lo) + "-" + Itoa(hi);
    if 0 <= lo {
      IndexOfFirst(Itoa(lo), '-', Itoa(hi));
      assert s[..|Itoa(lo)|] == Itoa(lo) && s[|Itoa(lo)| + 1..] == Itoa(hi);
      AtoiItoa(lo);
      AtoiItoa(hi);
    } else {
      assert s[0] == '-' && s[..0] == [];
      assert Atoi(s[..0]) == None;
    }
  }

  /** port++ on a 64-bit integer. */
  function NextPort(port: int): int {
    if port == MAX_INT64 then MIN_INT64 else port + 1
  }

  /** The loop variable after n rounds. */
  function PortAfter(from: int, n: nat): int {
    if n == 0 then from else NextPort(PortAfter(from, n - 1))
  }

  lemma {:induction false} PortsCount(from: int, n: nat)
    requires MIN_INT64 <= from && from + n <= MAX_INT64
    ensures PortAfter(from, n) == from + n
  {
    if n > 0 {
      PortsCount(from, n - 1);
    }
  }

  lemma {:induction false} PortsBounded(from: int, n: nat)
    requires MIN_INT64 <= from <= MAX_INT64
    ensures MIN_INT64 <= PortAfter(from, n) <= MAX_INT64
  {
    if n > 0 {
      PortsBounded(from, n - 1);
    }
  }

  /** The loop over a range of 64-bit bounds ends if and only if the upper bound is not the largest integer; then
      it counts from the lower bound to one past the upper. */
  lemma PortLoopEndsIff(from: int, to: int)
    requires MIN_INT64 <= from <= MAX_INT64 && MIN_INT64 <= to <= MAX_INT64
    ensures (exists n :: PortAfter(from, n) > to) <==> to < MAX_INT64
    ensures to < MAX_INT64 ==> forall n: nat :: from + n <= to + 1 ==> PortAfter(from, n) == from + n
  {
    if to < MAX_INT64 {
      forall n: nat | from + n <= to + 1 ensures PortAfter(from, n) == from + n {
        PortsCount(from, n);
      }
      var rounds: nat := if from <= to then to + 1 - from else 0;
      PortsCount(from, rounds);
      assert PortAfter(from, rounds) == from + rounds > to;
    } else {
      forall n: nat ensures PortAfter(from, n) <= to {
        PortsBounded(from, n);
      }
    }
  }

  /** Text before the last colon and text after it determine each other's split. */
  lemma LastColon(a: string, p: string, b: string, q: string)
    requires a + ":" + p == b + ":" + q && ':' !in p && ':' !in q
    ensures a == b && p == q
  {
    var s := a + ":" + p;
    assert s[|a|] == ':' && s[|b|] == ':';
    if |a| == |b| {
      assert a == s[..|a|] && b == s[..|a|];
      assert p == s[|a| + 1..] && q == s[|a| + 1..];
    } else {
      assert false;
    }
  }

  lemma BracketInjective(h1: string, h2: string)
    requires Bracket(h1) == Bracket(h2)
    ensures h1 == h2
  {
    assert ':' in h1 <==> ':' in Bracket(h1);
    assert ':' in h2 <==> ':' in Bracket(h2);
    if ':' in h1 {
      assert h1 == Bracket(h1)[1..|h1| + 1] && h2 == Bracket(h2)[1..|h2| + 1];
    }
  }

  lemma ItoaInjective(m: int, n: int)
    requires Itoa(m) == Itoa(n)
    ensures m == n
  {
    DecRoundTrip(if m < 0 then -m else m);
    DecRoundTrip(if n < 0 then -n else n);
    if m < 0 {
      assert Dec(-m) == Itoa(m)[1..];
      assert !IsDigit(Itoa(m)[0]);
    }
    if n < 0 {
      assert Dec(-n) == Itoa(n)[1..];
      assert !IsDigit(Itoa(n)[0]);
    }
  }

  /** Hosts with a colon are bracketed, as IPv6 addresses are. */
  lemma AddressText()
    ensures JoinHostPort("burrow.example", 80) == "burrow.example:80" && JoinHostPort("::1", 80) == "[::1]:80"
  {
    assert Itoa(80) == "80";
    assert "::1"[0] == ':';
  }

  /** Distinct (host, port) pairs have distinct address keys, bracketed hosts included. */
  lemma AddressInjective(h1: string, p1: int, h2: string, p2: int)
    requires JoinHostPort(h1, p1) == JoinHostPort(h2, p2)
    ensures h1 == h2 && p1 == p2
  {
    LastColon(Bracket(h1), Itoa(p1), Bracket(h2), Itoa(p2));
    BracketInjective(h1, h2);
    ItoaInjective(p1, p2);
  }
}
