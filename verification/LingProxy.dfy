/** A ling's TCP proxy: the channel that wakes waiting connections, and round-robin selection. */
module LingProxy {
  import opened Basics
  import opened LingReaction

  // ---------------------------------------------------------------- the hasTargets channel

  /** A channel that carries no values; it is open until it is closed, once. */
  class Signal {
    var closed: bool

    constructor ()
      ensures !closed
    {
      closed := false;
    }

    /** Closing a closed channel panics, so callers must know that it is open. */
    method Close()
      requires !closed
      modifies this
      ensures closed
    {
      closed := true;
    }
  }

  const TWO_TO_64: nat := 0x1_0000_0000_0000_0000

  /** What Add(1) - 1 yields on 64-bit words is the value before. */
  lemma AddThenSubtract(c: nat)
    requires c < TWO_TO_64
    ensures 0 <= (c + 1) % TWO_TO_64 < TWO_TO_64 && ((c + 1) % TWO_TO_64 - 1) % TWO_TO_64 == c
  {
    if c + 1 == TWO_TO_64 {
      assert (c + 1) % TWO_TO_64 == 0;
    } else {
      assert (c + 1) % TWO_TO_64 == c + 1;
    }
  }

  class TCPProxy {
    var targets: seq<ProxyTarget>
    var hasTargets: Signal
    var counter: nat
    var closeDone: bool
    /** Whether the listener is open, the tracked upstream connections by address, and those closed by close. */
    var listening: bool
    var upstreams: map<string, seq<int>>
    var closedConns: set<int>
    /** Every channel this proxy has ever handed to a waiter, the current one included. */
    ghost var generations: set<Signal>

    /** No waiter is left behind: while there are targets every channel is closed, and a replaced channel
        always is. Until close, the current channel is closed exactly when there are targets. */
    ghost predicate Valid()
      reads this, generations
    {
      && hasTargets in generations && counter < TWO_TO_64
      && (forall g :: g in generations && g != hasTargets ==> g.closed)
      && (targets != [] ==> hasTargets.closed)
      && (!closeDone ==> (hasTargets.closed <==> targets != []))
    }

    constructor ()
      ensures Valid() && fresh(generations) && targets == [] && !closeDone && counter == 0
      ensures !listening && upstreams == map[] && closedConns == {}
    {
      var g := new Signal();
      targets, hasTargets, counter, closeDone, generations := [], g, 0, false, {g};
      listening, upstreams, closedConns := false, map[], {};
    }

    /** The channel is closed when targets appear and replaced by an open one when they are gone. No other
        channel changes, and none is reopened. */
    method UpdateTargets(newTargets: seq<ProxyTarget>)
      requires Valid()
      modifies this`targets, this`hasTargets, this`generations, hasTargets
      ensures Valid() && targets == newTargets
      ensures hasTargets.closed <==> targets != []
      ensures old(generations) <= generations && fresh(generations - old(generations))
      ensures forall g :: g in old(generations) && old(g.closed) ==> g.closed
    {
      targets := newTargets;
      if |newTargets| > 0 {
        if !hasTargets.closed {
          hasTargets.Close();
        }
      } else {
        if hasTargets.closed {
          hasTargets := new Signal();
          generations := generations + {hasTargets};
        }
      }
    }

    /** What waitForTarget reads under the lock: the targets and the channel to block on if there are none. */
    method Look() returns (seen: seq<ProxyTarget>, wait: Signal)
      requires Valid()
      ensures seen == targets && wait in generations && (seen == [] && !closeDone ==> !wait.closed)
    {
      seen, wait := targets, hasTargets;
    }

    /** What it does after unlocking if there were targets: the next position in turn, of the targets it saw. */
    method Pick(seen: seq<ProxyTarget>) returns (target: ProxyTarget)
      requires Valid() && seen != []
      modifies this`counter
      ensures Valid() && counter == (old(counter) + 1) % 18_446_744_073_709_551_616
      ensures target == seen[old(counter) % |seen|]
    {
      AddThenSubtract(counter);
      var added := (counter + 1) % TWO_TO_64;
      var idx := (added - 1) % TWO_TO_64;
      counter := added;
      target := seen[idx % |seen|];
    }

    /** One turn of the wait loop: a target, or nothing when the channel it has to wait for stays open until the
        deadline. */
    method TryTarget() returns (target: Option<ProxyTarget>, wait: Signal)
      requires Valid()
      modifies this`counter
      ensures Valid() && wait in generations
      ensures targets == [] ==> target == None && counter == old(counter) && (!closeDone ==> !wait.closed)
      ensures targets != [] ==> target == Some(targets[old(counter) % |targets|])
    {
      var seen;
      seen, wait := Look();
      if |seen| > 0 {
        var picked := Pick(seen);
        target := Some(picked);
      } else {
        target := None;
      }
    }

    method TrackUpstream(addr: string, conn: int)
      modifies this`upstreams
      ensures upstreams ==
        old(upstreams)[addr := (if addr in old(upstreams) then old(upstreams)[addr] else []) + [conn]]
    {
      upstreams := upstreams[addr := (if addr in upstreams then upstreams[addr] else []) + [conn]];
    }

    /** Only the first call does anything: it leaves no channel open, stops listening, and closes and forgets every
        tracked connection. */
    method CloseProxy()
      requires Valid()
      modifies this`closeDone, this`listening, this`upstreams, this`closedConns, hasTargets
      ensures Valid() && closeDone && targets == old(targets) && hasTargets == old(hasTargets)
      ensures !old(closeDone) ==>
        && (forall g :: g in generations ==> g.closed)
        && !listening && upstreams == map[]
        && closedConns == old(closedConns) + ConnsOf(old(upstreams))
      ensures old(closeDone) ==>
        && hasTargets.closed == old(hasTargets.closed) && listening == old(listening)
        && upstreams == old(upstreams) && closedConns == old(closedConns)
    {
      if closeDone {
        return;
      }
      closeDone := true;
      listening := false;
      if !hasTargets.closed {
        hasTargets.Close();
      }
      CloseUpstreams();
    }

    method CloseUpstreams()
      modifies this`upstreams, this`closedConns
      ensures upstreams == map[] && closedConns == old(closedConns) + ConnsOf(old(upstreams))
    {
      var todo := upstreams.Keys;
      while todo != {}
        invariant todo == upstreams.Keys && upstreams.Keys <= old(upstreams).Keys
        invariant forall addr :: addr in upstreams ==> upstreams[addr] == old(upstreams)[addr]
        invariant closedConns + ConnsOf(upstreams) == old(closedConns) + ConnsOf(old(upstreams))
        decreases todo
      {
        assert (forall a :: a !in todo) ==> todo == {};
        var addr :| addr in todo;
        ghost var before := upstreams;
        closedConns := closedConns + set c | c in upstreams[addr];
        upstreams := upstreams - {addr};
        todo := todo - {addr};
        OneAddress(before, addr);
      }
      assert ConnsOf(upstreams) == {};
    }

    /** Whoever once saw no targets is not blocked while there are targets, on whatever channel it waits. */
    lemma NoWaiterStuck(wait: Signal)
      requires Valid() && wait in generations && targets != []
      ensures wait.closed
    {
    }
  }

  function ConnsOf(upstreams: map<string, seq<int>>): set<int> {
    set addr, c | addr in upstreams && c in upstreams[addr] :: c
  }

  lemma OneAddress(upstreams: map<string, seq<int>>, addr: string)
    requires addr in upstreams
    ensures ConnsOf(upstreams) == ConnsOf(upstreams - {addr}) + set c | c in upstreams[addr]
  {
    var rest, here := ConnsOf(upstreams - {addr}), set c | c in upstreams[addr];
    forall c | c in ConnsOf(upstreams) ensures c in rest + here {
      var a :| a in upstreams && c in upstreams[a];
      assert a == addr || (a in upstreams - {addr} && c in (upstreams - {addr})[a]);
    }
    forall c | c in rest ensures c in ConnsOf(upstreams) {
      var a :| a in upstreams - {addr} && c in (upstreams - {addr})[a];
      assert a in upstreams && c in upstreams[a];
    }
    forall c | c in here ensures c in ConnsOf(upstreams) {
      assert addr in upstreams && c in upstreams[addr];
    }
  }

  // ---------------------------------------------------------------- round robin

  /** The position the k-th pick from a counter value takes in a list of n targets. */
  function Pick(start: nat, k: nat, n: nat): nat
    requires n > 0
  {
    (start + k) % TWO_TO_64 % n
  }

  /** How often position p is taken in m consecutive picks. */
  function Picks(start: nat, m: nat, n: nat, p: nat): nat
    requires n > 0
  {
    if m == 0 then 0 else Picks(start, m - 1, n, p) + if Pick(start, m - 1, n) == p then 1 else 0
  }

  /** Each position is taken floor(m/n) or ceil(m/n) times. */
  predicate Fair(start: nat, m: nat, n: nat)
    requires n > 0
  {
    forall p :: 0 <= p < n ==> m / n <= Picks(start, m, n, p) <= (m + n - 1) / n
  }

  /** How many numbers below x leave remainder p. */
  function Below(x: nat, n: nat, p: nat): int
    requires p < n
  {
    (x + n - 1 - p) / n
  }

  lemma MultipleBeyond(d: int, n: nat)
    ensures d >= 1 ==> d * n >= n
    ensures d <= -1 ==> d * n <= -(n as int)
  {
  }

  lemma DivisionIs(a: int, q: int, r: int, n: nat)
    requires n > 0 && a == q * n + r && 0 <= r < n
    ensures a / n == q && a % n == r
  {
    var d := a / n - q;
    assert a == (a / n) * n + a % n;
    assert d * n == r - a % n;
    MultipleBeyond(d, n);
  }

  lemma DivMod(x: nat, n: nat)
    requires n > 0
    ensures x == (x / n) * n + x % n && 0 <= x % n < n && 0 <= x / n && 0 <= (x / n) * n
  {
  }

  lemma SmallMod(x: nat, n: nat)
    requires x < n
    ensures x % n == x
  {
    DivisionIs(x, 0, x, n);
  }

  /** Below(x, n, p), from the quotient and remainder of x. */
  lemma BelowIs(x: nat, q: int, r: int, n: nat, p: nat)
    requires p < n && x == q * n + r && 0 <= r <= n
    ensures Below(x, n, p) == if p < r then q + 1 else q
  {
    if p < r {
      DivisionIs(x + n - 1 - p, q + 1, r - 1 - p, n);
    } else {
      DivisionIs(x + n - 1 - p, q, r + n - 1 - p, n);
    }
  }

  lemma BelowStep(x: nat, n: nat, p: nat)
    requires p < n
    ensures Below(x + 1, n, p) - Below(x, n, p) == if x % n == p then 1 else 0
  {
    hide Below;
    DivMod(x, n);
    BelowIs(x, x / n, x % n, n, p);
    BelowIs(x + 1, x / n, x % n + 1, n, p);
  }

  lemma {:induction false} PicksAre(start: nat, m: nat, n: nat, p: nat)
    requires p < n && forall k :: 0 <= k < m ==> Pick(start, k, n) == (start + k) % n
    ensures Picks(start, m, n, p) == Below(start + m, n, p) - Below(start, n, p)
  {
    hide Pick, Below;
    if m > 0 {
      PicksAre(start, m - 1, n, p);
      BelowStep(start + m - 1, n, p);
      assert Pick(start, m - 1, n) == (start + m - 1) % n;
    }
  }

  lemma SpreadEvenly(a: nat, m: nat, n: nat)
    requires n > 0
    ensures m / n <= (a + m) / n - a / n <= (m + n - 1) / n
  {
    var q, r, u, v := a / n, a % n, m / n, m % n;
    DivMod(a, n);
    DivMod(m, n);
    assert a + m == (q + u) * n + (r + v);
    if r + v < n {
      DivisionIs(a + m, q + u, r + v, n);
    } else {
      DivisionIs(a + m, q + u + 1, r + v - n, n);
    }
    if v == 0 {
      DivisionIs(m + n - 1, u, n - 1, n);
    } else {
      DivisionIs(m + n - 1, u + 1, v - 1, n);
    }
  }

  lemma ModuloTwice(x: nat, big: nat, n: nat)
    requires n > 0 && big > 0 && big % n == 0
    ensures x % big % n == x % n
  {
    var w, c, y := x / big, big / n, x % big;
    DivMod(x, big);
    DivMod(big, n);
    DivMod(y, n);
    MultipleAway(x, w, c, n, y / n, y % n);
    DivisionIs(x, w * c + y / n, y % n, n);
  }

  lemma MultipleAway(x: int, w: int, c: int, n: int, q: int, r: int)
    requires x == w * (c * n) + (q * n + r)
    ensures x == (w * c + q) * n + r
  {
  }

  /** Without a wrap, or with one that n divides away, the k-th pick is where plain counting puts it. */
  lemma PickCounts(start: nat, k: nat, n: nat)
    requires n > 0 && (start + k < TWO_TO_64 || TWO_TO_64 % n == 0)
    ensures Pick(start, k, n) == (start + k) % n
  {
    if start + k < TWO_TO_64 {
      SmallMod(start + k, TWO_TO_64);
    } else {
      ModuloTwice(start + k, TWO_TO_64, n);
    }
  }

  /** Any m consecutive picks from a list of n take each position floor(m/n) or ceil(m/n) times, as long as
      the counter does not wrap on the way, or n divides 2^64. */
  lemma RoundRobinFair(start: nat, m: nat, n: nat)
    requires n > 0 && (start + m <= TWO_TO_64 || TWO_TO_64 % n == 0)
    ensures Fair(start, m, n)
  {
    hide Pick;
    forall k | 0 <= k < m ensures Pick(start, k, n) == (start + k) % n {
      PickCounts(start, k, n);
    }
    forall p | 0 <= p < n ensures m / n <= Picks(start, m, n, p) <= (m + n - 1) / n {
      PicksAre(start, m, n, p);
      SpreadEvenly(start + n - 1 - p, m, n);
      assert start + m + n - 1 - p == (start + n - 1 - p) + m;
    }
  }

  lemma {:induction false} PicksGrow(start: nat, k: nat, m: nat, n: nat, p: nat)
    requires n > 0 && k < m
    ensures Picks(start, m, n, p) >= Picks(start, k, n, p) + if Pick(start, k, n) == p then 1 else 0
  {
    if k < m - 1 {
      PicksGrow(start, k, m - 1, n, p);
    }
  }

  lemma TakenTwice(start: nat, r: nat, n: nat)
    requires 0 < r < n && Pick(start, 0, n) == 0 && Pick(start, r, n) == 0
    ensures !Fair(start, r + 1, n)
  {
    hide Pick;
    PicksGrow(start, 0, r, n, 0);
    PicksGrow(start, r, r + 1, n, 0);
    DivisionIs(r + n, 1, r, n);
    assert r + 1 + n - 1 == r + n;
    assert Picks(start, r + 1, n, 0) >= 2;
  }

  lemma PicksAroundWrap(n: nat, r: nat)
    requires 0 < n && r == TWO_TO_64 % n && 0 < r
    ensures r <= TWO_TO_64 && Pick(TWO_TO_64 - r, 0, n) == 0 && Pick(TWO_TO_64 - r, r, n) == 0
  {
    var q := TWO_TO_64 / n;
    DivMod(TWO_TO_64, n);
    var start: nat := TWO_TO_64 - r;
    PickCounts(start, 0, n);
    DivisionIs(start, q, 0, n);
    DivisionIs(TWO_TO_64, 1, 0, TWO_TO_64);
    SmallMod(0, n);
    assert start + r == TWO_TO_64;
  }

  /** Otherwise the wrap is unfair: the picks around it take position 0 twice in a window of at most n. */
  lemma WrapUnfair(n: nat)
    requires 0 < n && TWO_TO_64 % n != 0
    ensures var r := TWO_TO_64 % n; r <= TWO_TO_64 && !Fair(TWO_TO_64 - r, r + 1, n)
  {
    hide Pick, Fair;
    var r := TWO_TO_64 % n;
    DivMod(TWO_TO_64, n);
    PicksAroundWrap(n, r);
    TakenTwice(TWO_TO_64 - r, r, n);
  }

  /** For a list of n targets, selection is fair from every counter value over every number of picks exactly
      when n divides 2^64. */
  lemma FairAcrossWrap(n: nat)
    requires 0 < n
    ensures (forall start: nat, m: nat :: start < TWO_TO_64 ==> Fair(start, m, n)) <==> TWO_TO_64 % n == 0
  {
    if TWO_TO_64 % n == 0 {
      forall start: nat, m: nat | start < TWO_TO_64 ensures Fair(start, m, n) {
        RoundRobinFair(start, m, n);
      }
    } else {
      WrapUnfair(n);
    }
  }
}
