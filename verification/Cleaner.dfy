/** One pass of the cleaner: stale kings and lings go, then the services they orphan. */
module Cleaner {
  import opened Basics
  import opened CouncilState
  import opened Provisioner
  import opened Placement

  const STALE_THRESHOLD_MILLIS := 10000

  function FreshKing(threshold: int): King -> bool {
    (k: King) => threshold < k.beat
  }

  function FreshLing(threshold: int): Ling -> bool {
    (l: Ling) => threshold < l.beat
  }

  function Retained(kings: seq<King>, lings: seq<Ling>): Service -> bool {
    (s: Service) => (s.bindPort.None? || HasKing(kings, s)) && HasLing(lings, s.lingID)
  }

  function CleanPass(st: State, threshold: int): State {
    var kings := Filter(FreshKing(threshold), st.kings);
    var lings := Filter(FreshLing(threshold), st.lings);
    var services := Filter(Retained(kings, lings), st.services);
    var changed := |kings| < |st.kings| || |lings| < |st.lings| || |services| < |st.services|;
    State(if changed then st.revision + 1 else st.revision, services, kings, lings)
  }

  // ---------------------------------------------------------------- what no two entries share

  predicate DistinctIDs(services: seq<Service>) {
    forall i, j :: 0 <= i < j < |services| ==> services[i].serviceID != services[j].serviceID
  }

  predicate DistinctNames(services: seq<Service>) {
    forall i, j :: 0 <= i < j < |services| ==>
      services[i].name != services[j].name || services[i].lingID != services[j].lingID
  }

  predicate DistinctLings(lings: seq<Ling>) {
    forall i, j :: 0 <= i < j < |lings| ==> lings[i].lingID != lings[j].lingID
  }

  predicate DistinctKings(kings: seq<King>) {
    forall i, j :: 0 <= i < j < |kings| ==> kings[i].ports != kings[j].ports || kings[i].host != kings[j].host
  }

  /** Every service belongs to a ling the council knows. */
  predicate LingIntegrity(st: State) {
    forall i :: 0 <= i < |st.services| ==> HasLing(st.lings, st.services[i].lingID)
  }

  // ---------------------------------------------------------------- the pass

  /** The revision counts the passes that removed something: one more then, and otherwise the pass
      is the identity. */
  lemma CleanRevision(st: State, threshold: int)
    ensures CleanPass(st, threshold) == st || CleanPass(st, threshold).revision == st.revision + 1
    ensures CleanPass(st, threshold) == st <==>
      && (forall k :: k in st.kings ==> threshold < k.beat)
      && (forall l :: l in st.lings ==> threshold < l.beat)
      && (forall s :: s in st.services ==> (s.bindPort.None? || HasKing(st.kings, s)) && HasLing(st.lings, s.lingID))
  {
    var r := CleanPass(st, threshold);
    FilterLength(FreshKing(threshold), st.kings);
    FilterLength(FreshLing(threshold), st.lings);
    FilterLength(Retained(r.kings, r.lings), st.services);
  }

  /** One pass reaches the fixpoint for its threshold. */
  lemma CleanFixpoint(st: State, threshold: int)
    ensures CleanPass(CleanPass(st, threshold), threshold) == CleanPass(st, threshold)
  {
    var r := CleanPass(st, threshold);
    CleanRevision(r, threshold);
    forall k | k in r.kings ensures threshold < k.beat {
      FilterMember(FreshKing(threshold), st.kings, k);
    }
    forall l | l in r.lings ensures threshold < l.beat {
      FilterMember(FreshLing(threshold), st.lings, l);
    }
    forall s | s in r.services ensures (s.bindPort.None? || HasKing(r.kings, s)) && HasLing(r.lings, s.lingID) {
      FilterMember(Retained(r.kings, r.lings), st.services, s);
    }
  }

  /** Whatever the state was, after a pass every service has its ling and every placed one its king. */
  lemma CleanRestores(st: State, threshold: int)
    ensures Hosted(CleanPass(st, threshold)) && LingIntegrity(CleanPass(st, threshold))
  {
    var r := CleanPass(st, threshold);
    forall i | 0 <= i < |r.services| ensures Retained(r.kings, r.lings)(r.services[i]) {
      FilterMember(Retained(r.kings, r.lings), st.services, r.services[i]);
    }
  }

  /** What a pass at a time keeps: kings and lings heard of in the last ten seconds, and the services that have such a
      ling and, once placed, such a king at their address; each in its old order. */
  lemma PassKeeps(st: State, now: int)
    ensures
      var r := CleanPass(st, now - STALE_THRESHOLD_MILLIS);
      && r.kings == Filter((k: King) => now - 10000 < k.beat, st.kings)
      && r.lings == Filter((l: Ling) => now - 10000 < l.beat, st.lings)
      && forall s :: s in r.services <==>
           && s in st.services
           && (exists l :: l in st.lings && now - 10000 < l.beat && l.lingID == s.lingID)
           && (s.bindPort.None? || exists k ::
                k in st.kings && now - 10000 < k.beat && s.host == Some(k.host) && s.bindPort == Some(k.bindPort))
  {
    var r := CleanPass(st, now - STALE_THRESHOLD_MILLIS);
    FilterSame(FreshKing(now - STALE_THRESHOLD_MILLIS), (k: King) => now - 10000 < k.beat, st.kings);
    FilterSame(FreshLing(now - STALE_THRESHOLD_MILLIS), (l: Ling) => now - 10000 < l.beat, st.lings);
    forall k ensures k in r.kings <==> k in st.kings && now - 10000 < k.beat {
      FilterMember(FreshKing(now - STALE_THRESHOLD_MILLIS), st.kings, k);
    }
    forall l ensures l in r.lings <==> l in st.lings && now - 10000 < l.beat {
      FilterMember(FreshLing(now - STALE_THRESHOLD_MILLIS), st.lings, l);
    }
    forall s ensures s in r.services <==> s in st.services && Retained(r.kings, r.lings)(s) {
      FilterMember(Retained(r.kings, r.lings), st.services, s);
    }
  }

  lemma CleanKeepsServices(services: seq<Service>, keep: Service -> bool)
    ensures Tidy(services) ==> Tidy(Filter(keep, services))
    ensures DistinctIDs(services) ==> DistinctIDs(Filter(keep, services))
    ensures DistinctNames(services) ==> DistinctNames(Filter(keep, services))
  {
    var at := FilterPositions(keep, services);
  }

  lemma CleanKeepsKings(kings: seq<King>, keep: King -> bool)
    ensures KingsUnique(kings) ==> KingsUnique(Filter(keep, kings))
    ensures DistinctKings(kings) ==> DistinctKings(Filter(keep, kings))
    ensures forall k :: k in Filter(keep, kings) ==> k in kings
  {
    var at := FilterPositions(keep, kings);
  }

  /** A pass only removes, so it keeps what distinguishes entries and where services sit. */
  lemma CleanKeeps(st: State, threshold: int)
    ensures
      var r := CleanPass(st, threshold);
      && (Tidy(st.services) ==> Tidy(r.services))
      && (DistinctIDs(st.services) ==> DistinctIDs(r.services))
      && (DistinctNames(st.services) ==> DistinctNames(r.services))
      && (DistinctLings(st.lings) ==> DistinctLings(r.lings))
      && (DistinctKings(st.kings) ==> DistinctKings(r.kings))
      && (InRanges(st) ==> InRanges(r))
      && (Live(st) ==> Live(r))
      && (forall s :: s in r.services ==> s in st.services)
  {
    var r := CleanPass(st, threshold);
    CleanKeepsServices(st.services, Retained(r.kings, r.lings));
    CleanKeepsKings(st.kings, FreshKing(threshold));
    var lingAt := FilterPositions(FreshLing(threshold), st.lings);
    CleanKeepsPlaces(st, threshold);
  }

  lemma CleanKeepsPlaces(st: State, threshold: int)
    ensures
      var r := CleanPass(st, threshold);
      && (InRanges(st) ==> InRanges(r))
      && (Live(st) ==> Live(r))
      && (forall s :: s in r.services ==> s in st.services)
  {
    var r := CleanPass(st, threshold);
    CleanKeepsKings(st.kings, FreshKing(threshold));
    var at := FilterPositions(Retained(r.kings, r.lings), st.services);
    forall s | s in r.services ensures s in st.services {
      FilterMember(Retained(r.kings, r.lings), st.services, s);
    }
    if Live(st) {
      forall i | 0 <= i < |r.services| ensures !OnShuttingDown(r.kings, r.services[i]) {
        assert !OnShuttingDown(st.kings, st.services[at[i]]);
      }
    }
  }

  // ---------------------------------------------------------------- the loop

  /** The append-if-kept loop over a slice that shares its backing array: it reads and writes the same
      cells, yet leaves the order-preserving filter in front and every cell behind it as it was. */
  method CompactInPlace<T>(a: array<T>, n: nat, keep: T -> bool) returns (m: nat)
    requires n <= a.Length
    modifies a
    ensures m <= n
    ensures a[..m] == Filter(keep, old(a[..n]))
    ensures a[m..] == old(a[m..])
  {
    m := 0;
    for i := 0 to n
      invariant m <= i
      invariant a[..m] == Filter(keep, old(a[..i]))
      invariant forall j :: m <= j < a.Length ==> a[j] == old(a[j])
    {
      assert Front(old(a[..i + 1])) == old(a[..i]);
      if keep(a[i]) {
        a[m] := a[i];
        m := m + 1;
        assert a[..m] == a[..m - 1] + [a[m - 1]];
      }
    }
  }
}
