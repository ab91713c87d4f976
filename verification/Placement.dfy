/** What provisioning keeps and achieves: exclusive ports, stability, maximality, idempotence. */
module Placement {
  import opened Basics
  import opened Text
  import opened CouncilState
  import opened Provisioner

  /** Host, bind port and remote port are all set or all absent. */
  predicate AllOrNone(s: Service) {
    s.host.Some? == s.bindPort.Some? && s.bindPort.Some? == s.remotePort.Some?
  }

  predicate SamePlace(s: Service, t: Service) {
    s.host == t.host && s.bindPort == t.bindPort && s.remotePort == t.remotePort
  }

  predicate Exclusive(services: seq<Service>) {
    forall i, j :: 0 <= i < j < |services| && services[i].bindPort.Some? ==> !SamePlace(services[i], services[j])
  }

  predicate Tidy(services: seq<Service>) {
    Exclusive(services) && forall i :: 0 <= i < |services| ==> AllOrNone(services[i])
  }

  /** Every placed service has a king entry at its address. */
  predicate Hosted(st: State) {
    forall i :: 0 <= i < |st.services| && st.services[i].bindPort.Some? ==> HasKing(st.kings, st.services[i])
  }

  /** Every service at a king's address holds a port of that king's range. */
  predicate InRanges(st: State) {
    forall i, k :: 0 <= i < |st.services| && k in st.kings && OnKing(st.services[i], k) ==>
      st.services[i].remotePort.Some? && InRange(k, st.services[i].remotePort.value)
  }

  /** No service sits at the address of a king that is shutting down. */
  predicate Live(st: State) {
    forall i :: 0 <= i < |st.services| ==> !OnShuttingDown(st.kings, st.services[i])
  }

  /** The king's range holds a port at all. */
  predicate HasRange(k: King) {
    match ParseRange(k.ports)
    case None => false
    case Some(r) => r.0 <= r.1
  }

  /** No address is shared by a king that is shutting down and a running king with a range to give out
      (implied by KingsUnique). */
  predicate Uncontested(kings: seq<King>) {
    forall j, k :: j in kings && k in kings && SameAddress(j, k) && j.shuttingDown && !k.shuttingDown ==> !HasRange(k)
  }

  /** The same registration, wherever it is placed; readiness of the king side is only ever withdrawn. */
  predicate SameService(s: Service, t: Service) {
    && t == s.(host := t.host, bindPort := t.bindPort, remotePort := t.remotePort, kingReady := t.kingReady)
    && (t.kingReady ==> s.kingReady)
  }

  predicate SameServices(ss: seq<Service>, ts: seq<Service>) {
    |ss| == |ts| && forall i :: 0 <= i < |ss| ==> SameService(ss[i], ts[i])
  }

  // ---------------------------------------------------------------- one placement

  lemma UniqueUncontested(kings: seq<King>)
    requires KingsUnique(kings)
    ensures Uncontested(kings)
  {
  }

  lemma PlacementKeepsTidy(services: seq<Service>, i: nat, k: King, port: int)
    requires Tidy(services) && i < |services| && port !in UsedPorts(services, k.host, k.bindPort)
    ensures Tidy(services[i := PlaceAt(services[i], k, port)])
  {
    var after := services[i := PlaceAt(services[i], k, port)];
    forall a, b | 0 <= a < b < |after| && after[a].bindPort.Some? ensures !SamePlace(after[a], after[b]) {
      var other := if a == i then after[b] else after[a];
      assert other in services && (other.remotePort == Some(port) ==> !OnKing(other, k));
    }
  }

  lemma PlacementKeepsHosted(st: State, r: State, i: nat, at: int, port: int)
    requires PlacesAt(st, r, i, at, port) && Hosted(st)
    ensures Hosted(r)
  {
    var k := st.kings[at];
    assert k in r.kings && OnKing(r.services[i], k);
    assert forall j :: 0 <= j < |r.services| && j != i ==> r.services[j] == st.services[j];
  }

  lemma PlacementKeepsRanges(st: State, r: State, i: nat, at: int, port: int)
    requires PlacesAt(st, r, i, at, port) && KingsUnique(st.kings) && InRanges(st)
    ensures InRanges(r)
  {
    hide InRange, HasFree, UsedPorts;
    forall k | k in r.kings && OnKing(r.services[i], k) ensures k == st.kings[at] {
      assert SameAddress(k, st.kings[at]);
    }
    assert forall j :: 0 <= j < |r.services| && j != i ==> r.services[j] == st.services[j];
  }

  lemma PlacementKeepsLive(st: State, r: State, i: nat, at: int, port: int)
    requires PlacesAt(st, r, i, at, port) && Uncontested(st.kings) && Live(st)
    ensures Live(r)
  {
    forall k | k in r.kings && OnKing(r.services[i], k) ensures !k.shuttingDown {
      assert SameAddress(k, st.kings[at]);
    }
    assert forall j :: 0 <= j < |r.services| && j != i ==> r.services[j] == st.services[j];
  }

  /** r comes from st by placing services: kings, lings and registrations are the same, and whatever
      held of the placements still holds. */
  ghost predicate Kept(st: State, r: State) {
    && r.kings == st.kings && r.lings == st.lings && st.revision <= r.revision && SameServices(st.services, r.services)
    && (Tidy(st.services) ==> Tidy(r.services))
    && (Hosted(st) ==> Hosted(r))
    && (KingsUnique(st.kings) && InRanges(st) ==> InRanges(r))
    && (Uncontested(st.kings) && Live(st) ==> Live(r))
  }

  /** What one placement keeps. */
  lemma PlacementKeeps(st: State, r: State, i: nat, at: int, port: int)
    requires PlacesAt(st, r, i, at, port) && st.services[i].bindPort.None?
    ensures Kept(st, r)
  {
    hide Tidy, Hosted, InRanges, Live, KingsUnique, Uncontested, HasFree;
    if Tidy(st.services) {
      PlacementKeepsTidy(st.services, i, st.kings[at], port);
    }
    if Hosted(st) {
      PlacementKeepsHosted(st, r, i, at, port);
    }
    if KingsUnique(st.kings) && InRanges(st) {
      PlacementKeepsRanges(st, r, i, at, port);
    }
    if Uncontested(st.kings) && Live(st) {
      PlacementKeepsLive(st, r, i, at, port);
    }
  }

  lemma KeptTransitive(a: State, b: State, c: State)
    requires Kept(a, b) && Kept(b, c)
    ensures Kept(a, c)
  {
    hide Tidy, Hosted, InRanges, Live, KingsUnique, Uncontested;
  }

  lemma ProvisionServiceKeeps(st: State, i: nat)
    requires i < |st.services| && st.services[i].bindPort.None?
    ensures Kept(st, ProvisionService(st, i))
    ensures forall j :: 0 <= j < |st.services| && j != i ==> ProvisionService(st, i).services[j] == st.services[j]
  {
    hide ProvisionService, Chosen, Kept;
    var at, port := ProvisionServiceChooses(st, i);
    if exists j :: Offers(st, j) {
      PlacementKeeps(st, ProvisionService(st, i), i, at, port);
    } else {
      KeptReflexive(st);
    }
  }

  lemma KeptReflexive(st: State)
    ensures Kept(st, st)
  {
  }

  // ---------------------------------------------------------------- the whole run

  lemma DeprovisionKeeps(st: State)
    ensures Kept(st, Deprovision(st)) && Live(Deprovision(st)) && Deprovision(st).revision == st.revision
    ensures forall i :: 0 <= i < |st.services| && !OnShuttingDown(st.kings, st.services[i]) ==>
      Deprovision(st).services[i] == st.services[i]
  {
  }

  lemma {:induction false} ProvisionFirstKeeps(st: State, n: nat)
    requires n <= |st.services|
    ensures Kept(st, ProvisionFirst(st, n))
    ensures forall i :: 0 <= i < |st.services| && (n <= i || st.services[i].bindPort.Some?) ==>
      ProvisionFirst(st, n).services[i] == st.services[i]
  {
    hide ProvisionService, Tidy, Hosted, InRanges, Live, KingsUnique, Uncontested;
    if n > 0 {
      ProvisionFirstKeeps(st, n - 1);
      var p := ProvisionFirst(st, n - 1);
      if p.services[n - 1].bindPort.None? {
        ProvisionServiceKeeps(p, n - 1);
        KeptTransitive(st, p, ProvisionService(p, n - 1));
      }
    }
  }

  /** Provision never touches kings or lings, keeps ports exclusive and services hosted, and leaves
      in place every placed service whose address has no shutting-down king. */
  lemma ProvisionKeeps(st: State)
    ensures Kept(st, Provision(st))
    ensures Uncontested(st.kings) ==> Live(Provision(st))
    ensures forall i :: 0 <= i < |st.services| ==>
      var s := st.services[i];
      s.bindPort.Some? && !OnShuttingDown(st.kings, s) ==> Provision(st).services[i] == s
  {
    var d := Deprovision(st);
    DeprovisionKeeps(st);
    ProvisionFirstKeeps(d, |st.services|);
    KeptTransitive(st, d, Provision(st));
  }

  lemma {:induction false} ProvisionFirstReady(st: State, n: nat, i: nat)
    requires n <= |st.services| && i < |st.services|
    ensures ProvisionFirst(st, n).services[i].kingReady == st.services[i].kingReady
  {
    hide ProvisionService, Chosen;
    if n > 0 {
      ProvisionFirstReady(st, n - 1, i);
      var p := ProvisionFirst(st, n - 1);
      if p.services[n - 1].bindPort.None? {
        var at, port := ProvisionServiceChooses(p, n - 1);
      }
    }
  }

  /** Provisioning withdraws king readiness from exactly the services at a shutting-down king, and grants it to none. */
  lemma ProvisionReady(st: State, i: nat)
    requires i < |st.services|
    ensures |Provision(st).services| == |st.services|
    ensures Provision(st).services[i].kingReady <==>
      st.services[i].kingReady && !OnShuttingDown(st.kings, st.services[i])
  {
    hide ProvisionFirst;
    ProvisionFirstReady(Deprovision(st), |st.services|, i);
  }

  // ---------------------------------------------------------------- maximality

  /** A port that can be given out, with its address. */
  datatype Slot = Slot(host: string, bindPort: int, port: int)

  ghost function RangeSet(k: King): set<int> {
    match ParseRange(k.ports)
    case None => {}
    case Some(r) => set p | p in FreePorts(r.0, r.1, {})
  }

  lemma RangeSetIs(k: King)
    ensures forall p :: p in RangeSet(k) <==> InRange(k, p)
  {
    match ParseRange(k.ports)
    case None =>
    case Some(r) => FreePortsSorted(r.0, r.1, {});
  }

  ghost function FreeSlots(st: State): set<Slot> {
    set k, p | k in st.kings && p in RangeSet(k) && FreeAt(st.services, k, p) :: Slot(k.host, k.bindPort, p)
  }

  ghost function Unplaced(services: seq<Service>): set<int> {
    set i | 0 <= i < |services| && services[i].bindPort.None?
  }

  lemma SlotFree(st: State, k: King, port: int)
    requires k in st.kings && FreeAt(st.services, k, port)
    ensures Slot(k.host, k.bindPort, port) in FreeSlots(st)
  {
    RangeSetIs(k);
  }

  lemma NoOffersNoSlots(st: State)
    ensures (forall j :: !Offers(st, j)) <==> FreeSlots(st) == {}
  {
    if j :| Offers(st, j) {
      var p :| FreeAt(st.services, st.kings[j], p);
      SlotFree(st, st.kings[j], p);
    } else if slot :| slot in FreeSlots(st) {
      var k, p :| k in st.kings && FreeAt(st.services, k, p) && slot == Slot(k.host, k.bindPort, p);
      var j :| 0 <= j < |st.kings| && st.kings[j] == k;
      assert HasFree(st.services, k);
      assert Offers(st, j);
    }
  }

  lemma PlacementUsesOne(services: seq<Service>, i: nat, k: King, port: int, host: string, bindPort: int)
    requires i < |services| && services[i].bindPort.None?
    ensures UsedPorts(services[i := PlaceAt(services[i], k, port)], host, bindPort) ==
      UsedPorts(services, host, bindPort) + if k.host == host && k.bindPort == bindPort then {port} else {}
  {
    var after := services[i := PlaceAt(services[i], k, port)];
    assert after[i] in after;
    forall s | s in services && s != services[i] ensures s in after {
      var j :| 0 <= j < |services| && services[j] == s;
      assert after[j] == s;
    }
  }

  lemma FreeAfterPlacement(st: State, r: State, i: nat, at: int, port: int, j: King, p: int)
    requires PlacesAt(st, r, i, at, port) && st.services[i].bindPort.None?
    ensures FreeAt(r.services, j, p) <==> FreeAt(st.services, j, p) && !(SameAddress(st.kings[at], j) && p == port)
  {
    hide InRange, LeastFree, OffersAt;
    PlacementUsesOne(st.services, i, st.kings[at], port, j.host, j.bindPort);
  }

  lemma PlacementTakesSlot(st: State, r: State, i: nat, at: int, port: int)
    requires PlacesAt(st, r, i, at, port) && st.services[i].bindPort.None?
    ensures |FreeSlots(r)| == |FreeSlots(st)| - 1
  {
    hide FreeAt, RangeSet;
    var k := st.kings[at];
    var slot := Slot(k.host, k.bindPort, port);
    SlotFree(st, k, port);
    forall j, p ensures FreeAt(r.services, j, p) <==> FreeAt(st.services, j, p) && !(SameAddress(k, j) && p == port) {
      FreeAfterPlacement(st, r, i, at, port, j, p);
    }
    assert FreeSlots(r) == FreeSlots(st) - {slot};
  }

  /** Placing a service takes one slot; it fails only when there is none. */
  ghost predicate TakesOneIfAny(st: State, r: State, i: nat) {
    if FreeSlots(st) == {} then r == st
    else
      && i < |r.services| == |st.services|
      && r.revision == st.revision + 1 && |FreeSlots(r)| == |FreeSlots(st)| - 1
      && |Unplaced(r.services)| == |Unplaced(st.services)| - 1 && r.services[i].bindPort.Some?
      && forall j :: 0 <= j < |st.services| && j != i ==> r.services[j] == st.services[j]
  }

  lemma PlacementCounts(st: State, i: nat)
    requires i < |st.services| && st.services[i].bindPort.None?
    ensures TakesOneIfAny(st, ProvisionService(st, i), i)
  {
    hide ProvisionService, Chosen, FreeSlots;
    NoOffersNoSlots(st);
    var at, port := ProvisionServiceChooses(st, i);
    if exists j :: Offers(st, j) {
      var r := ProvisionService(st, i);
      PlacementTakesSlot(st, r, i, at, port);
      UnplacedLess(st, r, i, at, port);
    }
  }

  lemma UnplacedLess(st: State, r: State, i: nat, at: int, port: int)
    requires PlacesAt(st, r, i, at, port) && st.services[i].bindPort.None?
    ensures |Unplaced(r.services)| == |Unplaced(st.services)| - 1
  {
    assert Unplaced(r.services) == Unplaced(st.services) - {i};
  }

  ghost function UnplacedBelow(services: seq<Service>, n: nat): set<int> {
    set i | i in Unplaced(services) && i < n
  }

  lemma UnplacedBelowStep(services: seq<Service>, n: nat)
    requires n < |services|
    ensures |UnplacedBelow(services, n + 1)| ==
      |UnplacedBelow(services, n)| + if services[n].bindPort.None? then 1 else 0
  {
    var here := if services[n].bindPort.None? then {n} else {};
    assert UnplacedBelow(services, n + 1) == UnplacedBelow(services, n) + here;
    assert UnplacedBelow(services, n) !! here;
  }

  /** The first n services have been given their due, and the counts agree. */
  ghost predicate Counted(st: State, r: State, n: nat, placed: nat) {
    && n <= |st.services| == |r.services|
    && placed == Min(|UnplacedBelow(st.services, n)|, |FreeSlots(st)|)
    && r.revision == st.revision + placed
    && |FreeSlots(r)| == |FreeSlots(st)| - placed
    && |Unplaced(r.services)| == |Unplaced(st.services)| - placed
    && (FreeSlots(r) != {} ==> forall i :: 0 <= i < n ==> r.services[i].bindPort.Some?)
  }

  lemma {:induction false} ProvisionFirstCounts(st: State, n: nat) returns (placed: nat)
    requires n <= |st.services|
    ensures Counted(st, ProvisionFirst(st, n), n, placed)
  {
    hide ProvisionService, Counted, TakesOneIfAny;
    if n == 0 {
      placed := 0;
      CountedStart(st);
    } else {
      placed := ProvisionFirstCounts(st, n - 1);
      ProvisionFirstNext(st, n);
      placed := CountNext(st, ProvisionFirst(st, n - 1), ProvisionFirst(st, n), n, placed);
    }
  }

  lemma CountedStart(st: State)
    ensures Counted(st, st, 0, 0)
  {
    assert UnplacedBelow(st.services, 0) == {};
  }

  lemma ProvisionFirstNext(st: State, n: nat)
    requires 0 < n <= |st.services|
    ensures
      var p, r := ProvisionFirst(st, n - 1), ProvisionFirst(st, n);
      if st.services[n - 1].bindPort.None? then TakesOneIfAny(p, r, n - 1)
      else r == p && p.services[n - 1].bindPort.Some?
  {
    hide ProvisionService, Kept, TakesOneIfAny;
    ProvisionFirstKeeps(st, n - 1);
    if st.services[n - 1].bindPort.None? {
      PlacementCounts(ProvisionFirst(st, n - 1), n - 1);
    }
  }

  lemma CountNext(st: State, p: State, r: State, n: nat, placed: nat) returns (after: nat)
    requires 0 < n <= |st.services| && Counted(st, p, n - 1, placed)
    requires
      if st.services[n - 1].bindPort.None? then TakesOneIfAny(p, r, n - 1)
      else r == p && p.services[n - 1].bindPort.Some?
    ensures Counted(st, r, n, after)
  {
    hide FreeSlots, Unplaced;
    UnplacedBelowStep(st.services, n - 1);
    if st.services[n - 1].bindPort.None? {
      after := CountPlacement(st, p, r, n, placed);
    } else {
      CountSkip(st, p, n, placed);
      after := placed;
    }
  }

  lemma CountSkip(st: State, p: State, n: nat, placed: nat)
    requires 0 < n <= |st.services| && Counted(st, p, n - 1, placed) && p.services[n - 1].bindPort.Some?
    requires |UnplacedBelow(st.services, n)| == |UnplacedBelow(st.services, n - 1)|
    ensures Counted(st, p, n, placed)
  {
    hide FreeSlots, Unplaced, UnplacedBelow;
  }

  lemma CountPlacement(st: State, p: State, r: State, n: nat, placed: nat) returns (after: nat)
    requires 0 < n <= |st.services| && Counted(st, p, n - 1, placed) && TakesOneIfAny(p, r, n - 1)
    requires |UnplacedBelow(st.services, n)| == |UnplacedBelow(st.services, n - 1)| + 1
    ensures Counted(st, r, n, after)
  {
    hide FreeSlots, Unplaced, UnplacedBelow;
    after := if FreeSlots(p) == {} then placed else placed + 1;
  }

  /** Greedy allocation is maximal: it places exactly as many services as there are unplaced services
      or free slots, whichever is fewer, raises the revision by that number, and stops short only when
      no slot is left. */
  lemma ProvisionMaximal(st: State)
    ensures
      var d, r := Deprovision(st), Provision(st);
      var placed := Min(|Unplaced(d.services)|, |FreeSlots(d)|);
      && |Unplaced(r.services)| == |Unplaced(d.services)| - placed
      && r.revision == st.revision + placed
      && (Unplaced(r.services) == {} || FreeSlots(r) == {})
  {
    var d := Deprovision(st);
    var placed := ProvisionFirstCounts(d, |d.services|);
    assert UnplacedBelow(d.services, |d.services|) == Unplaced(d.services);
  }

  // ---------------------------------------------------------------- idempotence

  lemma {:induction false} NothingToPlace(st: State, n: nat)
    requires n <= |st.services| && (Unplaced(st.services) == {} || FreeSlots(st) == {})
    ensures ProvisionFirst(st, n) == st
  {
    if n > 0 {
      NothingToPlace(st, n - 1);
      if st.services[n - 1].bindPort.None? {
        assert n - 1 in Unplaced(st.services);
        PlacementCounts(st, n - 1);
      }
    }
  }

  /** A second run changes nothing, the revision included, exactly when the first run left no service
      at the address of a shutting-down king. */
  lemma SecondRunChanges(st: State)
    ensures var r := Provision(st); Provision(r) == r <==> Live(r)
  {
    hide FreeSlots, Kept, Uncontested;
    var r := Provision(st);
    ProvisionMaximal(st);
    ProvisionKeeps(st);
    if Live(r) {
      assert Deprovision(r) == r;
      NothingToPlace(r, |r.services|);
    } else {
      var i :| 0 <= i < |r.services| && OnShuttingDown(r.kings, r.services[i]);
      var d := Deprovision(r);
      assert d.services[i].bindPort.None?;
      ProvisionMaximal(r);
      if Provision(r).revision == r.revision {
        NothingToPlace(d, |d.services|);
      }
    }
  }

  /** The i-th of many services of a ling, not placed yet. */
  function Waiting(i: nat): Service {
    Service(Itoa(i), "token", Itoa(i), "ling", "here", false, false, None, None, None)
  }

  /** So many services without a place, on these kings. */
  function Crowd(kings: seq<King>, n: nat): State {
    State(0, seq(n, i requires 0 <= i < n => Waiting(i)), kings, [Ling("ling", false, 0)])
  }

  lemma CrowdUnplaced(kings: seq<King>, n: nat)
    ensures Deprovision(Crowd(kings, n)) == Crowd(kings, n) && Hosted(Crowd(kings, n))
    ensures |Unplaced(Crowd(kings, n).services)| == n
  {
    var services := Crowd(kings, n).services;
    AllUnplaced(services, n);
    assert Unplaced(services) == UnplacedBelow(services, n);
  }

  lemma {:induction false} AllUnplaced(services: seq<Service>, n: nat)
    requires n <= |services| && forall i :: 0 <= i < n ==> services[i].bindPort.None?
    ensures |UnplacedBelow(services, n)| == n
  {
    if n == 0 {
      assert UnplacedBelow(services, 0) == {};
    } else {
      AllUnplaced(services, n - 1);
      UnplacedBelowStep(services, n - 1);
    }
  }

  /** One service more than there are slots. */
  ghost function Overcrowd(kings: seq<King>): State {
    Crowd(kings, |FreeSlots(Crowd(kings, 0))| + 1)
  }

  /** An overcrowd takes every slot. */
  lemma OvercrowdFills(kings: seq<King>)
    ensures var r := Provision(Overcrowd(kings)); r.kings == kings && FreeSlots(r) == {}
  {
    hide FreeSlots, Unplaced, Kept, Provision, Deprovision;
    var st := Overcrowd(kings);
    CrowdUnplaced(kings, |st.services|);
    CrowdSlots(kings, |st.services|);
    ProvisionMaximal(st);
    assert |Unplaced(Provision(st).services)| == 1;
    ProvisionKeepsKings(st);
  }

  lemma ProvisionKeepsKings(st: State)
    ensures Provision(st).kings == st.kings
  {
    hide Provision, Tidy, Hosted, InRanges, Live, KingsUnique, Uncontested;
    ProvisionKeeps(st);
  }

  /** It does not stay at a contested address, where the first run puts it. */
  lemma ContestedMoves(kings: seq<King>, j: King, k: King)
    requires j in kings && k in kings && SameAddress(j, k) && j.shuttingDown && !k.shuttingDown && HasRange(k)
    ensures Provision(Provision(Overcrowd(kings))) != Provision(Overcrowd(kings))
  {
    hide FreeSlots, Provision, Overcrowd, HasRange;
    var r := Provision(Overcrowd(kings));
    OvercrowdFills(kings);
    FullKingHosts(r, k);
    var s :| s in r.services && s.host == Some(k.host) && s.bindPort == Some(k.bindPort);
    var i :| 0 <= i < |r.services| && r.services[i] == s;
    assert OnKing(r.services[i], j);
    SecondRunChanges(Overcrowd(kings));
  }

  lemma CrowdSlots(kings: seq<King>, n: nat)
    ensures FreeSlots(Crowd(kings, n)) == FreeSlots(Crowd(kings, 0))
  {
    forall k, p ensures FreeAt(Crowd(kings, n).services, k, p) == FreeAt(Crowd(kings, 0).services, k, p) {
      assert UsedPorts(Crowd(kings, n).services, k.host, k.bindPort) == {};
      assert UsedPorts(Crowd(kings, 0).services, k.host, k.bindPort) == {};
    }
  }

  lemma FullKingHosts(r: State, k: King)
    requires k in r.kings && !k.shuttingDown && HasRange(k) && FreeSlots(r) == {}
    ensures exists s :: s in r.services && s.host == Some(k.host) && s.bindPort == Some(k.bindPort)
  {
    hide FreeSlots;
    var p := ParseRange(k.ports).value.0;
    assert InRange(k, p);
    if FreeAt(r.services, k, p) {
      SlotFree(r, k, p);
    }
  }

  /** Provisioning these kings twice is the same as provisioning them once, for whatever services, if and
      only if no address is contested. */
  lemma ProvisionIdempotent(kings: seq<King>)
    ensures (forall st: State :: st.kings == kings ==> Provision(Provision(st)) == Provision(st)) <==>
      Uncontested(kings)
  {
    hide HasRange, Provision, Kept;
    if Uncontested(kings) {
      forall st: State | st.kings == kings ensures Provision(Provision(st)) == Provision(st) {
        ProvisionKeeps(st);
        SecondRunChanges(st);
      }
    } else {
      var j, k :| j in kings && k in kings && SameAddress(j, k) && j.shuttingDown && !k.shuttingDown && HasRange(k);
      ContestedMoves(kings, j, k);
    }
  }
}
