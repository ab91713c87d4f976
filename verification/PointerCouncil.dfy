/** The council with its placements stored as pointers: the same provisioning, handlers and cleaner, writing
    cells of the kings' backing arrays. When its runs show the runs of Runs.dfy. */
module PointerCouncil {
  import opened Basics
  import opened CouncilState
  import opened Provisioner
  import opened Cleaner
  import opened Handlers
  import opened Registry
  import opened Runs
  import opened Pointers

  // ---------------------------------------------------------------- provisioning

  /** The service takes &king.Host and &king.BindPort of the selected cell. */
  function ProvisionServicePtr(p: PtrState, i: nat): PtrState
    requires Anchored(p) && i < |p.services|
  {
    var st := Abstract(p);
    if Offering(st) == [] then p
    else
      var s := p.services[i];
      var at := SelectedAt(st, s.info.preferredLocation);
      KingsAt(p, i);
      var port := KingPorts(st.kings[at], st.services)[0];
      p.(
        services := p.services[i := PtrService(s.info.(remotePort := Some(port)), Some(Ptr(|p.heap| - 1, at)))],
        revision := p.revision + 1)
  }

  lemma KingsAt(p: PtrState, i: nat)
    requires Anchored(p) && i < |p.services| && Offering(Abstract(p)) != []
    ensures
      var st := Abstract(p);
      var at := SelectedAt(st, p.services[i].info.preferredLocation);
      && st.kings[at] == Offering(st)[Select(Offering(st), p.services[i].info.preferredLocation)]
      && KingPorts(st.kings[at], st.services) != []
  {
    hide KingPorts;
    var st := Abstract(p);
    var at := SelectedIsFirst(st, p.services[i].info.preferredLocation);
    FilterMember(CanOffer(st.services), st.kings, st.kings[at]);
  }

  lemma ProvisionServiceShows(p: PtrState, i: nat)
    requires Anchored(p) && i < |p.services|
    ensures
      var q := ProvisionServicePtr(p, i);
      Anchored(q) && q.heap == p.heap && q.len == p.len && Abstract(q) == ProvisionService(Abstract(p), i)
  {
    hide KingPorts, Offering, SelectedAt;
    var st, q := Abstract(p), ProvisionServicePtr(p, i);
    assert st.services[i].preferredLocation == p.services[i].info.preferredLocation;
    if Offering(st) != [] {
      KingsAt(p, i);
      assert Abstract(q).services == ProvisionService(st, i).services;
    }
  }

  function DeprovisionServicePtr(p: PtrState, s: PtrService): PtrService
    requires Anchored(p) && (s.at.Some? ==> InHeap(p.heap, s.at.value))
  {
    if OnShuttingDown(Kings(p), ReadService(p.heap, s)) then PtrService(Cleared(s.info), None) else s
  }

  function DeprovisionPtr(p: PtrState): PtrState
    requires Anchored(p)
  {
    p.(services := seq(|p.services|, i requires 0 <= i < |p.services| => DeprovisionServicePtr(p, p.services[i])))
  }

  lemma DeprovisionShows(p: PtrState)
    requires Anchored(p)
    ensures Anchored(DeprovisionPtr(p)) && Abstract(DeprovisionPtr(p)) == Deprovision(Abstract(p))
  {
    hide OnShuttingDown;
    assert Abstract(DeprovisionPtr(p)).services == Deprovision(Abstract(p)).services;
  }

  lemma StaysAnchoredPlacing(p: PtrState, i: nat)
    requires Anchored(p) && i < |p.services|
    ensures Anchored(ProvisionServicePtr(p, i)) && |ProvisionServicePtr(p, i).services| == |p.services|
  {
    hide ProvisionServicePtr;
    ProvisionServiceShows(p, i);
    assert |Abstract(ProvisionServicePtr(p, i)).services| == |p.services|;
  }

  function PlaceUnplacedPtr(p: PtrState, i: nat): (q: PtrState)
    requires Anchored(p) && i < |p.services|
    ensures Anchored(q) && |q.services| == |p.services|
  {
    StaysAnchoredPlacing(p, i);
    if p.services[i].at.None? then ProvisionServicePtr(p, i) else p
  }

  function ProvisionFirstPtr(p: PtrState, n: nat): (q: PtrState)
    requires Anchored(p) && n <= |p.services|
    ensures Anchored(q) && |q.services| == |p.services|
  {
    if n == 0 then p else PlaceUnplacedPtr(ProvisionFirstPtr(p, n - 1), n - 1)
  }

  lemma {:induction false} ProvisionFirstShows(p: PtrState, n: nat)
    requires Anchored(p) && n <= |p.services|
    ensures Abstract(ProvisionFirstPtr(p, n)) == ProvisionFirst(Abstract(p), n)
  {
    hide ProvisionServicePtr, ProvisionService;
    if n > 0 {
      ProvisionFirstShows(p, n - 1);
      ProvisionServiceShows(ProvisionFirstPtr(p, n - 1), n - 1);
    }
  }

  /** A recorded change is counted and then provisioned. */
  function CommitPtr(p: PtrState): (q: PtrState)
    requires Anchored(p)
    ensures Anchored(q) && Abstract(q) == Commit(Abstract(p))
  {
    var counted := p.(revision := p.revision + 1);
    DeprovisionShows(counted);
    ProvisionFirstShows(DeprovisionPtr(counted), |p.services|);
    assert Abstract(counted) == Abstract(p).(revision := p.revision + 1);
    ProvisionFirstPtr(DeprovisionPtr(counted), |p.services|)
  }

  // ---------------------------------------------------------------- handlers

  /** What a segment draws from outside; the pointer kept across a broadcast is a cell of any array, and a new
      array has some spare cells. */
  datatype PtrEnv = PtrEnv(clock: int, newID: string, token: string, cell: Option<Ptr>, spare: seq<King>)

  /** The king entry that a cell still is, if any. */
  function EntryAt(p: PtrState, cell: Option<Ptr>): Option<nat> {
    if p.heap != [] && cell.Some? && cell.value.block == |p.heap| - 1 && cell.value.index < p.len
    then Some(cell.value.index) else None
  }

  function EnvAt(p: PtrState, e: PtrEnv): Env {
    Env(e.clock, e.newID, e.token, EntryAt(p, e.cell))
  }

  /** append(Kings, king): in place while there is a spare cell, else in a new array. */
  function AppendKing(p: PtrState, king: King, spare: seq<King>): PtrState
    requires Anchored(p)
  {
    if p.len < |Last(p.heap)| then p.(heap := SetLast(p.heap, Last(p.heap)[p.len := king]), len := p.len + 1)
    else p.(heap := p.heap + [Kings(p) + [king] + spare], len := p.len + 1)
  }

  /** Kings are edited cell by cell, in place. */
  function WriteKings(p: PtrState, kings: seq<King>): PtrState
    requires Anchored(p) && |kings| == p.len
  {
    p.(heap := SetLast(p.heap, kings + Last(p.heap)[p.len..]))
  }

  /** Flags are set in place and services appended; no pointer is touched. */
  function WriteServices(p: PtrState, services: seq<Service>): PtrState {
    p.(services := seq(|services|, i requires 0 <= i < |services| =>
      PtrService(services[i], if i < |p.services| then p.services[i].at else None)))
  }

  /** One step's edit. The heartbeat that is written late goes to its cell, whatever has become of it. */
  function EditPtr(p: PtrState, th: Thread, e: PtrEnv): PtrState
    requires Anchored(p)
  {
    if th.KingBeatWrite? && e.cell.Some? && InHeap(p.heap, e.cell.value) then
      var at := e.cell.value;
      p.(heap := p.heap[at.block := p.heap[at.block][at.index := Cell(p.heap, at).(beat := th.now)]])
    else
      var target := Step(Abstract(p), th, EnvAt(p, e)).edited;
      EditShape(Abstract(p), th, EnvAt(p, e));
      var kings := target.kings;
      var q := if |kings| == p.len then WriteKings(p, kings) else AppendKing(p, kings[p.len], e.spare);
      WriteServices(q, target.services).(lings := target.lings)
  }

  /** An edit leaves addresses alone: it appends at most one king, and unplaced services. */
  predicate InPlace(st: State, e: State) {
    && e.revision == st.revision
    && |st.kings| <= |e.kings| <= |st.kings| + 1
    && (forall i :: 0 <= i < |st.kings| ==> SameAddress(st.kings[i], e.kings[i]))
    && (|st.kings| < |e.kings| ==> e.kings[..|st.kings|] == st.kings)
    && |st.services| <= |e.services|
    && (forall i :: 0 <= i < |st.services| ==>
         st.services[i].host == e.services[i].host && st.services[i].bindPort == e.services[i].bindPort)
    && (forall i :: |st.services| <= i < |e.services| ==> e.services[i].host.None? && e.services[i].bindPort.None?)
  }

  lemma EditShape(st: State, th: Thread, env: Env)
    ensures InPlace(st, Step(st, th, env).edited)
  {
    hide FindFirst;
  }

  lemma WriteKingsShows(p: PtrState, kings: seq<King>)
    requires Anchored(p) && |kings| == p.len && forall i :: 0 <= i < p.len ==> SameAddress(Kings(p)[i], kings[i])
    ensures
      var q := WriteKings(p, kings);
      Anchored(q) && Abstract(q) == Abstract(p).(kings := kings) && |q.heap| == |p.heap|
  {
    var q := WriteKings(p, kings);
    forall i | 0 <= i < |p.services| && p.services[i].at.Some?
      ensures
        var at := p.services[i].at.value;
        AnchoredAt(q.heap, q.len, at) && SameAddress(Cell(p.heap, at), Cell(q.heap, at))
    {
      var at := p.services[i].at.value;
      assert at.block == |p.heap| - 1 ==> Kings(p)[at.index] == Cell(p.heap, at) && kings[at.index] == Cell(q.heap, at);
    }
    assert Abstract(q).services == Abstract(p).services;
    assert Kings(q) == kings;
  }

  lemma AppendKingShows(p: PtrState, king: King, spare: seq<King>)
    requires Anchored(p)
    ensures
      var q := AppendKing(p, king, spare);
      Anchored(q) && Abstract(q) == Abstract(p).(kings := Kings(p) + [king])
  {
    var q := AppendKing(p, king, spare);
    forall i | 0 <= i < |p.services| && p.services[i].at.Some?
      ensures
        var at := p.services[i].at.value;
        AnchoredAt(q.heap, q.len, at) && Cell(p.heap, at) == Cell(q.heap, at)
    {
    }
    assert Abstract(q).services == Abstract(p).services;
    assert Kings(q) == Kings(p) + [king];
  }

  lemma WriteServicesShows(p: PtrState, services: seq<Service>)
    requires Anchored(p) && |p.services| <= |services|
    requires forall i :: 0 <= i < |p.services| ==>
      Abstract(p).services[i].host == services[i].host && Abstract(p).services[i].bindPort == services[i].bindPort
    requires forall i :: |p.services| <= i < |services| ==> services[i].host.None? && services[i].bindPort.None?
    ensures
      var q := WriteServices(p, services);
      Anchored(q) && Abstract(q) == Abstract(p).(services := services)
  {
    var q := WriteServices(p, services);
    forall i | 0 <= i < |services| ensures ReadService(p.heap, q.services[i]) == services[i] {
      assert i < |p.services| ==> Abstract(p).services[i] == ReadService(p.heap, p.services[i]);
    }
    assert Abstract(q).services == services;
  }

  lemma WriteShows(p: PtrState, e: State, spare: seq<King>)
    requires Anchored(p) && InPlace(Abstract(p), e)
    ensures
      var q := if |e.kings| == p.len then WriteKings(p, e.kings) else AppendKing(p, e.kings[p.len], spare);
      var r := WriteServices(q, e.services).(lings := e.lings);
      Anchored(r) && Abstract(r) == e && (|e.kings| == p.len ==> |r.heap| == |p.heap| && r.len == p.len)
  {
    hide ReadService, AnchoredAt;
    var q := if |e.kings| == p.len then WriteKings(p, e.kings) else AppendKing(p, e.kings[p.len], spare);
    if |e.kings| == p.len {
      WriteKingsShows(p, e.kings);
    } else {
      AppendKingShows(p, e.kings[p.len], spare);
      assert e.kings == Kings(p) + [e.kings[p.len]];
    }
    WriteServicesShows(q, e.services);
    LingsShow(WriteServices(q, e.services), e.lings);
  }

  lemma LingsShow(p: PtrState, lings: seq<Ling>)
    requires Anchored(p)
    ensures Anchored(p.(lings := lings)) && Abstract(p.(lings := lings)) == Abstract(p).(lings := lings)
  {
  }

  lemma BeatShows(p: PtrState, th: Thread, e: PtrEnv)
    requires Anchored(p) && th.KingBeatWrite? && e.cell.Some? && InHeap(p.heap, e.cell.value)
    ensures
      var q := EditPtr(p, th, e);
      && Anchored(q) && Abstract(q) == Step(Abstract(p), th, EnvAt(p, e)).edited
      && |q.heap| == |p.heap| && q.len == p.len
  {
    var q, at := EditPtr(p, th, e), e.cell.value;
    forall i | 0 <= i < |p.services| && p.services[i].at.Some?
      ensures
        var to := p.services[i].at.value;
        AnchoredAt(q.heap, q.len, to) && SameAddress(Cell(p.heap, to), Cell(q.heap, to))
    {
    }
    assert Abstract(q).services == Abstract(p).services;
    if EntryAt(p, e.cell).Some? {
      assert Kings(q) == Kings(p)[at.index := Kings(p)[at.index].(beat := th.now)];
    } else {
      assert Kings(q) == Kings(p);
    }
  }

  /** An edit by pointer shows the edit by value. */
  lemma EditShows(p: PtrState, th: Thread, e: PtrEnv)
    requires Anchored(p)
    ensures
      var q, edited := EditPtr(p, th, e), Step(Abstract(p), th, EnvAt(p, e)).edited;
      && Anchored(q) && Abstract(q) == edited
      && (|edited.kings| == p.len ==> |q.heap| == |p.heap| && q.len == p.len)
  {
    hide Step, Anchored, Abstract, WriteKings, WriteServices, AppendKing;
    if th.KingBeatWrite? && e.cell.Some? && InHeap(p.heap, e.cell.value) {
      BeatShows(p, th, e);
    } else {
      EditShape(Abstract(p), th, EnvAt(p, e));
      WriteShows(p, Step(Abstract(p), th, EnvAt(p, e)).edited, e.spare);
    }
  }

  /** Everything a handler does while it holds the mutex once. */
  function SegmentPtr(p: PtrState, th: Thread, e: PtrEnv): (q: PtrState)
    requires Anchored(p)
    ensures Anchored(q)
    decreases Fuel(th)
  {
    var s := Step(Abstract(p), th, EnvAt(p, e));
    EditShows(p, th, e);
    var q := EditPtr(p, th, e);
    if s.unlocked then
      if s.commits then CommitPtr(q) else q
    else
      QuietStep(Abstract(p), th, EnvAt(p, e));
      SegmentPtr(q, s.next, e)
  }

  lemma {:induction false} SegmentShows(p: PtrState, th: Thread, e: PtrEnv)
    requires Anchored(p)
    ensures Abstract(SegmentPtr(p, th, e)) == Segment(Abstract(p), th, EnvAt(p, e)).After()
    decreases Fuel(th)
  {
    hide Step, EditPtr, Abstract, Anchored, CommitPtr, Commit;
    var s := Step(Abstract(p), th, EnvAt(p, e));
    var q := EditPtr(p, th, e);
    EditShows(p, th, e);
    if !s.unlocked {
      QuietStep(Abstract(p), th, EnvAt(p, e));
      SameSlice(p, q);
      SegmentShows(q, s.next, e);
    }
  }

  lemma SameSlice(p: PtrState, q: PtrState)
    requires Anchored(p)
    ensures |Abstract(p).kings| == p.len
    ensures |q.heap| == |p.heap| && q.len == p.len ==> forall e :: EnvAt(q, e) == EnvAt(p, e)
  {
  }

  // ---------------------------------------------------------------- runs

  datatype PtrSys = PtrSys(council: PtrState, threads: seq<Thread>, clock: int, issued: set<string>)

  datatype PtrLabel =
    | ArriveKing(king: PutKing)
    | ArriveLing(ling: PutLing)
    | Run(t: nat, env: PtrEnv)
    | Clean
    | Tick(now: int)

  function Shown(s: PtrSys): Sys
    requires Anchored(s.council)
  {
    Sys(Abstract(s.council), s.threads, s.clock, s.issued)
  }

  function ShownLabel(s: PtrSys, l: PtrLabel): Label {
    match l
    case ArriveKing(req) => Label.ArriveKing(req)
    case ArriveLing(req) => Label.ArriveLing(req)
    case Run(t, e) => Label.Run(t, EnvAt(s.council, e))
    case Clean => Label.Clean
    case Tick(now) => Label.Tick(now)
  }

  function NextPtr(s: PtrSys, l: PtrLabel): PtrSys
    requires Anchored(s.council) && Enabled(Shown(s), ShownLabel(s, l))
  {
    match l
    case ArriveKing(req) => s.(threads := s.threads + [StartKing(req)])
    case ArriveLing(req) => s.(threads := s.threads + [StartLing(req)])
    case Run(t, e) =>
      var next := Segment(Abstract(s.council), s.threads[t], EnvAt(s.council, e)).next;
      s.(
        council := SegmentPtr(s.council, s.threads[t], e), threads := s.threads[t := next],
          issued := s.issued + {e.newID})
    case Clean => s.(council := CleanByPointer(s.council, s.clock - STALE_THRESHOLD_MILLIS))
    case Tick(now) => s.(clock := now)
  }

  const NO_KINGS := PtrState(0, [], [[]], 0, [])

  /** A run of the council by pointer, for as long as no service points at a spare cell. */
  ghost predicate IsPtrRun(ss: seq<PtrSys>, ls: seq<PtrLabel>) {
    && |ss| == |ls| + 1
    && ss[0].council == NO_KINGS && ss[0].threads == [] && ss[0].issued == {}
    && forall i :: 0 <= i < |ls| && Anchored(ss[i].council) ==>
         Enabled(Shown(ss[i]), ShownLabel(ss[i], ls[i])) && ss[i + 1] == NextPtr(ss[i], ls[i])
  }

  /** Addresses are unique whenever the cleaner runs. */
  predicate UniqueAtCleans(ss: seq<PtrSys>, ls: seq<PtrLabel>)
    requires |ss| == |ls| + 1
  {
    forall i :: 0 <= i < |ls| && ls[i].Clean? && Anchored(ss[i].council) ==> KingsUnique(Kings(ss[i].council))
  }

  predicate ShiftsNothing(s: PtrSys, l: PtrLabel) {
    l.Clean? && Anchored(s.council) ==> NoneShifted(s.council, s.clock - STALE_THRESHOLD_MILLIS)
  }

  /** What the pointers show is, at every step, what the step does by value. */
  predicate ShowsStep(ss: seq<PtrSys>, ls: seq<PtrLabel>, i: nat)
    requires |ss| == |ls| + 1 && i < |ls|
  {
    && Anchored(ss[i].council) && Anchored(ss[i + 1].council)
    && Enabled(Shown(ss[i]), ShownLabel(ss[i], ls[i]))
    && Shown(ss[i + 1]) == Next(Shown(ss[i]), ShownLabel(ss[i], ls[i]))
  }

  lemma NextShows(s: PtrSys, l: PtrLabel)
    requires Anchored(s.council) && Enabled(Shown(s), ShownLabel(s, l))
    requires l.Clean? ==> KingsUnique(Kings(s.council)) && ShiftsNothing(s, l)
    ensures Anchored(NextPtr(s, l).council) && Shown(NextPtr(s, l)) == Next(Shown(s), ShownLabel(s, l))
  {
    hide SegmentPtr, Segment, CleanByPointer, CleanPass, Abstract, Anchored, NoneShifted, KingsUnique;
    match l
    case Run(t, e) => SegmentShows(s.council, s.threads[t], e);
    case Clean => CleanCommutes(s.council, s.clock - STALE_THRESHOLD_MILLIS);
    case _ =>
  }

  /** The run by value that a run by pointer shows. */
  ghost predicate Shows(ss: seq<PtrSys>, ls: seq<PtrLabel>)
    requires |ss| == |ls| + 1
  {
    forall i :: 0 <= i < |ls| ==> ShowsStep(ss, ls, i)
  }

  lemma {:induction false} StaysAnchored(ss: seq<PtrSys>, ls: seq<PtrLabel>, n: nat)
    requires IsPtrRun(ss, ls) && UniqueAtCleans(ss, ls) && n <= |ls|
    requires forall i :: 0 <= i < n ==> ShiftsNothing(ss[i], ls[i])
    ensures Anchored(ss[n].council) && forall i :: 0 <= i < n ==> ShowsStep(ss, ls, i)
  {
    hide Enabled, Next, NextPtr, ShiftsNothing, KingsUnique;
    if n > 0 {
      StaysAnchored(ss, ls, n - 1);
      NextShows(ss[n - 1], ls[n - 1]);
      assert ShowsStep(ss, ls, n - 1);
    }
  }

  predicate AllAnchored(ss: seq<PtrSys>) {
    forall i :: 0 <= i < |ss| ==> Anchored(ss[i].council)
  }

  function ShownAll(ss: seq<PtrSys>): seq<Sys>
    requires AllAnchored(ss)
  {
    seq(|ss|, i requires 0 <= i < |ss| => Shown(ss[i]))
  }

  function ShownLabels(ss: seq<PtrSys>, ls: seq<PtrLabel>): seq<Label>
    requires |ss| == |ls| + 1
  {
    seq(|ls|, i requires 0 <= i < |ls| => ShownLabel(ss[i], ls[i]))
  }

  lemma ShownIsRun(ss: seq<PtrSys>, ls: seq<PtrLabel>)
    requires IsPtrRun(ss, ls) && Shows(ss, ls)
    ensures AllAnchored(ss) && IsRun(ShownAll(ss), ShownLabels(ss, ls))
  {
    hide Enabled, Next, NextPtr, Anchored;
    NobodyYet();
    forall i | 0 <= i < |ss| ensures Anchored(ss[i].council) {
      if i > 0 {
        assert ShowsStep(ss, ls, i - 1);
      }
    }
    var vs, ws := ShownAll(ss), ShownLabels(ss, ls);
    forall i | 0 <= i < |ws| ensures Enabled(vs[i], ws[i]) && vs[i + 1] == Next(vs[i], ws[i]) {
      assert ShowsStep(ss, ls, i);
    }
  }

  lemma NobodyYet()
    ensures Anchored(NO_KINGS) && Abstract(NO_KINGS) == EMPTY
  {
  }

  lemma ShownCleanShiftsNothing(ss: seq<PtrSys>, ls: seq<PtrLabel>, i: nat)
    requires IsPtrRun(ss, ls) && UniqueAtCleans(ss, ls) && Shows(ss, ls) && i < |ls| && ls[i].Clean?
    ensures ShiftsNothing(ss[i], ls[i])
  {
    hide CleanByPointer, CleanPass, NoneShifted, Abstract, Anchored, KingsUnique, IsRun, Core;
    var threshold := ss[i].clock - STALE_THRESHOLD_MILLIS;
    ShownIsRun(ss, ls);
    PortExclusivity(ShownAll(ss), ShownLabels(ss, ls), i);
    CoreDistinct(Abstract(ss[i].council), ss[i].issued);
    assert ShowsStep(ss, ls, i);
    CleanCommutesIff(ss[i].council, threshold);
  }

  lemma CoreDistinct(st: State, issued: set<string>)
    requires Core(st, issued)
    ensures DistinctIDs(st.services)
  {
  }

  /** While addresses are unique whenever the cleaner runs, a run of the council by pointer shows, step by step, a
      run by value, if and only if no pass shifts a cell that a service with a ling points at. */
  lemma PointerRunShowsValueRun(ss: seq<PtrSys>, ls: seq<PtrLabel>)
    requires IsPtrRun(ss, ls) && UniqueAtCleans(ss, ls)
    ensures Shows(ss, ls) <==> forall i :: 0 <= i < |ls| ==> ShiftsNothing(ss[i], ls[i])
    ensures Shows(ss, ls) ==> AllAnchored(ss) && IsRun(ShownAll(ss), ShownLabels(ss, ls))
  {
    hide NextPtr, Enabled, UniqueAtCleans, ShiftsNothing, IsRun, ShowsStep;
    if Shows(ss, ls) {
      ShownIsRun(ss, ls);
      forall i | 0 <= i < |ls| ensures ShiftsNothing(ss[i], ls[i]) {
        if ls[i].Clean? {
          ShownCleanShiftsNothing(ss, ls, i);
        } else {
          OthersShiftNothing(ss[i], ls[i]);
        }
      }
    }
    if forall i :: 0 <= i < |ls| ==> ShiftsNothing(ss[i], ls[i]) {
      StaysAnchored(ss, ls, |ls|);
    }
  }

  lemma OthersShiftNothing(s: PtrSys, l: PtrLabel)
    requires !l.Clean?
    ensures ShiftsNothing(s, l)
  {
  }

  /** So when the stale kings of every pass are the last ones to have registered, what the pointers show is a run
      of the council by value, and every theorem about those runs holds of it. */
  lemma SuffixRunShows(ss: seq<PtrSys>, ls: seq<PtrLabel>)
    requires IsPtrRun(ss, ls) && UniqueAtCleans(ss, ls)
    requires forall i :: 0 <= i < |ls| && ls[i].Clean? && Anchored(ss[i].council) ==>
      SuffixStale(ss[i].council, ss[i].clock - STALE_THRESHOLD_MILLIS)
    ensures AllAnchored(ss) && IsRun(ShownAll(ss), ShownLabels(ss, ls))
  {
    hide NextPtr, Enabled, UniqueAtCleans, IsRun, Shows, SuffixStale, NoneShifted;
    forall i | 0 <= i < |ls| ensures ShiftsNothing(ss[i], ls[i]) {
      if ls[i].Clean? && Anchored(ss[i].council) {
        SuffixShiftsNothing(ss[i].council, ss[i].clock - STALE_THRESHOLD_MILLIS);
      }
    }
    PointerRunShowsValueRun(ss, ls);
  }
}
