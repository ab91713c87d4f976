/** Concrete runs of the council in which something does not go as one might expect. Each run is a list of
    states and steps; one lemma computes each step that does any work. */
module Scenarios {
  import opened Basics
  import opened Text
  import opened CouncilState
  import opened Provisioner
  import opened Placement
  import opened Cleaner
  import opened Handlers
  import opened Registry
  import opened Runs
  import opened Freshness
  import opened WatcherCache
  import opened KingReaction
  import opened Reactions
  import opened Effects
  import opened Requests

  predicate Moves(s: Sys, l: Label, t: Sys) {
    Enabled(s, l) && Next(s, l) == t
  }

  lemma RunOf(ss: seq<Sys>, ls: seq<Label>)
    requires |ss| == |ls| + 1 && ss[0].council == EMPTY && ss[0].threads == [] && ss[0].issued == {}
    requires forall i :: 0 <= i < |ls| ==> Moves(ss[i], ls[i], ss[i + 1])
    ensures IsRun(ss, ls)
  {
    hide Next, Enabled;
    forall i | 0 <= i < |ls| ensures Enabled(ss[i], ls[i]) && ss[i + 1] == Next(ss[i], ls[i]) {
      assert Moves(ss[i], ls[i], ss[i + 1]);
    }
  }

  /** The steps that leave the council alone: a request arrives, the clock moves. */
  lemma Arrives(s: Sys, req: PutLing, t: Sys)
    requires req.lingID != "" && req.preferredLocation != "" && t == s.(threads := s.threads + [LingReadyLoop(req, 0)])
    ensures Moves(s, ArriveLing(req), t)
  {
  }

  lemma Ticks(s: Sys, now: int, t: Sys)
    requires t == s.(clock := now)
    ensures Moves(s, Tick(now), t)
  {
  }

  function At(clock: int, id: string): Env {
    Env(clock, id, "token", None)
  }

  // ---------------------------------------------------------------- a council without kings

  predicate Kingless(st: State) {
    st.kings == [] && forall i :: 0 <= i < |st.services| ==> st.services[i].bindPort.None?
  }

  lemma CommitWithoutKings(st: State)
    requires Kingless(st)
    ensures Commit(st) == st.(revision := st.revision + 1)
  {
    var counted := st.(revision := st.revision + 1);
    assert Deprovision(counted) == counted;
    NothingToPlace(counted, |counted.services|);
  }

  /** A first request registers the ling and its service. */
  lemma RegistersBoth(st: State, req: PutLing, env: Env)
    requires Kingless(st) && req.readyServiceIDs == [] && 0 < |req.tunnels|
    requires FindFirst(ByLingID(req.lingID), st.lings).None?
    requires FindFirst(ByNameAndLing(req.tunnels[0], req.lingID), st.services).None?
    ensures
      var p := Segment(st, LingReadyLoop(req, 0), env);
      && p.next == LingTunnelLoop(req, env.clock, 1)
      && p.After() == State(
        st.revision + 1, st.services + [NewService(req, req.tunnels[0], env)], [],
        st.lings + [Ling(req.lingID, req.shuttingDown, env.clock)])
  {
    hide Commit, FindFirst, Segment;
    ReadyLoopPasses(st, req, 0, env);
    CommitWithoutKings(Segment(st, LingReadyLoop(req, 0), env).edited);
  }

  /** A request that changes the only ling's flag parks before its service. */
  lemma ChangesFlag(st: State, req: PutLing, env: Env, l: Ling)
    requires Kingless(st) && req.readyServiceIDs == [] && 0 < |req.tunnels|
    requires st.lings == [l] && l.lingID == req.lingID && l.shuttingDown != req.shuttingDown
    ensures
      var p := Segment(st, LingReadyLoop(req, 0), env);
      && p.next == LingServiceFind(req, env.clock, 0)
      && p.After() == State(st.revision + 1, st.services, [], [Ling(req.lingID, req.shuttingDown, env.clock)])
  {
    hide Commit, Segment;
    ReadyLoopPasses(st, req, 0, env);
    assert ByLingID(req.lingID)(st.lings[0]);
    CommitWithoutKings(Segment(st, LingReadyLoop(req, 0), env).edited);
  }

  /** A parked handler whose service exists ends. */
  lemma EndsParked(st: State, req: PutLing, now: int, i: nat, env: Env)
    requires i < |req.tunnels| && FindFirst(ByNameAndLing(req.tunnels[i], req.lingID), st.services).Some?
    ensures var p := Segment(st, LingServiceFind(req, now, i), env); p.next == Finished(Accepted) && p.After() == st
  {
    hide FindFirst;
  }

  /** A parked handler appends its service, whether its ling is still there or not. */
  lemma AppendsParked(st: State, req: PutLing, now: int, i: nat, env: Env)
    requires Kingless(st) && i < |req.tunnels|
    requires FindFirst(ByNameAndLing(req.tunnels[i], req.lingID), st.services).None?
    ensures
      var p := Segment(st, LingServiceFind(req, now, i), env);
      && p.next == LingTunnelLoop(req, now, i + 1)
      && p.After() == st.(revision := st.revision + 1, services := st.services + [NewService(req, req.tunnels[i], env)])
  {
    hide Commit, FindFirst;
    CommitWithoutKings(LingServiceStep(st, req, now, i, env).edited);
  }

  /** A pass at which everything is stale. */
  lemma CleanRemovesAll(st: State, threshold: int)
    requires st.kings == [] && st.lings != [] && forall i :: 0 <= i < |st.lings| ==> st.lings[i].beat <= threshold
    ensures CleanPass(st, threshold) == State(st.revision + 1, [], [], [])
  {
    FilterNone(FreshLing(threshold), st.lings);
    FilterNone(Retained([], []), st.services);
  }

  // ---------------------------------------------------------------- an uncounted change

  const WITH_A := PutLing("ling", false, ["a"], [], "here")
  const WITH_B := PutLing("ling", true, ["b"], [], "here")

  const SERVICE_A := NewService(WITH_A, "a", At(0, "1"))
  const SERVICE_B := NewService(WITH_B, "b", At(10000, "3"))

  const ONE := State(1, [SERVICE_A], [], [Ling("ling", false, 0)])
  const TWO := State(2, [SERVICE_A], [], [Ling("ling", true, 0)])
  const THREE := State(3, [], [], [])
  const FOUR := State(4, [SERVICE_B], [], [])
  const FIVE := State(4, [SERVICE_B], [], [Ling("ling", true, 10000)])

  const ARRIVED_A := LingReadyLoop(WITH_A, 0)
  const PAST_A := LingTunnelLoop(WITH_A, 0, 1)
  const ARRIVED_B := LingReadyLoop(WITH_B, 0)
  const PARKED_B := LingServiceFind(WITH_B, 0, 0)
  const PAST_B := LingTunnelLoop(WITH_B, 0, 1)

  const UNCOUNTED: seq<Sys> := [
    Sys(EMPTY, [], 0, {}),
    Sys(EMPTY, [ARRIVED_A], 0, {}),
    Sys(ONE, [PAST_A], 0, {"1"}),
    Sys(ONE, [PAST_A, ARRIVED_B], 0, {"1"}),
    Sys(TWO, [PAST_A, PARKED_B], 0, {"1", "2"}),
    Sys(TWO, [PAST_A, PARKED_B], 10000, {"1", "2"}),
    Sys(THREE, [PAST_A, PARKED_B], 10000, {"1", "2"}),
    Sys(FOUR, [PAST_A, PAST_B], 10000, {"1", "2", "3"}),
    Sys(FOUR, [PAST_A, PAST_B, ARRIVED_B], 10000, {"1", "2", "3"}),
    Sys(FIVE, [PAST_A, PAST_B, Finished(Accepted)], 10000, {"1", "2", "3", "4"})]

  const UNCOUNTED_STEPS: seq<Label> := [
    ArriveLing(WITH_A), Run(0, At(0, "1")), ArriveLing(WITH_B), Run(1, At(0, "2")), Tick(10000), Clean,
    Run(1, At(10000, "3")), ArriveLing(WITH_B), Run(2, At(10000, "4"))]

  lemma RegistersA()
    ensures Moves(UNCOUNTED[1], UNCOUNTED_STEPS[1], UNCOUNTED[2])
  {
    hide Segment;
    RegistersBoth(EMPTY, WITH_A, At(0, "1"));
  }

  lemma ParksB()
    ensures Moves(UNCOUNTED[3], UNCOUNTED_STEPS[3], UNCOUNTED[4])
  {
    hide Segment;
    ChangesFlag(ONE, WITH_B, At(0, "2"), ONE.lings[0]);
  }

  lemma DropsAll()
    ensures Moves(UNCOUNTED[5], UNCOUNTED_STEPS[5], UNCOUNTED[6])
  {
    hide CleanPass;
    CleanRemovesAll(TWO, 0);
  }

  lemma AppendsB()
    ensures Moves(UNCOUNTED[6], UNCOUNTED_STEPS[6], UNCOUNTED[7])
  {
    hide Segment;
    AppendsParked(THREE, WITH_B, 0, 0, At(10000, "3"));
  }

  /** The ling's next request appends the ling, finds the service, and ends without a commit. */
  lemma AppendsLing()
    ensures Moves(UNCOUNTED[8], UNCOUNTED_STEPS[8], UNCOUNTED[9])
  {
    hide Segment, Commit;
    ReadyLoopPasses(FOUR, WITH_B, 0, At(10000, "4"));
    assert ByNameAndLing("b", "ling")(FOUR.services[0]);
  }

  lemma UncountedIsRun()
    ensures IsRun(UNCOUNTED, UNCOUNTED_STEPS)
  {
    hide Moves;
    Arrives(UNCOUNTED[0], WITH_A, UNCOUNTED[1]);
    RegistersA();
    Arrives(UNCOUNTED[2], WITH_B, UNCOUNTED[3]);
    ParksB();
    Ticks(UNCOUNTED[4], 10000, UNCOUNTED[5]);
    DropsAll();
    AppendsB();
    Arrives(UNCOUNTED[7], WITH_B, UNCOUNTED[8]);
    AppendsLing();
    RunOf(UNCOUNTED, UNCOUNTED_STEPS);
  }

  /** A request outlasts the staleness window, and two states with the same revision do not have the same
      lings. */
  lemma UncountedChange()
    ensures IsRun(UNCOUNTED, UNCOUNTED_STEPS)
    ensures UNCOUNTED[7].council.revision == UNCOUNTED[9].council.revision
    ensures !SameButBeat(UNCOUNTED[7].council, UNCOUNTED[9].council)
  {
    UncountedIsRun();
  }

  /** In that run a late response of an older fetch puts an older snapshot back in the cache: the services
      and the revision that a peer acts on go back. */
  lemma CacheGoesBack()
    ensures IsRun(UNCOUNTED, UNCOUNTED_STEPS) && InRun(UNCOUNTED, [Got(4), Got(1)])
    ensures CacheAfter(UNCOUNTED, [Got(4)]) == Some(TWO) && CacheAfter(UNCOUNTED, [Got(4), Got(1)]) == Some(EMPTY)
    ensures !NeverGoesBack(UNCOUNTED, [Got(4), Got(1)])
  {
    hide NeverGoesBack;
    UncountedIsRun();
    var fetches := [Got(4), Got(1)];
    assert Front(fetches) == [Got(4)] && Front([Got(4)]) == [];
    assert fetches[0].Got? && fetches[1].Got?;
    GoesBackIff(UNCOUNTED, fetches);
  }

  // ---------------------------------------------------------------- an old heartbeat

  const OLD := PutLing("ling", false, ["a", "a"], [], "here")
  const MID := PutLing("ling", true, ["a"], [], "here")
  const NEW := PutLing("ling", false, ["b"], [], "here")

  const OLD_A := NewService(OLD, "a", At(0, "1"))
  const NEW_B := NewService(NEW, "b", At(10000, "6"))

  const OLD_DONE_ONE := LingTunnelLoop(OLD, 0, 1)
  const MID_PARKED := LingServiceFind(MID, 0, 0)
  const NEW_PARKED := LingServiceFind(NEW, 9000, 0)
  const DONE := Finished(Accepted)

  const BEATEN_ONE := State(1, [OLD_A], [], [Ling("ling", false, 0)])
  const BEATEN_TWO := State(2, [OLD_A], [], [Ling("ling", true, 0)])
  const BEATEN_THREE := State(3, [OLD_A], [], [Ling("ling", false, 9000)])
  const BEATEN_BACK := State(3, [OLD_A], [], [Ling("ling", false, 0)])
  const BEATEN_GONE := State(4, [], [], [])
  const BEATEN_ALONE := State(5, [NEW_B], [], [])

  const BEATEN: seq<Sys> := [
    Sys(EMPTY, [], 0, {}),
    Sys(EMPTY, [LingReadyLoop(OLD, 0)], 0, {}),
    Sys(BEATEN_ONE, [OLD_DONE_ONE], 0, {"1"}),
    Sys(BEATEN_ONE, [OLD_DONE_ONE, LingReadyLoop(MID, 0)], 0, {"1"}),
    Sys(BEATEN_TWO, [OLD_DONE_ONE, MID_PARKED], 0, {"1", "2"}),
    Sys(BEATEN_TWO, [OLD_DONE_ONE, DONE], 0, {"1", "2", "3"}),
    Sys(BEATEN_TWO, [OLD_DONE_ONE, DONE], 9000, {"1", "2", "3"}),
    Sys(BEATEN_TWO, [OLD_DONE_ONE, DONE, LingReadyLoop(NEW, 0)], 9000, {"1", "2", "3"}),
    Sys(BEATEN_THREE, [OLD_DONE_ONE, DONE, NEW_PARKED], 9000, {"1", "2", "3", "4"}),
    Sys(BEATEN_BACK, [DONE, DONE, NEW_PARKED], 9000, {"1", "2", "3", "4", "5"}),
    Sys(BEATEN_BACK, [DONE, DONE, NEW_PARKED], 10000, {"1", "2", "3", "4", "5"}),
    Sys(BEATEN_GONE, [DONE, DONE, NEW_PARKED], 10000, {"1", "2", "3", "4", "5"}),
    Sys(BEATEN_ALONE, [DONE, DONE, LingTunnelLoop(NEW, 9000, 1)], 10000, {"1", "2", "3", "4", "5", "6"})]

  const BEATEN_STEPS: seq<Label> := [
    ArriveLing(OLD), Run(0, At(0, "1")), ArriveLing(MID), Run(1, At(0, "2")), Run(1, At(0, "3")), Tick(9000),
    ArriveLing(NEW), Run(2, At(9000, "4")), Run(0, At(9000, "5")), Tick(10000), Clean, Run(2, At(10000, "6"))]

  lemma OldRegisters()
    ensures Moves(BEATEN[1], BEATEN_STEPS[1], BEATEN[2])
  {
    hide Segment;
    RegistersBoth(EMPTY, OLD, At(0, "1"));
  }

  lemma MidFlips()
    ensures Moves(BEATEN[3], BEATEN_STEPS[3], BEATEN[4])
  {
    hide Segment;
    ChangesFlag(BEATEN_ONE, MID, At(0, "2"), BEATEN_ONE.lings[0]);
  }

  lemma MidEnds()
    ensures Moves(BEATEN[4], BEATEN_STEPS[4], BEATEN[5])
  {
    hide Segment;
    assert ByNameAndLing("a", "ling")(BEATEN_TWO.services[0]);
    EndsParked(BEATEN_TWO, MID, 0, 0, At(0, "3"));
  }

  lemma NewParks()
    ensures Moves(BEATEN[7], BEATEN_STEPS[7], BEATEN[8])
  {
    hide Segment;
    ChangesFlag(BEATEN_TWO, NEW, At(9000, "4"), BEATEN_TWO.lings[0]);
  }

  /** The old request ends; on its way it writes its own time as the ling's heartbeat. */
  lemma OldEnds()
    ensures Moves(BEATEN[8], BEATEN_STEPS[8], BEATEN[9])
  {
    hide Segment, Commit;
    LingTunnelsAtOnce(BEATEN_THREE, OLD_DONE_ONE, At(9000, "5"));
    assert ByLingID("ling")(BEATEN_THREE.lings[0]);
    assert ByNameAndLing("a", "ling")(BEATEN_THREE.services[0]);
  }

  lemma BeatenDropped()
    ensures Moves(BEATEN[10], BEATEN_STEPS[10], BEATEN[11])
  {
    hide CleanPass;
    CleanRemovesAll(BEATEN_BACK, 0);
  }

  lemma NewAppends()
    ensures Moves(BEATEN[11], BEATEN_STEPS[11], BEATEN[12])
  {
    hide Segment;
    AppendsParked(BEATEN_GONE, NEW, 9000, 0, At(10000, "6"));
  }

  lemma BeatenIsRun()
    ensures IsRun(BEATEN, BEATEN_STEPS)
  {
    hide Moves;
    Arrives(BEATEN[0], OLD, BEATEN[1]);
    OldRegisters();
    Arrives(BEATEN[2], MID, BEATEN[3]);
    MidFlips();
    MidEnds();
    Ticks(BEATEN[5], 9000, BEATEN[6]);
    Arrives(BEATEN[6], NEW, BEATEN[7]);
    NewParks();
    OldEnds();
    Ticks(BEATEN[9], 10000, BEATEN[10]);
    BeatenDropped();
    NewAppends();
    RunOf(BEATEN, BEATEN_STEPS);
  }

  /** The cleaner does not treat the time of any ling request in flight as stale. */
  predicate OwnTimesFresh(s: Sys) {
    forall t :: 0 <= t < |s.threads| && InTunnels(s.threads[t]) ==> s.clock - STALE_THRESHOLD_MILLIS < s.threads[t].now
  }

  /** Fresh request times are not enough for ling integrity: here every pass meets them, yet an older request,
      overlapping and by then finished, has put the ling's heartbeat back, the pass drops the ling, and the
      parked request appends a service without one. */
  lemma FreshTimesNotEnough()
    ensures IsRun(BEATEN, BEATEN_STEPS)
    ensures forall i :: 0 <= i < |BEATEN_STEPS| && BEATEN_STEPS[i].Clean? ==> OwnTimesFresh(BEATEN[i])
    ensures !CleanIsFresh(BEATEN[10]) && !LingIntegrity(BEATEN[12].council)
  {
    BeatenIsRun();
    assert BEATEN[10].threads[2].LingServiceFind? && BEATEN[10].council.lings[0] in BEATEN[10].council.lings;
    assert BEATEN[12].council.services[0].lingID == "ling";
  }

  // ---------------------------------------------------------------- a port that changes hands

  const KING_FIRST := PutKing("host", false, [KingTunnel(1, "5-5")], [], "here", "first")
  const KING_AGAIN := PutKing("host", false, [KingTunnel(1, "5-5")], [], "here", "again")
  const HAS_X := PutLing("x", false, ["x"], [], "here")
  const HAS_Y := PutLing("y", false, ["y"], [], "here")

  const THE_KING := NewKing(KING_FIRST, KING_FIRST.tunnels[0], 5000)
  const AGAIN := THE_KING.(certPEM := "again")
  const SERVICE_X := NewService(HAS_X, "x", At(0, "1"))
  const SERVICE_Y := NewService(HAS_Y, "y", At(5000, "3"))
  const X_PLACED := PlaceAt(SERVICE_X, THE_KING, 5)
  const Y_PLACED := PlaceAt(SERVICE_Y, THE_KING, 5)

  const X_WAITS := State(1, [SERVICE_X], [], [Ling("x", false, 0)])
  const X_HAS_PORT := State(3, [X_PLACED], [THE_KING], [Ling("x", false, 0)])
  const Y_WAITS := State(4, [X_PLACED, SERVICE_Y], [THE_KING], [Ling("x", false, 0), Ling("y", false, 5000)])
  const X_GONE := State(5, [SERVICE_Y], [THE_KING], [Ling("y", false, 5000)])
  const Y_HAS_PORT := State(7, [Y_PLACED], [AGAIN], [Ling("y", false, 5000)])

  const PAST_X := LingTunnelLoop(HAS_X, 0, 1)
  const PAST_KING := KingTunnelLoop(KING_FIRST, 5000, 1)
  const PAST_Y := LingTunnelLoop(HAS_Y, 5000, 1)

  const HANDOVER: seq<Sys> := [
    Sys(EMPTY, [], 0, {}),
    Sys(EMPTY, [LingReadyLoop(HAS_X, 0)], 0, {}),
    Sys(X_WAITS, [PAST_X], 0, {"1"}),
    Sys(X_WAITS, [PAST_X], 5000, {"1"}),
    Sys(X_WAITS, [PAST_X, KingReadyLoop(KING_FIRST, 0)], 5000, {"1"}),
    Sys(X_HAS_PORT, [PAST_X, PAST_KING], 5000, {"1", "2"}),
    Sys(X_HAS_PORT, [PAST_X, PAST_KING, LingReadyLoop(HAS_Y, 0)], 5000, {"1", "2"}),
    Sys(Y_WAITS, [PAST_X, PAST_KING, PAST_Y], 5000, {"1", "2", "3"}),
    Sys(Y_WAITS, [PAST_X, PAST_KING, PAST_Y], 10000, {"1", "2", "3"}),
    Sys(X_GONE, [PAST_X, PAST_KING, PAST_Y], 10000, {"1", "2", "3"}),
    Sys(X_GONE, [PAST_X, PAST_KING, PAST_Y, KingReadyLoop(KING_AGAIN, 0)], 10000, {"1", "2", "3"}),
    Sys(Y_HAS_PORT, [PAST_X, PAST_KING, PAST_Y, KingBeatWrite(KING_AGAIN, 10000, 0)], 10000, {"1", "2", "3", "4"})]

  const HANDOVER_STEPS: seq<Label> := [
    ArriveLing(HAS_X), Run(0, At(0, "1")), Tick(5000), ArriveKing(KING_FIRST), Run(1, At(5000, "2")),
    ArriveLing(HAS_Y), Run(2, At(5000, "3")), Tick(10000), Clean, ArriveKing(KING_AGAIN), Run(3, At(10000, "4"))]

  lemma ArrivesKing(s: Sys, req: PutKing, t: Sys)
    requires req.host != "" && req.location != "" && t == s.(threads := s.threads + [KingReadyLoop(req, 0)])
    ensures Moves(s, ArriveKing(req), t)
  {
  }

  /** With one running king of one port, that port goes to the service at i if nobody has it. */
  lemma OneSlot(st: State, k: King, i: nat)
    requires st.kings == [k] && !k.shuttingDown && k.ports == "5-5" && i < |st.services|
    ensures ProvisionService(st, i) ==
      if 5 in UsedPorts(st.services, k.host, k.bindPort) then st
      else st.(services := st.services[i := PlaceAt(st.services[i], k, 5)], revision := st.revision + 1)
  {
    hide ProvisionService, UsedPorts;
    RangeRoundTrip(5, 5);
    assert Itoa(5) == "5";
    assert forall p :: InRange(k, p) <==> p == 5;
    var at, port := ProvisionServiceChooses(st, i);
    if 5 !in UsedPorts(st.services, k.host, k.bindPort) {
      assert FreeAt(st.services, st.kings[0], 5);
      assert Offers(st, 0);
    }
  }

  lemma CommitOne(st: State, k: King)
    requires st.kings == [k] && !k.shuttingDown && k.ports == "5-5" && |st.services| == 1 &&
      st.services[0].bindPort.None?
    ensures Commit(st) == st.(services := [PlaceAt(st.services[0], k, 5)], revision := st.revision + 2)
  {
    hide ProvisionService;
    var counted := st.(revision := st.revision + 1);
    assert Deprovision(counted) == counted;
    OneSlot(counted, k, 0);
    assert ProvisionFirst(counted, 1) == ProvisionService(counted, 0);
  }

  lemma CommitFull(st: State, k: King)
    requires st.kings == [k] && !k.shuttingDown && k.ports == "5-5" && |st.services| == 2
    requires st.services[0] == PlaceAt(st.services[0], k, 5) && st.services[1].bindPort.None?
    ensures Commit(st) == st.(revision := st.revision + 1)
  {
    hide ProvisionService;
    var counted := st.(revision := st.revision + 1);
    assert Deprovision(counted) == counted;
    assert st.services[0] in counted.services;
    OneSlot(counted, k, 1);
    assert ProvisionFirst(counted, 1) == counted;
    assert ProvisionFirst(counted, 2) == counted;
  }

  lemma XRegisters()
    ensures Moves(HANDOVER[1], HANDOVER_STEPS[1], HANDOVER[2])
  {
    hide Segment;
    RegistersBoth(EMPTY, HAS_X, At(0, "1"));
  }

  lemma KingRegisters()
    ensures Moves(HANDOVER[4], HANDOVER_STEPS[4], HANDOVER[5])
  {
    hide Commit;
    var p := Segment(X_WAITS, KingReadyLoop(KING_FIRST, 0), At(5000, "2"));
    assert KingReadyStep(X_WAITS, KING_FIRST, 0, At(5000, "2")).next == KingTunnelLoop(KING_FIRST, 5000, 0);
    assert p == KingTunnelStep(X_WAITS, KING_FIRST, 5000, 0);
    CommitOne(p.edited, THE_KING);
  }

  lemma YRegisters()
    ensures Moves(HANDOVER[6], HANDOVER_STEPS[6], HANDOVER[7])
  {
    hide Commit, Segment;
    ReadyLoopPasses(X_HAS_PORT, HAS_Y, 0, At(5000, "3"));
    var p := Segment(X_HAS_PORT, LingReadyLoop(HAS_Y, 0), At(5000, "3"));
    assert !ByLingID("y")(X_HAS_PORT.lings[0]) && !ByNameAndLing("y", "y")(X_HAS_PORT.services[0]);
    assert p.edited == Y_WAITS.(revision := 3);
    CommitFull(p.edited, THE_KING);
  }

  /** The pass drops the first ling and its service; the king and the second ling have fresh heartbeats. */
  lemma XCleaned()
    ensures Moves(HANDOVER[8], HANDOVER_STEPS[8], HANDOVER[9])
  {
    hide Filter;
    FilterAll(FreshKing(0), [THE_KING]);
    FilterShort(FreshKing(0), [THE_KING]);
    var x, y := Y_WAITS.lings[0], Y_WAITS.lings[1];
    DropsFirst(FreshLing(0), x, y);
    assert Y_WAITS.lings == [x, y];
    var keep := Retained([THE_KING], [y]);
    assert [y][0] in [y] && HasLing([y], "y");
    DropsFirst(keep, X_PLACED, SERVICE_Y);
  }

  lemma DropsFirst<T>(keep: T -> bool, x: T, y: T)
    requires !keep(x) && keep(y)
    ensures Filter(keep, [x, y]) == [y]
  {
    hide Filter;
    FilterConcat(keep, [x], [y]);
    FilterNone(keep, [x]);
    FilterAll(keep, [y]);
    FilterShort(keep, [y]);
    assert [x] + [y] == [x, y];
  }

  lemma YTakesPort()
    ensures Moves(HANDOVER[10], HANDOVER_STEPS[10], HANDOVER[11])
  {
    hide Commit;
    var p := Segment(X_GONE, KingReadyLoop(KING_AGAIN, 0), At(10000, "4"));
    assert ByPortsAndHost("5-5", "host")(X_GONE.kings[0]);
    assert KingReadyStep(X_GONE, KING_AGAIN, 0, At(10000, "4")).next == KingTunnelLoop(KING_AGAIN, 10000, 0);
    assert p == KingTunnelStep(X_GONE, KING_AGAIN, 10000, 0);
    assert p.edited == X_GONE.(kings := [AGAIN]);
    CommitOne(p.edited, AGAIN);
  }

  lemma HandoverIsRun()
    ensures IsRun(HANDOVER, HANDOVER_STEPS)
  {
    hide Moves;
    Arrives(HANDOVER[0], HAS_X, HANDOVER[1]);
    XRegisters();
    Ticks(HANDOVER[2], 5000, HANDOVER[3]);
    ArrivesKing(HANDOVER[3], KING_FIRST, HANDOVER[4]);
    KingRegisters();
    Arrives(HANDOVER[5], HAS_Y, HANDOVER[6]);
    YRegisters();
    Ticks(HANDOVER[7], 10000, HANDOVER[8]);
    XCleaned();
    ArrivesKing(HANDOVER[9], KING_AGAIN, HANDOVER[10]);
    YTakesPort();
    RunOf(HANDOVER, HANDOVER_STEPS);
  }

  const IN_TURN: seq<WatchStep> := [Respond(Got(7)), HandOn(0), Respond(Got(11)), HandOn(1)]

  /** A watcher whose calls do not overlap can be handed the state with the first service on the port and next the
      state with the second: the listener on the port keeps serving the first. */
  lemma HandoverHappens()
    ensures IsRun(HANDOVER, HANDOVER_STEPS) && Schedule(HANDOVER, IN_TURN) && OneCallAtATime(HANDOVER, IN_TURN)
    ensures HandedOn(HANDOVER, IN_TURN) == [Y_WAITS, Y_HAS_PORT]
    ensures
      var desired := DesiredAlong([Y_WAITS, Y_HAS_PORT], 1, "host");
      Last(desired) == map[5 := "3"] && ListenersAfter(desired) == map[5 := "1"]
  {
    hide IsRun;
    HandoverIsRun();
    InTurn();
    DesiredHere();
    var desired := DesiredAlong([Y_WAITS, Y_HAS_PORT], 1, "host");
    assert desired == [map[5 := "1"], map[5 := "3"]];
    assert Front(desired) == [map[5 := "1"]] && Front([map[5 := "1"]]) == [];
  }

  /** What two responses, of the states before and after, store. */
  lemma BothStored()
    ensures Stored(HANDOVER, []) == []
    ensures InRun(HANDOVER, [Got(7)]) && Stored(HANDOVER, [Got(7)]) == [Y_WAITS]
    ensures InRun(HANDOVER, [Got(7), Got(11)]) && Stored(HANDOVER, [Got(7), Got(11)]) == [Y_WAITS, Y_HAS_PORT]
  {
    assert Front([Got(7), Got(11)]) == [Got(7)] && Front([Got(7)]) == [];
    assert Stored(HANDOVER, [Got(7)]) == [Y_WAITS];
  }

  lemma InTurn()
    ensures Schedule(HANDOVER, IN_TURN) && OneCallAtATime(HANDOVER, IN_TURN)
    ensures HandedOn(HANDOVER, IN_TURN) == [Y_WAITS, Y_HAS_PORT]
  {
    hide Stored, CacheAfter;
    BothStored();
    var one, two := [Respond(Got(7))], [Respond(Got(7)), HandOn(0)];
    var three := [Respond(Got(7)), HandOn(0), Respond(Got(11))];
    assert Front(IN_TURN) == three && Front(three) == two && Front(two) == one && Front(one) == [];
    assert Responses(one) == [Got(7)] && HandOns(one) == [];
    assert Schedule(HANDOVER, []) && NothingPending(HANDOVER, []) && OneCallAtATime(HANDOVER, []);
    assert Schedule(HANDOVER, one) && OneCallAtATime(HANDOVER, one);
    assert Responses(two) == [Got(7)] && HandOns(two) == [0];
    assert Schedule(HANDOVER, two) && NothingPending(HANDOVER, two) && OneCallAtATime(HANDOVER, two);
    assert Responses(three) == [Got(7), Got(11)] && HandOns(three) == [0];
    assert Schedule(HANDOVER, three) && OneCallAtATime(HANDOVER, three);
    assert Responses(IN_TURN) == [Got(7), Got(11)] && HandOns(IN_TURN) == [0, 1];
  }

  const CROSSED: seq<WatchStep> := [Respond(Got(7)), Respond(Got(11)), HandOn(1), HandOn(0)]

  /** Two calls that overlap store in order and hand on crosswise. Nothing is pending, the fetches were in order and
      every change is counted; yet the king acts on the older state, in which the port is the first service's, and a
      further response with the newer state is dropped as already cached. */
  lemma HandsOnCrosswise()
    ensures IsRun(HANDOVER, HANDOVER_STEPS) && Schedule(HANDOVER, CROSSED) && NothingPending(HANDOVER, CROSSED)
    ensures InOrder(Responses(CROSSED))
    ensures HandedOn(HANDOVER, CROSSED) == [Y_HAS_PORT, Y_WAITS] && HANDOVER[11].council == Y_HAS_PORT
    ensures DesiredBy(Y_WAITS, 1, "host") != DesiredBy(Y_HAS_PORT, 1, "host") && !SameButBeat(Y_WAITS, Y_HAS_PORT)
    ensures !Replaces(CacheAfter(HANDOVER, Responses(CROSSED)), Some(Y_HAS_PORT))
  {
    hide IsRun;
    HandoverIsRun();
    Crosswise();
    DesiredHere();
    assert 5 in DesiredBy(Y_WAITS, 1, "host") && DesiredBy(Y_WAITS, 1, "host")[5] == "1";
  }

  lemma Crosswise()
    ensures Schedule(HANDOVER, CROSSED) && NothingPending(HANDOVER, CROSSED) && Responses(CROSSED) == [Got(7), Got(11)]
    ensures HandedOn(HANDOVER, CROSSED) == [Y_HAS_PORT, Y_WAITS]
    ensures CacheAfter(HANDOVER, Responses(CROSSED)) == Some(Y_HAS_PORT)
  {
    hide Stored, CacheAfter;
    BothStored();
    var one, two := [Respond(Got(7))], [Respond(Got(7)), Respond(Got(11))];
    var three := [Respond(Got(7)), Respond(Got(11)), HandOn(1)];
    assert Front(CROSSED) == three && Front(three) == two && Front(two) == one && Front(one) == [];
    assert Responses(one) == [Got(7)] && HandOns(one) == [];
    assert Schedule(HANDOVER, one);
    assert Responses(two) == [Got(7), Got(11)] && HandOns(two) == [];
    assert Schedule(HANDOVER, two);
    assert Responses(three) == [Got(7), Got(11)] && HandOns(three) == [1];
    assert Schedule(HANDOVER, three);
    assert Responses(CROSSED) == [Got(7), Got(11)] && HandOns(CROSSED) == [1, 0];
  }

  lemma DesiredHere()
    ensures DesiredBy(Y_WAITS, 1, "host") == map[5 := "1"] && DesiredBy(Y_HAS_PORT, 1, "host") == map[5 := "3"]
  {
    hide LingShuttingDown, DesiredPorts;
    LingRuns(Y_WAITS.lings, "x");
    LingRuns(Y_HAS_PORT.lings, "y");
    OneDesired([], X_PLACED, Y_WAITS.lings);
    OneDesired([X_PLACED], SERVICE_Y, Y_WAITS.lings);
    OneDesired([], Y_PLACED, Y_HAS_PORT.lings);
    assert [] + [X_PLACED] == [X_PLACED] && [X_PLACED] + [SERVICE_Y] == Y_WAITS.services &&
      [] + [Y_PLACED] == [Y_PLACED];
  }

  lemma LingRuns(lings: seq<Ling>, lingID: string)
    requires forall i :: 0 <= i < |lings| ==> !lings[i].shuttingDown
    ensures !LingShuttingDown(lings, lingID)
  {
  }

  lemma OneDesired(services: seq<Service>, s: Service, lings: seq<Ling>)
    ensures
      var rest := DesiredPorts(services, lings, 1, "host");
      && DesiredPorts([], lings, 1, "host") == map[]
      && DesiredPorts(services + [s], lings, 1, "host") ==
        if Assigned(s, lings, 1, "host") then rest[s.remotePort.value := s.serviceID] else rest
  {
    hide LingShuttingDown;
    assert Front(services + [s]) == services;
  }

  // ---------------------------------------------------------------- a request that stops early

  const BOTH := PutLing("ling", false, ["a", "b"], [], "here")

  /** In a state that the council reaches, a request for a registered tunnel and a new one is accepted in one
      segment, and the new tunnel gets no service. */
  lemma StopsAtFirst()
    ensures IsRun(UNCOUNTED, UNCOUNTED_STEPS) && UNCOUNTED[2].council == ONE
    ensures Uninterrupted([ONE, ONE], [LingReadyLoop(BOTH, 0), DONE], [At(0, "2")])
    ensures !HasService(ONE, "b", "ling") && !NewOnesFirst(ONE, BOTH)
  {
    hide Segment, Commit, IsRun;
    UncountedIsRun();
    ReadyLoopPasses(ONE, BOTH, 0, At(0, "2"));
    assert ByLingID("ling")(ONE.lings[0]) && ByNameAndLing("a", "ling")(ONE.services[0]);
    assert LingTunnelStep(ONE, BOTH, 0, 0, At(0, "2")).edited == ONE;
    assert Known(ONE, BOTH, 0) && !Known(ONE, BOTH, 1);
  }

  // ---------------------------------------------------------------- a contested address

  const TWO_RANGES := PutKing("host", false, [KingTunnel(1, "5-5"), KingTunnel(1, "6-6")], [], "here", "cert")
  const ONE_LEAVES := PutKing("host", true, [KingTunnel(1, "6-6")], [], "here", "cert")
  const HAS_Z := PutLing("z", false, ["z"], [], "here")

  const FIVES := NewKing(TWO_RANGES, TWO_RANGES.tunnels[0], 0)
  const SIXES := NewKing(TWO_RANGES, TWO_RANGES.tunnels[1], 0)
  const LEAVING := SIXES.(shuttingDown := true)
  const SERVICE_Z := NewService(HAS_Z, "z", At(0, "3"))
  const Z_PLACED := PlaceAt(SERVICE_Z, FIVES, 5)

  const RANGE_ONE := State(1, [], [FIVES], [])
  const RANGE_TWO := State(2, [], [FIVES, SIXES], [])
  const Z_ON_FIVES := State(4, [Z_PLACED], [FIVES, SIXES], [Ling("z", false, 0)])
  const Z_CONTESTED := State(6, [Z_PLACED], [FIVES, LEAVING], [Ling("z", false, 0)])

  const PAST_ONE := KingTunnelLoop(TWO_RANGES, 0, 1)
  const PAST_TWO := KingTunnelLoop(TWO_RANGES, 0, 2)
  const PAST_Z := LingTunnelLoop(HAS_Z, 0, 1)

  const CONTEST: seq<Sys> := [
    Sys(EMPTY, [], 0, {}),
    Sys(EMPTY, [KingReadyLoop(TWO_RANGES, 0)], 0, {}),
    Sys(RANGE_ONE, [PAST_ONE], 0, {"1"}),
    Sys(RANGE_TWO, [PAST_TWO], 0, {"1", "2"}),
    Sys(RANGE_TWO, [PAST_TWO, LingReadyLoop(HAS_Z, 0)], 0, {"1", "2"}),
    Sys(Z_ON_FIVES, [PAST_TWO, PAST_Z], 0, {"1", "2", "3"}),
    Sys(Z_ON_FIVES, [PAST_TWO, PAST_Z, KingReadyLoop(ONE_LEAVES, 0)], 0, {"1", "2", "3"}),
    Sys(Z_CONTESTED, [PAST_TWO, PAST_Z, KingBeatWrite(ONE_LEAVES, 0, 0)], 0, {"1", "2", "3", "4"})]

  const CONTEST_STEPS: seq<Label> := [
    ArriveKing(TWO_RANGES), Run(0, At(0, "1")), Run(0, At(0, "2")), ArriveLing(HAS_Z), Run(1, At(0, "3")),
    ArriveKing(ONE_LEAVES), Run(2, At(0, "4"))]

  lemma OnlyFive(k: King, port: int)
    requires k.ports == "5-5"
    ensures InRange(k, port) <==> port == 5
  {
    RangeRoundTrip(5, 5);
    assert Itoa(5) == "5";
  }

  /** The first king, at the preferred location and with its one port free, gets the service. */
  lemma FirstSlot(st: State, i: nat)
    requires i < |st.services| && st.kings != [] && !st.kings[0].shuttingDown && st.kings[0].ports == "5-5"
    requires st.services[i].preferredLocation == st.kings[0].location != ""
    requires 5 !in UsedPorts(st.services, st.kings[0].host, st.kings[0].bindPort)
    ensures ProvisionService(st, i) ==
      st.(services := st.services[i := PlaceAt(st.services[i], st.kings[0], 5)], revision := st.revision + 1)
  {
    hide ProvisionService, UsedPorts, InRange;
    OnlyFive(st.kings[0], 5);
    assert FreeAt(st.services, st.kings[0], 5);
    assert OffersAt(st, st.services[i].preferredLocation, 0);
    var at, port := ProvisionServiceChooses(st, i);
    assert at == 0;
    OnlyFive(st.kings[0], port);
  }

  /** One service, to be placed on the first king, whatever address it was at. */
  lemma PlacesOnly(st: State, s: Service)
    requires |st.services| == 1 && DeprovisionService(st.kings, st.services[0]) == s && s.bindPort.None? && s.host.None?
    requires st.kings != [] && !st.kings[0].shuttingDown && st.kings[0].ports == "5-5"
    requires s.preferredLocation == st.kings[0].location != ""
    ensures Provision(st) == st.(services := [PlaceAt(s, st.kings[0], 5)], revision := st.revision + 1)
  {
    hide ProvisionService;
    var d := Deprovision(st);
    assert d == st.(services := [s]);
    FirstSlot(d, 0);
    assert ProvisionFirst(d, 1) == ProvisionService(d, 0);
  }

  lemma CommitNoServices(st: State)
    requires st.services == []
    ensures Commit(st) == st.(revision := st.revision + 1)
  {
  }

  lemma FivesRegister()
    ensures Moves(CONTEST[1], CONTEST_STEPS[1], CONTEST[2])
  {
    hide Commit;
    var p := Segment(EMPTY, KingReadyLoop(TWO_RANGES, 0), At(0, "1"));
    assert KingReadyStep(EMPTY, TWO_RANGES, 0, At(0, "1")).next == KingTunnelLoop(TWO_RANGES, 0, 0);
    assert p == KingTunnelStep(EMPTY, TWO_RANGES, 0, 0);
    CommitNoServices(p.edited);
  }

  lemma SixesRegister()
    ensures Moves(CONTEST[2], CONTEST_STEPS[2], CONTEST[3])
  {
    hide Commit;
    var p := Segment(RANGE_ONE, PAST_ONE, At(0, "2"));
    assert !ByPortsAndHost("6-6", "host")(RANGE_ONE.kings[0]);
    assert p == KingTunnelStep(RANGE_ONE, TWO_RANGES, 0, 1);
    CommitNoServices(p.edited);
  }

  lemma ZRegisters()
    ensures Moves(CONTEST[4], CONTEST_STEPS[4], CONTEST[5])
  {
    hide Provision, Segment;
    ReadyLoopPasses(RANGE_TWO, HAS_Z, 0, At(0, "3"));
    var p := Segment(RANGE_TWO, LingReadyLoop(HAS_Z, 0), At(0, "3"));
    assert p.edited.services == [SERVICE_Z];
    PlacesOnly(p.edited.(revision := 3), SERVICE_Z);
  }

  lemma ZIsTakenOff(revision: int, kings: seq<King>)
    requires kings == [FIVES, LEAVING]
    ensures
      var st := State(revision, [Z_PLACED], kings, [Ling("z", false, 0)]);
      Provision(st) == st.(revision := revision + 1)
  {
    hide Provision;
    var st := State(revision, [Z_PLACED], kings, [Ling("z", false, 0)]);
    assert kings[1] in kings && OnShuttingDown(kings, Z_PLACED);
    assert DeprovisionService(kings, Z_PLACED) == SERVICE_Z;
    PlacesOnly(st, SERVICE_Z);
  }

  lemma SixesLeave()
    ensures Moves(CONTEST[6], CONTEST_STEPS[6], CONTEST[7])
  {
    hide Provision;
    var p := Segment(Z_ON_FIVES, KingReadyLoop(ONE_LEAVES, 0), At(0, "4"));
    assert !ByPortsAndHost("6-6", "host")(Z_ON_FIVES.kings[0]) && ByPortsAndHost("6-6", "host")(Z_ON_FIVES.kings[1]);
    assert KingReadyStep(Z_ON_FIVES, ONE_LEAVES, 0, At(0, "4")).next == KingTunnelLoop(ONE_LEAVES, 0, 0);
    assert p == KingTunnelStep(Z_ON_FIVES, ONE_LEAVES, 0, 0);
    assert p.edited == Z_ON_FIVES.(kings := [FIVES, LEAVING]);
    ZIsTakenOff(5, [FIVES, LEAVING]);
  }

  lemma ContestIsRun()
    ensures IsRun(CONTEST, CONTEST_STEPS)
  {
    hide Moves;
    ArrivesKing(CONTEST[0], TWO_RANGES, CONTEST[1]);
    FivesRegister();
    SixesRegister();
    Arrives(CONTEST[3], HAS_Z, CONTEST[4]);
    ZRegisters();
    ArrivesKing(CONTEST[5], ONE_LEAVES, CONTEST[6]);
    SixesLeave();
    RunOf(CONTEST, CONTEST_STEPS);
  }

  /** The council reaches a state, left by a run of the provisioner, in which one more run takes the service off,
      puts it back, and counts a change. */
  lemma SecondRunDiffers()
    ensures IsRun(CONTEST, CONTEST_STEPS) && CONTEST[7].council == Z_CONTESTED
    ensures Z_CONTESTED == Provision(Z_ON_FIVES.(kings := [FIVES, LEAVING], revision := 5))
    ensures Provision(Z_CONTESTED) == Z_CONTESTED.(revision := 7)
  {
    hide IsRun, Provision;
    ContestIsRun();
    ZIsTakenOff(5, [FIVES, LEAVING]);
    ZIsTakenOff(6, [FIVES, LEAVING]);
  }
}
