/** A run of the council by pointer in which a service changes hosts. */
module PointerScenario {
  import opened Basics
  import opened Text
  import opened CouncilState
  import opened Provisioner
  import opened Cleaner
  import opened Handlers
  import opened Runs
  import opened Pointers
  import opened PointerCouncil
  import S = Scenarios

  predicate Moves(s: PtrSys, l: PtrLabel, t: PtrSys) {
    Anchored(s.council) && Enabled(Shown(s), ShownLabel(s, l)) && NextPtr(s, l) == t
  }

  lemma RunOf(ss: seq<PtrSys>, ls: seq<PtrLabel>)
    requires |ss| == |ls| + 1 && ss[0].council == NO_KINGS && ss[0].threads == [] && ss[0].issued == {}
    requires forall i :: 0 <= i < |ls| ==> Moves(ss[i], ls[i], ss[i + 1])
    ensures IsPtrRun(ss, ls)
  {
    hide NextPtr, Enabled, Anchored;
    forall i | 0 <= i < |ls| && Anchored(ss[i].council)
      ensures Enabled(Shown(ss[i]), ShownLabel(ss[i], ls[i])) && ss[i + 1] == NextPtr(ss[i], ls[i])
    {
      assert Moves(ss[i], ls[i], ss[i + 1]);
    }
  }

  /** New arrays have no spare cell, as when a slice of length 0 or 1 grows by one. */
  function At(clock: int, id: string): PtrEnv {
    PtrEnv(clock, id, "token", None, [])
  }

  const KING_A := PutKing("a", false, [KingTunnel(1, "5-5")], [], "here", "cert a")
  const KING_B := PutKing("b", false, [KingTunnel(2, "6-6")], [], "here", "cert b")
  const HAS_W := PutLing("w", false, ["w"], [], "here")

  const A := NewKing(KING_A, KING_A.tunnels[0], 0)
  const B := NewKing(KING_B, KING_B.tunnels[0], 5000)
  const LING_W := Ling("w", false, 5000)
  const SERVICE_W := Service("w", "token", "3", "w", "here", false, false, None, None, None)
  const ON_A := PtrService(SERVICE_W.(remotePort := Some(5)), Some(Ptr(2, 0)))

  const WITH_A := PtrState(1, [], [[], [A]], 1, [])
  const WITH_B := PtrState(2, [], [[], [A], [A, B]], 2, [])
  const WITH_W := PtrState(4, [ON_A], [[], [A], [A, B]], 2, [LING_W])
  const A_GONE := PtrState(5, [ON_A], [[], [A], [B, B]], 1, [LING_W])

  const PAST_A := KingTunnelLoop(KING_A, 0, 1)
  const PAST_B := KingTunnelLoop(KING_B, 5000, 1)
  const PAST_W := LingTunnelLoop(HAS_W, 5000, 1)

  const SHIFT: seq<PtrSys> := [
    PtrSys(NO_KINGS, [], 0, {}),
    PtrSys(NO_KINGS, [KingReadyLoop(KING_A, 0)], 0, {}),
    PtrSys(WITH_A, [PAST_A], 0, {"1"}),
    PtrSys(WITH_A, [PAST_A], 5000, {"1"}),
    PtrSys(WITH_A, [PAST_A, KingReadyLoop(KING_B, 0)], 5000, {"1"}),
    PtrSys(WITH_B, [PAST_A, PAST_B], 5000, {"1", "2"}),
    PtrSys(WITH_B, [PAST_A, PAST_B, LingReadyLoop(HAS_W, 0)], 5000, {"1", "2"}),
    PtrSys(WITH_W, [PAST_A, PAST_B, PAST_W], 5000, {"1", "2", "3"}),
    PtrSys(WITH_W, [PAST_A, PAST_B, PAST_W], 10000, {"1", "2", "3"}),
    PtrSys(A_GONE, [PAST_A, PAST_B, PAST_W], 10000, {"1", "2", "3"})]

  const SHIFT_STEPS: seq<PtrLabel> := [
    PtrLabel.ArriveKing(KING_A), PtrLabel.Run(0, At(0, "1")), PtrLabel.Tick(5000), PtrLabel.ArriveKing(KING_B),
    PtrLabel.Run(1, At(5000, "2")), PtrLabel.ArriveLing(HAS_W), PtrLabel.Run(2, At(5000, "3")), PtrLabel.Tick(10000),
    PtrLabel.Clean]

  lemma AllAnchored()
    ensures Anchored(NO_KINGS) && Anchored(WITH_A) && Anchored(WITH_B) && Anchored(WITH_W) && Anchored(A_GONE)
    ensures Kings(WITH_A) == [A] && Kings(WITH_B) == [A, B] && Kings(WITH_W) == [A, B] && Kings(A_GONE) == [B]
  {
  }

  // ---------------------------------------------------------------- the handlers

  /** A step that edits nothing writes nothing. */
  lemma WritesNothing(p: PtrState, th: Thread, e: PtrEnv)
    requires Anchored(p) && p.services == [] && !th.KingBeatWrite?
    requires Step(Abstract(p), th, EnvAt(p, e)).edited == Abstract(p)
    ensures EditPtr(p, th, e) == p
  {
    hide Step;
    var q := WriteKings(p, Kings(p));
    assert Kings(p) + Last(p.heap)[p.len..] == Last(p.heap);
    assert q.heap == p.heap;
  }

  lemma CommitNoServicesPtr(p: PtrState)
    requires Anchored(p) && p.services == []
    ensures CommitPtr(p) == p.(revision := p.revision + 1)
  {
    var counted := p.(revision := p.revision + 1);
    assert DeprovisionPtr(counted) == counted;
  }

  /** A king's first request appends it in a new array. */
  lemma RegistersKing(p: PtrState, req: PutKing, e: PtrEnv)
    requires Anchored(p) && p.services == [] && p.len == |Last(p.heap)| && e.spare == [] && e.cell == None
    requires req.readyServiceIDs == [] && |req.tunnels| == 1
    requires FindFirst(ByPortsAndHost(req.tunnels[0].ports, req.host), Kings(p)).None?
    ensures SegmentPtr(p, KingReadyLoop(req, 0), e) == p.(
      revision := p.revision + 1, heap := p.heap + [Kings(p) + [NewKing(req, req.tunnels[0], e.clock)]],
      len := p.len + 1)
    ensures Segment(Abstract(p), KingReadyLoop(req, 0), EnvAt(p, e)).next == KingTunnelLoop(req, e.clock, 1)
  {
    hide CommitPtr, Commit, FindFirst;
    var th := KingTunnelLoop(req, e.clock, 0);
    WritesNothing(p, KingReadyLoop(req, 0), e);
    var k := NewKing(req, req.tunnels[0], e.clock);
    var q := EditPtr(p, th, e);
    assert Step(Abstract(p), th, EnvAt(p, e)).edited == Abstract(p).(kings := Kings(p) + [k]);
    assert Kings(p) + [k] + e.spare == Kings(p) + [k];
    assert q.services == p.services;
    assert q == p.(heap := p.heap + [Kings(p) + [k]], len := p.len + 1);
    assert Anchored(q);
    CommitNoServicesPtr(q);
    assert SegmentPtr(p, th, e) == CommitPtr(q);
  }

  lemma ARegisters()
    ensures Moves(SHIFT[1], SHIFT_STEPS[1], SHIFT[2])
  {
    hide SegmentPtr, Segment;
    AllAnchored();
    RegistersKing(NO_KINGS, KING_A, At(0, "1"));
    assert Kings(NO_KINGS) + [A] == [A] && [[]] + [[A]] == [[], [A]];
  }

  lemma BRegisters()
    ensures Moves(SHIFT[4], SHIFT_STEPS[4], SHIFT[5])
  {
    hide SegmentPtr, Segment;
    AllAnchored();
    assert !ByPortsAndHost("6-6", "b")(Kings(WITH_A)[0]);
    RegistersKing(WITH_A, KING_B, At(5000, "2"));
    assert Kings(WITH_A) + [B] == [A, B] && [[], [A]] + [[A, B]] == [[], [A], [A, B]];
  }

  const W_WAITS := PtrState(2, [PtrService(SERVICE_W, None)], [[], [A], [A, B]], 2, [LING_W])

  /** The only service is pointed at the first king's cell. */
  lemma WPlaced()
    ensures Anchored(W_WAITS) && CommitPtr(W_WAITS) == WITH_W
  {
    hide ProvisionServicePtr, KingPorts, SelectedAt, UsedPorts;
    var counted := W_WAITS.(revision := 3);
    assert Kings(counted) == [A, B];
    assert Abstract(counted) == State(3, [SERVICE_W], [A, B], [LING_W]);
    assert !OnShuttingDown([A, B], SERVICE_W);
    assert DeprovisionPtr(counted) == counted;
    PointsAtFirst(counted);
    assert ProvisionFirstPtr(counted, 0) == counted;
    assert ProvisionFirstPtr(counted, 1) == ProvisionServicePtr(counted, 0);
  }

  lemma PointsAtFirst(p: PtrState)
    requires p == W_WAITS.(revision := 3)
    ensures Anchored(p) && ProvisionServicePtr(p, 0) == WITH_W
  {
    hide KingPorts, Offering, SelectedAt;
    var st := State(3, [SERVICE_W], [A, B], [LING_W]);
    assert Kings(p) == [A, B] && Abstract(p) == st;
    FiveFree(st);
    AFirst(st);
  }

  lemma FiveFree(st: State)
    requires st.services == [SERVICE_W]
    ensures KingPorts(A, st.services) != [] && KingPorts(A, st.services)[0] == 5
  {
    hide KingPorts, InRange;
    assert UsedPorts(st.services, "a", 1) == {};
    S.OnlyFive(A, 5);
    KingPortsFree(A, st.services);
    assert FreeAt(st.services, A, 5);
    S.OnlyFive(A, KingPorts(A, st.services)[0]);
  }

  lemma AFirst(st: State)
    requires st.kings == [A, B] && KingPorts(A, st.services) != []
    ensures Offering(st) != [] && SelectedAt(st, "here") == 0
  {
    hide KingPorts;
    assert CanOffer(st.services)(st.kings[0]) && Both(CanOffer(st.services), AtLocation("here"))(st.kings[0]);
    FilterHead(CanOffer(st.services), st.kings);
  }

  lemma WRegisters()
    ensures Moves(SHIFT[6], SHIFT_STEPS[6], SHIFT[7])
  {
    hide CommitPtr, Commit;
    AllAnchored();
    var e := At(5000, "3");
    var env := EnvAt(WITH_B, e);
    var st := State(2, [], [A, B], []);
    assert Abstract(WITH_B) == st;
    var th := LingTunnelLoop(HAS_W, 5000, 0);
    WritesNothing(WITH_B, LingReadyLoop(HAS_W, 0), e);
    assert Step(st, th, env).edited == State(2, [SERVICE_W], [A, B], [LING_W]);
    assert EditPtr(WITH_B, th, e) == W_WAITS by {
      assert Kings(WITH_B) + Last(WITH_B.heap)[2..] == Last(WITH_B.heap);
      assert WriteKings(WITH_B, [A, B]).heap == WITH_B.heap;
    }
    WPlaced();
    assert SegmentPtr(WITH_B, th, e) == CommitPtr(W_WAITS);
    assert Step(st, LingReadyLoop(HAS_W, 0), env).next == th;
    assert SegmentPtr(WITH_B, LingReadyLoop(HAS_W, 0), e) == SegmentPtr(WITH_B, th, e);
    assert Segment(st, LingReadyLoop(HAS_W, 0), env).next == PAST_W;
  }

  // ---------------------------------------------------------------- the cleaner

  lemma FilterOne<T>(keep: T -> bool, x: T)
    ensures Filter(keep, [x]) == if keep(x) then [x] else []
  {
    assert Front([x]) == [];
  }

  /** The first king's cell is filled with the second king, and the service's pointer with it. */
  lemma BMovesIn()
    ensures Moves(SHIFT[8], SHIFT_STEPS[8], SHIFT[9])
  {
    hide Filter;
    AllAnchored();
    S.DropsFirst(FreshKing(0), A, B);
    assert [B] + [A, B][1..] == [B, B];
    assert SetLast(WITH_W.heap, [B, B]) == A_GONE.heap;
    FilterOne(FreshLing(0), LING_W);
    assert [LING_W][0] in [LING_W] && [B][0] in [B];
    assert ReadService(A_GONE.heap, ON_A).host == Some("b");
    FilterOne(KeepsPtr(A_GONE.heap, [B], [LING_W]), ON_A);
  }

  lemma ByValueWGoes()
    ensures Anchored(WITH_W) && CleanPass(Abstract(WITH_W), 0).services == []
  {
    hide Filter;
    AllAnchored();
    S.DropsFirst(FreshKing(0), A, B);
    var s := ReadService(WITH_W.heap, ON_A);
    assert Abstract(WITH_W).services == [s];
    FilterOne(Retained([B], Filter(FreshLing(0), [LING_W])), s);
  }

  // ---------------------------------------------------------------- the run

  lemma ArrivesKing(s: PtrSys, req: PutKing, t: PtrSys)
    requires Anchored(s.council) && req.host != "" && req.location != ""
    requires t == s.(threads := s.threads + [KingReadyLoop(req, 0)])
    ensures Moves(s, PtrLabel.ArriveKing(req), t)
  {
  }

  lemma ArrivesLing(s: PtrSys, req: PutLing, t: PtrSys)
    requires Anchored(s.council) && req.lingID != "" && req.preferredLocation != ""
    requires t == s.(threads := s.threads + [LingReadyLoop(req, 0)])
    ensures Moves(s, PtrLabel.ArriveLing(req), t)
  {
  }

  lemma Ticks(s: PtrSys, now: int, t: PtrSys)
    requires Anchored(s.council) && t == s.(clock := now)
    ensures Moves(s, PtrLabel.Tick(now), t)
  {
  }

  lemma ShiftIsRun()
    ensures IsPtrRun(SHIFT, SHIFT_STEPS)
  {
    hide Moves, Anchored;
    AllAnchored();
    ArrivesKing(SHIFT[0], KING_A, SHIFT[1]);
    ARegisters();
    Ticks(SHIFT[2], 5000, SHIFT[3]);
    ArrivesKing(SHIFT[3], KING_B, SHIFT[4]);
    BRegisters();
    ArrivesLing(SHIFT[5], HAS_W, SHIFT[6]);
    WRegisters();
    Ticks(SHIFT[7], 10000, SHIFT[8]);
    BMovesIn();
    RunOf(SHIFT, SHIFT_STEPS);
  }

  /** Two kings register and a service is placed on the first. When that king goes stale, the pass moves the second
      king into its cell, and the service is now at the second king, with a port out of that king's range. By value
      it would have gone with its king. */
  lemma ServiceChangesHost()
    ensures IsPtrRun(SHIFT, SHIFT_STEPS) && UniqueAtCleans(SHIFT, SHIFT_STEPS)
    ensures Anchored(WITH_W) && Abstract(WITH_W).services ==
      [SERVICE_W.(host := Some("a"), bindPort := Some(1), remotePort := Some(5))]
    ensures Anchored(A_GONE) && Abstract(A_GONE).services ==
      [SERVICE_W.(host := Some("b"), bindPort := Some(2), remotePort := Some(5))]
    ensures !InRange(B, 5) && CleanPass(Abstract(WITH_W), 0).services == []
  {
    hide IsPtrRun, CleanPass, InRange;
    ShiftIsRun();
    AllAnchored();
    ByValueWGoes();
    OutOfRange();
  }

  lemma OutOfRange()
    ensures !InRange(B, 5)
  {
    RangeRoundTrip(6, 6);
    assert Itoa(6) == "6";
  }
}
