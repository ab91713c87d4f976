/** What every handler step keeps of the council's registry, and how it counts its changes. */
module Registry {
  import opened Basics
  import opened Text
  import opened CouncilState
  import opened Provisioner
  import opened Placement
  import opened Cleaner
  import opened Handlers

  /** Holds in every reachable state, whatever the interleaving: placements are complete, exclusive and
      hosted, and no key that a handler looks up before appending is registered twice. */
  predicate Core(st: State, issued: set<string>) {
    && Tidy(st.services)
    && Hosted(st)
    && DistinctIDs(st.services)
    && DistinctNames(st.services)
    && DistinctLings(st.lings)
    && DistinctKings(st.kings)
    && forall i :: 0 <= i < |st.services| ==> st.services[i].serviceID in issued
  }

  /** A king that takes part stays within its range and keeps no service once it shuts down. */
  predicate Settled(st: State) {
    InRanges(st) && Live(st)
  }

  // ---------------------------------------------------------------- the edits

  lemma FlagsKeepCore(st: State, j: nat, s: Service, issued: set<string>)
    requires Core(st, issued) && j < |st.services|
    requires s == st.services[j].(kingReady := s.kingReady, lingReady := s.lingReady)
    ensures Core(WithService(st, j, s), issued)
    ensures InRanges(st) ==> InRanges(WithService(st, j, s))
  {
    hide InRange;
    var r := WithService(st, j, s);
    assert forall i :: 0 <= i < |st.services| && i != j ==> r.services[i] == st.services[i];
    assert forall k :: OnKing(s, k) == OnKing(st.services[j], k);
  }

  lemma KingEditKeepsCore(st: State, j: nat, k: King, issued: set<string>)
    requires Core(st, issued) && j < |st.kings|
    requires k == st.kings[j].(shuttingDown := k.shuttingDown, certPEM := k.certPEM, beat := k.beat)
    ensures Core(WithKing(st, j, k), issued)
    ensures InRanges(st) ==> InRanges(WithKing(st, j, k))
  {
    hide InRange, Tidy, DistinctIDs, DistinctNames, DistinctLings;
    var r := WithKing(st, j, k);
    assert forall i :: 0 <= i < |st.kings| && i != j ==> r.kings[i] == st.kings[i];
    forall i | 0 <= i < |st.services| && st.services[i].bindPort.Some? ensures HasKing(r.kings, st.services[i]) {
      var h :| h in st.kings && OnKing(st.services[i], h);
      var a :| 0 <= a < |st.kings| && st.kings[a] == h;
      assert r.kings[a] in r.kings && OnKing(st.services[i], r.kings[a]);
    }
    if InRanges(st) {
      forall p ensures InRange(k, p) == InRange(st.kings[j], p) {
        SamePortsSameRange(k, st.kings[j], p);
      }
      assert st.kings[j] in st.kings;
      forall i, h | 0 <= i < |r.services| && h in r.kings && OnKing(r.services[i], h)
        ensures r.services[i].remotePort.Some? && InRange(h, r.services[i].remotePort.value)
      {
        assert h == k || h in st.kings;
        assert OnKing(r.services[i], k) == OnKing(st.services[i], st.kings[j]);
      }
    }
  }

  lemma SamePortsSameRange(j: King, k: King, port: int)
    requires j.ports == k.ports
    ensures InRange(j, port) == InRange(k, port)
  {
  }

  lemma KingAppendKeepsCore(st: State, k: King, issued: set<string>)
    requires Core(st, issued) && FindFirst(ByPortsAndHost(k.ports, k.host), st.kings).None?
    ensures Core(st.(kings := st.kings + [k]), issued)
    ensures InRanges(st) && KingsUnique(st.kings + [k]) ==> InRanges(st.(kings := st.kings + [k]))
  {
    hide InRange, Tidy, DistinctIDs, DistinctNames, DistinctLings;
    var kings := st.kings + [k];
    forall i | 0 <= i < |st.kings| ensures st.kings[i].ports != k.ports || st.kings[i].host != k.host {
      assert !ByPortsAndHost(k.ports, k.host)(st.kings[i]);
    }
    forall s | HasKing(st.kings, s) ensures HasKing(kings, s) {
      var h :| h in st.kings && OnKing(s, h);
      assert h in kings;
    }
    if KingsUnique(kings) {
      NobodyOnNewKing(st, k);
    }
  }

  /** With unique addresses, nobody is placed at the address of a king before it registers. */
  lemma NobodyOnNewKing(st: State, k: King)
    requires Hosted(st) && KingsUnique(st.kings + [k])
    ensures forall i :: 0 <= i < |st.services| ==> !OnKing(st.services[i], k)
  {
    forall h | h in st.kings ensures !SameAddress(h, k) {
      var a :| 0 <= a < |st.kings| && st.kings[a] == h;
      assert (st.kings + [k])[a] == h && (st.kings + [k])[|st.kings|] == k;
    }
  }

  lemma LingsKeepCore(st: State, lings: seq<Ling>, issued: set<string>)
    requires Core(st, issued) && DistinctLings(lings)
    ensures Core(st.(lings := lings), issued)
    ensures InRanges(st) ==> InRanges(st.(lings := lings))
  {
  }

  lemma LingAppendDistinct(lings: seq<Ling>, l: Ling)
    requires DistinctLings(lings) && FindFirst(ByLingID(l.lingID), lings).None?
    ensures DistinctLings(lings + [l])
  {
    forall i | 0 <= i < |lings| ensures lings[i].lingID != l.lingID {
      assert !ByLingID(l.lingID)(lings[i]);
    }
  }

  lemma ServiceAppendKeepsCore(st: State, s: Service, issued: set<string>)
    requires Core(st, issued) && FindFirst(ByNameAndLing(s.name, s.lingID), st.services).None?
    requires s.serviceID !in issued && s.host.None? && s.bindPort.None? && s.remotePort.None?
    ensures Core(st.(services := st.services + [s]), issued + {s.serviceID})
    ensures InRanges(st) ==> InRanges(st.(services := st.services + [s]))
  {
    hide InRange;
    var r := st.(services := st.services + [s]);
    forall i | 0 <= i < |st.services| ensures st.services[i].name != s.name || st.services[i].lingID != s.lingID {
      assert !ByNameAndLing(s.name, s.lingID)(st.services[i]);
    }
    assert forall i :: 0 <= i < |st.services| ==> r.services[i] == st.services[i];
  }

  // ---------------------------------------------------------------- a step

  lemma CoreGrows(st: State, issued: set<string>, more: set<string>)
    requires Core(st, issued) && issued <= more
    ensures Core(st, more)
  {
  }

  lemma LingServiceEditKeeps(st: State, req: PutLing, now: int, i: nat, env: Env, issued: set<string>)
    requires Core(st, issued) && env.newID !in issued
    ensures
      var e := LingServiceStep(st, req, now, i, env).edited;
      Core(e, issued + {env.newID}) && (InRanges(st) ==> InRanges(e)) && e.kings == st.kings
  {
    hide Core, InRanges;
    CoreGrows(st, issued, issued + {env.newID});
    if i < |req.tunnels| && FindFirst(ByNameAndLing(req.tunnels[i], req.lingID), st.services).None? {
      ServiceAppendKeepsCore(st, NewService(req, req.tunnels[i], env), issued);
    }
  }

  lemma LingTunnelEditKeeps(st: State, req: PutLing, now: int, i: nat, env: Env, issued: set<string>)
    requires Core(st, issued) && env.newID !in issued
    ensures
      var e := LingTunnelStep(st, req, now, i, env).edited;
      Core(e, issued + {env.newID}) && (InRanges(st) ==> InRanges(e)) && e.kings == st.kings
  {
    hide InRanges, LingServiceStep, Tidy, Hosted, DistinctIDs, DistinctNames, DistinctKings;
    CoreGrows(st, issued, issued + {env.newID});
    if i < |req.tunnels| {
      match FindFirst(ByLingID(req.lingID), st.lings)
      case None =>
        var l := Ling(req.lingID, req.shuttingDown, now);
        LingAppendDistinct(st.lings, l);
        LingsKeepCore(st, st.lings + [l], issued);
        LingServiceEditKeeps(st.(lings := st.lings + [l]), req, now, i, env, issued);
      case Some(j) =>
        var l := st.lings[j].(beat := now);
        LingsKeepCore(st, st.lings[j := l], issued);
        LingServiceEditKeeps(WithLing(st, j, l), req, now, i, env, issued);
        var m := l.(shuttingDown := req.shuttingDown);
        LingsKeepCore(st, st.lings[j := m], issued + {env.newID});
    }
  }

  lemma KingEditKeeps(st: State, th: Thread, env: Env, issued: set<string>)
    requires Core(st, issued) && (th.KingReadyLoop? || th.KingTunnelLoop? || th.KingBeatWrite? || th.LingReadyLoop?)
    ensures
      var e := Step(st, th, env).edited;
      Core(e, issued) && (InRanges(st) && KingsUnique(e.kings) ==> InRanges(e))
  {
    hide Core, InRanges, KingsUnique;
    match th
    case KingReadyLoop(req, i) =>
      if i < |req.readyServiceIDs| {
        match FindFirst(ByServiceID(req.readyServiceIDs[i]), st.services)
        case None =>
        case Some(j) => FlagsKeepCore(st, j, st.services[j].(kingReady := true), issued);
      }
    case LingReadyLoop(req, i) =>
      if i < |req.readyServiceIDs| {
        match FindFirst(ByServiceID(req.readyServiceIDs[i]), st.services)
        case None =>
        case Some(j) => FlagsKeepCore(st, j, st.services[j].(lingReady := true), issued);
      }
    case KingBeatWrite(req, now, i) =>
      match env.late {
        case None =>
        case Some(j) =>
          if j < |st.kings| {
            KingEditKeepsCore(st, j, st.kings[j].(beat := now), issued);
          }
      }
    case KingTunnelLoop(req, now, i) =>
      if i < |req.tunnels| {
        match FindFirst(ByPortsAndHost(req.tunnels[i].ports, req.host), st.kings)
        case None => KingAppendKeepsCore(st, NewKing(req, req.tunnels[i], now), issued);
        case Some(j) =>
          KingEditKeepsCore(st, j, st.kings[j].(beat := now), issued);
          KingEditKeepsCore(st, j, st.kings[j].(shuttingDown := req.shuttingDown, certPEM := req.certPEM), issued);
      }
  }

  lemma EditKeeps(st: State, th: Thread, env: Env, issued: set<string>)
    requires Core(st, issued) && env.newID !in issued
    ensures
      var e := Step(st, th, env).edited;
      Core(e, issued + {env.newID}) && (InRanges(st) && KingsUnique(e.kings) ==> InRanges(e))
  {
    hide Core, InRanges, KingsUnique, KingReadyStep, KingTunnelStep, KingBeatStep, LingReadyStep, LingTunnelStep,
      LingServiceStep;
    match th
    case LingTunnelLoop(req, now, i) => LingTunnelEditKeeps(st, req, now, i, env, issued);
    case LingServiceFind(req, now, i) => LingServiceEditKeeps(st, req, now, i, env, issued);
    case Finished(_) => CoreGrows(st, issued, issued + {env.newID});
    case _ =>
      KingEditKeeps(st, th, env, issued);
      CoreGrows(Step(st, th, env).edited, issued, issued + {env.newID});
  }

  /** An edit that is not committed touches no service and nothing of a king but its heartbeat. */
  lemma UncommittedEdit(st: State, th: Thread, env: Env)
    requires !Step(st, th, env).commits
    ensures
      var e := Step(st, th, env).edited;
      e.revision == st.revision && e.services == st.services && SameKings(st.kings, e.kings)
  {
    hide FindFirst;
  }

  lemma KeptCore(a: State, b: State, issued: set<string>)
    requires Kept(a, b) && Core(a, issued)
    ensures Core(b, issued)
  {
    hide Tidy, Hosted, InRanges, Live, KingsUnique, Uncontested, DistinctLings, DistinctKings;
    assert forall i :: 0 <= i < |a.services| ==> SameService(a.services[i], b.services[i]);
  }

  lemma CommitKeeps(st: State, issued: set<string>)
    requires Core(st, issued)
    ensures Core(Commit(st), issued) && Commit(st).kings == st.kings && Commit(st).lings == st.lings
    ensures st.revision < Commit(st).revision && SameServices(st.services, Commit(st).services)
    ensures KingsUnique(st.kings) && InRanges(st) ==> Settled(Commit(st))
  {
    hide Provision, Tidy, DistinctIDs, DistinctNames, DistinctLings, DistinctKings, Live, Uncontested, KingsUnique;
    var counted := st.(revision := st.revision + 1);
    assert Core(counted, issued);
    assert InRanges(st) ==> InRanges(counted);
    ProvisionKeeps(counted);
    KeptCore(counted, Commit(st), issued);
    if KingsUnique(st.kings) {
      UniqueUncontested(st.kings);
    }
  }

  lemma SameKingsKeep(st: State, kings: seq<King>, issued: set<string>)
    requires SameKings(st.kings, kings)
    ensures Core(st, issued) ==> Core(st.(kings := kings), issued)
    ensures Settled(st) ==> Settled(st.(kings := kings))
    ensures KingsUnique(st.kings) == KingsUnique(kings)
  {
    hide Tidy, DistinctIDs, DistinctNames, DistinctLings, InRange;
    forall s ensures HasKing(st.kings, s) ==> HasKing(kings, s) {
      if h :| h in st.kings && OnKing(s, h) {
        var a :| 0 <= a < |st.kings| && st.kings[a] == h;
        assert SameKing(st.kings[a], kings[a]) && kings[a] in kings;
      }
    }
    if Settled(st) {
      SameKingsSettled(st, kings);
    }
  }

  lemma SameKingsSettled(st: State, kings: seq<King>)
    requires SameKings(st.kings, kings) && Settled(st)
    ensures Settled(st.(kings := kings))
  {
    hide InRange;
    forall i, k | 0 <= i < |st.services| && k in kings && OnKing(st.services[i], k)
      ensures !k.shuttingDown && st.services[i].remotePort.Some? && InRange(k, st.services[i].remotePort.value)
    {
      var a :| 0 <= a < |kings| && kings[a] == k;
      var h := st.kings[a];
      assert h in st.kings && SameKing(h, k) && OnKing(st.services[i], h);
      assert !OnShuttingDown(st.kings, st.services[i]);
      SamePortsSameRange(h, k, st.services[i].remotePort.value);
    }
  }

  // ---------------------------------------------------------------- a segment

  /** One locked segment keeps the registry invariant; with unique addresses before and after, it also
      leaves every placed service on a live king and within that king's range. */
  lemma SegmentKeeps(st: State, th: Thread, env: Env, issued: set<string>)
    requires Core(st, issued) && env.newID !in issued
    ensures
      var r := Segment(st, th, env).After();
      && Core(r, issued + {env.newID})
      && (Settled(st) && KingsUnique(r.kings) ==> Settled(r))
  {
    hide Step, Core, InRanges, Live, KingsUnique, Commit;
    var mid, last := SegmentShape(st, th, env);
    SameKingsKeep(st, mid.kings, issued);
    var p := Step(mid, last, env);
    EditKeeps(mid, last, env, issued);
    if p.commits {
      CommitKeeps(p.edited, issued + {env.newID});
    } else {
      UncommittedEdit(mid, last, env);
      if Settled(mid) {
        UncommittedSettled(mid, p.edited);
      }
    }
  }

  lemma UncommittedSettled(st: State, e: State)
    requires e.services == st.services && SameKings(st.kings, e.kings) && Settled(st)
    ensures Live(e)
  {
    SameKingsSettled(st, e.kings);
  }

  // ---------------------------------------------------------------- counting changes

  /** The request's ling has been dropped while the service it asks for has not. */
  predicate LostLing(st: State, req: PutLing, i: nat) {
    && i < |req.tunnels|
    && FindFirst(ByLingID(req.lingID), st.lings).None?
    && FindFirst(ByNameAndLing(req.tunnels[i], req.lingID), st.services).Some?
  }

  /** Every ID from i on names a service that has been reported ready before. */
  predicate NothingNew(st: State, ids: seq<string>, i: nat) {
    forall k :: i <= k < |ids| ==>
      var j := FindFirst(ByServiceID(ids[k]), st.services);
      j.Some? && st.services[j.value].lingReady
  }

  /** The handler is about to look up a ling that is lost. */
  predicate MeetsLostLing(st: State, th: Thread) {
    match th
    case LingTunnelLoop(req, _, i) => LostLing(st, req, i)
    case LingReadyLoop(req, i) => NothingNew(st, req.readyServiceIDs, i) && LostLing(st, req, 0)
    case _ => false
  }

  lemma UncommittedSame(st: State, th: Thread, env: Env)
    requires !Step(st, th, env).commits
    ensures SameButBeat(st, Step(st, th, env).edited) <==> !(th.LingTunnelLoop? && LostLing(st, th.ling, th.i))
  {
    hide FindFirst;
  }

  /** A step commits exactly the edits that change more than heartbeats, but for a lost ling: a heartbeat alone raises
      no revision and wakes nobody. */
  lemma {:induction false} CommitsIff(st: State, th: Thread, env: Env)
    ensures
      var p := Step(st, th, env);
      p.commits <==> !SameButBeat(st, p.edited) && !(th.LingTunnelLoop? && LostLing(st, th.ling, th.i))
  {
    hide SameButBeat, LostLing;
    if Step(st, th, env).commits {
      if th.LingTunnelLoop? && LostLing(st, th.ling, th.i) {
        LostLingUncommitted(st, th, env);
      }
      CommitsChange(st, th, env);
    } else {
      UncommittedSame(st, th, env);
    }
  }

  lemma CommitsChange(st: State, th: Thread, env: Env)
    requires Step(st, th, env).commits
    ensures !SameButBeat(st, Step(st, th, env).edited)
  {
    match th
    case KingReadyLoop(req, i) =>
    case KingTunnelLoop(req, now, i) =>
      var j := FindFirst(ByPortsAndHost(req.tunnels[i].ports, req.host), st.kings);
      assert j.Some? ==> !SameKing(st.kings[j.value], Step(st, th, env).edited.kings[j.value]);
    case LingReadyLoop(req, i) =>
    case LingTunnelLoop(req, now, i) =>
      var j := FindFirst(ByLingID(req.lingID), st.lings);
      if j.Some? && st.lings[j.value].shuttingDown != req.shuttingDown {
        assert !SameLing(st.lings[j.value], Step(st, th, env).edited.lings[j.value]);
      } else {
        assert |Step(st, th, env).edited.services| == |st.services| + 1;
      }
    case LingServiceFind(req, now, i) =>
    case _ =>
  }

  lemma LostLingUncommitted(st: State, th: Thread, env: Env)
    requires th.LingTunnelLoop? && LostLing(st, th.ling, th.i)
    ensures !Step(st, th, env).commits
  {
    hide FindFirst;
  }

  /** From the ready loop, a handler reaches its tunnels in the same segment exactly when it has nothing new to
      report. */
  lemma {:induction false} ReadyLoopPasses(st: State, req: PutLing, i: nat, env: Env)
    ensures
      var s := Segment(st, LingReadyLoop(req, i), env);
      if NothingNew(st, req.readyServiceIDs, i) then s == Step(st, LingTunnelLoop(req, env.clock, 0), env)
      else s.After().revision > st.revision || s.After() == st
    decreases |req.readyServiceIDs| - i
  {
    hide LingTunnelStep, Commit;
    var th := LingReadyLoop(req, i);
    if i < |req.readyServiceIDs| {
      var j := FindFirst(ByServiceID(req.readyServiceIDs[i]), st.services);
      if j.Some? && st.services[j.value].lingReady {
        ReadyLoopPasses(st, req, i + 1, env);
      } else if j.Some? {
        CommitRaises(Step(st, th, env).edited);
      }
    } else {
      LingTunnelUnlocks(st, req, env.clock, 0, env);
    }
  }

  lemma CommitRaises(st: State)
    ensures st.revision < Commit(st).revision && Commit(st).kings == st.kings && Commit(st).lings == st.lings
    ensures SameServices(st.services, Commit(st).services)
  {
    hide Provision, Tidy, Hosted, InRanges, Live, Uncontested, KingsUnique;
    ProvisionKeeps(st.(revision := st.revision + 1));
  }

  lemma StepCounts(st: State, th: Thread, env: Env)
    ensures
      var r := Step(st, th, env).After();
      if th.LingTunnelLoop? && LostLing(st, th.ling, th.i) then r.revision == st.revision && !SameButBeat(st, r)
      else st.revision < r.revision || SameButBeat(st, r)
  {
    hide Commit, LostLing, KingReadyStep, KingTunnelStep, KingBeatStep, LingReadyStep, LingTunnelStep, LingServiceStep;
    var p := Step(st, th, env);
    if p.commits {
      CommitRaises(p.edited);
      EditRevision(st, th, env);
      if th.LingTunnelLoop? && LostLing(st, th.ling, th.i) {
        LostLingUncommitted(st, th, env);
      }
    } else {
      UncommittedEdit(st, th, env);
      UncommittedSame(st, th, env);
    }
  }

  lemma EditRevision(st: State, th: Thread, env: Env)
    ensures Step(st, th, env).edited.revision == st.revision
  {
    hide FindFirst;
  }

  /** One locked segment raises the revision or changes heartbeats only, except that a handler that meets
      a lost ling appends the ling and leaves the revision alone. */
  lemma SegmentCounts(st: State, th: Thread, env: Env)
    ensures
      var r := Segment(st, th, env).After();
      if MeetsLostLing(st, th) then r.revision == st.revision && !SameButBeat(st, r)
      else st.revision < r.revision || SameButBeat(st, r)
  {
    hide Step, Commit, LostLing, NothingNew;
    var mid, last := SegmentShape(st, th, env);
    StepCounts(mid, last, env);
    if th.LingReadyLoop? {
      ReadyLoopPasses(st, th.ling, th.i, env);
      StepCounts(st, LingTunnelLoop(th.ling, env.clock, 0), env);
    } else if th.LingTunnelLoop? {
      LingTunnelsAtOnce(st, th, env);
      StepCounts(st, th, env);
    } else {
      assert !last.LingTunnelLoop?;
    }
    SameKingsTransitive(st, mid, Segment(st, th, env).After());
  }

  lemma LingTunnelsAtOnce(st: State, th: Thread, env: Env)
    requires th.LingTunnelLoop?
    ensures Segment(st, th, env) == Step(st, th, env)
  {
    hide LingServiceStep;
    LingTunnelUnlocks(st, th.ling, th.now, th.i, env);
  }

  lemma SameKingsTransitive(a: State, b: State, c: State)
    requires b == a.(kings := b.kings) && SameKings(a.kings, b.kings)
    ensures SameButBeat(b, c) ==> SameButBeat(a, c)
  {
  }

  // ---------------------------------------------------------------- idempotence among registered services

  lemma OvercrowdRegistered(kings: seq<King>) returns (issued: set<string>)
    requires DistinctKings(kings)
    ensures Core(Overcrowd(kings), issued) && LingIntegrity(Overcrowd(kings))
  {
    hide FreeSlots, Itoa, DistinctKings;
    var st := Overcrowd(kings);
    var n := |st.services|;
    issued := set i | 0 <= i < n :: Itoa(i);
    forall i, j | 0 <= i < j < n ensures Itoa(i) != Itoa(j) {
      if Itoa(i) == Itoa(j) {
        ItoaInjective(i, j);
      }
    }
    assert st.lings[0] in st.lings;
  }

  /** Provisioning twice is once, for all services that can be registered with these kings, if and only if no address
      is contested. */
  lemma IdempotentAmongRegistered(kings: seq<King>)
    requires DistinctKings(kings)
    ensures (forall st: State, issued: set<string> :: st.kings == kings && Core(st, issued) && LingIntegrity(st) ==>
        Provision(Provision(st)) == Provision(st)) <==>
      Uncontested(kings)
  {
    hide Core, LingIntegrity, Provision, Overcrowd, HasRange, DistinctKings;
    ProvisionIdempotent(kings);
    if !Uncontested(kings) {
      var j, k :| j in kings && k in kings && SameAddress(j, k) && j.shuttingDown && !k.shuttingDown && HasRange(k);
      ContestedMoves(kings, j, k);
      var issued := OvercrowdRegistered(kings);
      OvercrowdKings(kings);
    }
  }

  lemma OvercrowdKings(kings: seq<King>)
    ensures Overcrowd(kings).kings == kings
  {
  }
}
