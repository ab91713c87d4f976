/** The handshake can always be completed: from every world of every run there is a way to go on that makes a
    service with a running king and a running ling ready on both sides, and so a proxy's target. */
module MeshProgress {
  import opened Basics
  import opened CouncilState
  import opened Provisioner
  import opened Placement
  import opened Cleaner
  import opened Handlers
  import opened Registry
  import opened Runs
  import opened KingTunnelServer
  import opened KingReaction
  import opened Requests
  import opened Mesh
  import L = LingReaction

  // ---------------------------------------------------------------- going on

  ghost predicate Path(ws: seq<World>, ms: seq<Move>) {
    && |ws| == |ms| + 1
    && forall i :: 0 <= i < |ms| ==> CanMove(ws[i], ms[i]) && ws[i + 1] == Moved(ws[i], ms[i])
  }

  /** A way from one world to another of at most n moves. */
  ghost predicate Leads(w: World, v: World, n: int) {
    exists ws, ms :: PathBetween(ws, ms, w, v) && |ms| <= n
  }

  ghost predicate PathBetween(ws: seq<World>, ms: seq<Move>, w: World, v: World) {
    Path(ws, ms) && ws[0] == w && Last(ws) == v
  }

  lemma Stay(w: World)
    ensures Leads(w, w, 0)
  {
    assert PathBetween([w], [], w, w);
  }

  lemma Go(w: World, v: World, n: int, m: Move)
    requires Leads(w, v, n) && CanMove(v, m)
    ensures Leads(w, Moved(v, m), n + 1)
  {
    hide CanMove, Moved;
    var ws, ms :| PathBetween(ws, ms, w, v) && |ms| <= n;
    var us, ns := ws + [Moved(v, m)], ms + [m];
    assert Path(us, ns) by {
      forall i | 0 <= i < |ns| ensures CanMove(us[i], ns[i]) && us[i + 1] == Moved(us[i], ns[i]) {
        assert i < |ms| ==> us[i] == ws[i] && us[i + 1] == ws[i + 1] && ns[i] == ms[i];
      }
    }
    assert PathBetween(us, ns, w, Moved(v, m));
  }

  lemma RunGoesOn(ws: seq<World>, ms: seq<Move>, v: World, n: int) returns (us: seq<World>, ns: seq<Move>)
    requires WorldRun(ws, ms) && Leads(Last(ws), v, n)
    ensures WorldRun(us, ns) && Last(us) == v && |ns| <= |ms| + n
    ensures ws <= us && ms <= ns
  {
    hide CanMove, Moved, Fresh;
    var vs, ls :| PathBetween(vs, ls, Last(ws), v) && |ls| <= n;
    us, ns := ws + vs[1..], ms + ls;
    forall i | 0 <= i < |ns| ensures CanMove(us[i], ns[i]) && us[i + 1] == Moved(us[i], ns[i]) {
      if i < |ms| {
        assert us[i] == ws[i] && us[i + 1] == ws[i + 1] && ns[i] == ms[i];
      } else {
        var j := i - |ms|;
        assert us[i] == vs[j] && us[i + 1] == vs[j + 1] && ns[i] == ls[j];
      }
    }
  }

  /** There is always an ID that was never issued. */
  lemma Unissued(issued: set<string>) returns (id: string)
    ensures id !in issued && forall s :: s in issued ==> |s| < |id|
  {
    if issued == {} {
      id := "x";
    } else {
      var s :| s in issued;
      var t := Unissued(issued - {s});
      id := if |s| < |t| then t else s + "x";
      forall u | u in issued ensures |u| < |id| {
        assert u == s || u in issued - {s};
      }
    }
  }

  // ---------------------------------------------------------------- a handler that reports

  /** The service is placed, and no king at its address is shutting down. */
  predicate AtHome(st: State, a: nat) {
    a < |st.services| && st.services[a].bindPort.Some? && !OnShuttingDown(st.kings, st.services[a])
  }

  /** Kings and IDs stay, and the service keeps its place and its flags. */
  predicate Keeps(st: State, r: State, a: nat)
    requires a < |st.services|
  {
    && r.kings == st.kings && |r.services| == |st.services|
    && (forall i :: 0 <= i < |st.services| ==> r.services[i].serviceID == st.services[i].serviceID)
    && var s, t := st.services[a], r.services[a];
      && t == s.(kingReady := t.kingReady, lingReady := t.lingReady)
      && (s.kingReady ==> t.kingReady) && (s.lingReady ==> t.lingReady)
  }

  lemma KeepsTransitive(st: State, r: State, q: State, a: nat)
    requires a < |st.services| && Keeps(st, r, a) && Keeps(r, q, a)
    ensures Keeps(st, q, a)
  {
  }

  /** The IDs of a report are registered. */
  predicate AllKnown(st: State, ids: seq<string>) {
    forall k :: 0 <= k < |ids| ==> HasID(st, ids[k])
  }

  lemma KeepsKnown(st: State, r: State, a: nat, ids: seq<string>)
    requires AtHome(st, a) && Keeps(st, r, a) && DistinctIDs(st.services) && AllKnown(st, ids)
    ensures AtHome(r, a) && DistinctIDs(r.services) && AllKnown(r, ids)
  {
    forall k | 0 <= k < |ids| ensures HasID(r, ids[k]) {
      assert HasID(st, ids[k]);
      var i :| 0 <= i < |st.services| && st.services[i].serviceID == ids[k];
      assert r.services[i].serviceID == ids[k];
    }
    assert forall k :: OnKing(r.services[a], k) == OnKing(st.services[a], k);
  }

  /** Recording a flag of any service and provisioning leaves the service at home. */
  lemma MarkKeeps(st: State, b: nat, s: Service, a: nat)
    requires AtHome(st, a) && b < |st.services|
    requires s == st.services[b].(kingReady := s.kingReady, lingReady := s.lingReady)
    requires (st.services[b].kingReady ==> s.kingReady) && (st.services[b].lingReady ==> s.lingReady)
    ensures
      var e := WithService(st, b, s);
      Keeps(st, Commit(e), a) && Commit(e).services[a] == e.services[a]
  {
    hide Provision, Tidy, Hosted, InRanges, Live, KingsUnique, Uncontested, Kept;
    var e := WithService(st, b, s);
    assert forall k :: OnKing(e.services[a], k) == OnKing(st.services[a], k);
    ProvisionKeeps(e.(revision := e.revision + 1));
    CommitRaises(e);
    forall i | 0 <= i < |st.services| ensures Commit(e).services[i].serviceID == st.services[i].serviceID {
      assert SameService(e.services[i], Commit(e).services[i]);
    }
  }

  /** The report still names the service. */
  predicate StillNamed(ids: seq<string>, i: nat, id: string) {
    exists k :: i <= k < |ids| && ids[k] == id
  }

  lemma FoundIsNamed(st: State, a: nat, id: string)
    requires DistinctIDs(st.services) && a < |st.services| && HasID(st, id)
    ensures
      var b := FindFirst(ByServiceID(id), st.services);
      b.Some? && (st.services[a].serviceID == id <==> b == Some(a))
  {
    var i :| 0 <= i < |st.services| && st.services[i].serviceID == id;
    assert ByServiceID(id)(st.services[i]);
  }

  /** A segment of a king's handler that has yet to record the service brings that closer. */
  lemma {:induction false} KingSegment(st: State, req: PutKing, i: nat, env: Env, a: nat)
    requires AtHome(st, a) && DistinctIDs(st.services) && AllKnown(st, req.readyServiceIDs)
    requires !st.services[a].kingReady && StillNamed(req.readyServiceIDs, i, st.services[a].serviceID)
    ensures
      var p := Segment(st, KingReadyLoop(req, i), env);
      && Keeps(st, p.After(), a) && p.next.KingReadyLoop? && p.next.king == req && i < p.next.i
      && (p.After().services[a].kingReady || StillNamed(req.readyServiceIDs, p.next.i, st.services[a].serviceID))
    decreases |req.readyServiceIDs| - i
  {
    hide Commit, FindFirst, DistinctIDs, Keeps, Segment;
    var id := req.readyServiceIDs[i];
    assert HasID(st, id) by {
      assert AllKnown(st, req.readyServiceIDs);
    }
    FoundIsNamed(st, a, id);
    var b := FindFirst(ByServiceID(id), st.services).value;
    SegmentStep(st, KingReadyLoop(req, i), env);
    if st.services[b].kingReady {
      KingSegment(st, req, i + 1, env, a);
    } else {
      MarkKeeps(st, b, st.services[b].(kingReady := true), a);
    }
  }

  lemma {:induction false} LingSegment(st: State, req: PutLing, i: nat, env: Env, a: nat)
    requires AtHome(st, a) && DistinctIDs(st.services) && AllKnown(st, req.readyServiceIDs)
    requires !st.services[a].lingReady && StillNamed(req.readyServiceIDs, i, st.services[a].serviceID)
    ensures
      var p := Segment(st, LingReadyLoop(req, i), env);
      && Keeps(st, p.After(), a) && p.next.LingReadyLoop? && p.next.ling == req && i < p.next.i
      && (p.After().services[a].lingReady || StillNamed(req.readyServiceIDs, p.next.i, st.services[a].serviceID))
    decreases |req.readyServiceIDs| - i
  {
    hide Commit, FindFirst, DistinctIDs, Keeps, Segment;
    var id := req.readyServiceIDs[i];
    assert HasID(st, id) by {
      assert AllKnown(st, req.readyServiceIDs);
    }
    FoundIsNamed(st, a, id);
    var b := FindFirst(ByServiceID(id), st.services).value;
    SegmentStep(st, LingReadyLoop(req, i), env);
    if st.services[b].lingReady {
      LingSegment(st, req, i + 1, env, a);
    } else {
      MarkKeeps(st, b, st.services[b].(lingReady := true), a);
    }
  }

  lemma SegmentStep(st: State, th: Thread, env: Env)
    ensures
      var p := Step(st, th, env);
      Segment(st, th, env) == if p.unlocked then p else Segment(p.edited, p.next, env)
  {
    hide Step;
  }

  // ---------------------------------------------------------------- a report reaches the council

  /** The service is where it can become ready, in the state the peers would fetch now. */
  predicate Standing(w: World, a: nat) {
    && w.past != [] && Last(w.past) == w.sys.council
    && AtHome(w.sys.council, a) && DistinctIDs(w.sys.council.services)
  }

  predicate SamePeers(w: World, v: World) {
    v.kings == w.kings && v.lings == w.lings
  }

  lemma Chain(w: World, u: World, v: World, m: int, n: int)
    requires Leads(w, u, m) && Leads(u, v, n)
    ensures Leads(w, v, m + n)
  {
    hide CanMove, Moved;
    var ws, ms :| PathBetween(ws, ms, w, u) && |ms| <= m;
    var vs, ls :| PathBetween(vs, ls, u, v) && |ls| <= n;
    var us, ns := ws + vs[1..], ms + ls;
    forall i | 0 <= i < |ns| ensures CanMove(us[i], ns[i]) && us[i + 1] == Moved(us[i], ns[i]) {
      if i < |ms| {
        assert us[i] == ws[i] && us[i + 1] == ws[i + 1] && ns[i] == ms[i];
      } else {
        var j := i - |ms|;
        assert us[i] == vs[j] && us[i + 1] == vs[j + 1] && ns[i] == ls[j];
      }
    }
    assert PathBetween(us, ns, w, v);
  }

  lemma OneRun(w: World, t: nat) returns (u: World, env: Env)
    requires t < |w.sys.threads| && !w.sys.threads[t].Finished?
    ensures Leads(w, u, 1) && SamePeers(w, u) && u.past != [] && Last(u.past) == u.sys.council
    ensures
      var p := Segment(w.sys.council, w.sys.threads[t], env);
      u.sys.council == p.After() && |u.sys.threads| == |w.sys.threads| && u.sys.threads[t] == p.next
  {
    hide Segment, Leads;
    var id := Unissued(w.sys.issued);
    env := Env(w.sys.clock, id, "", None);
    Stay(w);
    Go(w, w, 0, CouncilMoves(Run(t, env)));
    u := Moved(w, CouncilMoves(Run(t, env)));
  }

  lemma {:induction false} KingRecords(w: World, t: nat, a: nat) returns (v: World)
    requires Standing(w, a) && !w.sys.council.services[a].kingReady
    requires t < |w.sys.threads| && w.sys.threads[t].KingReadyLoop?
    requires
      var th := w.sys.threads[t];
      && AllKnown(w.sys.council, th.king.readyServiceIDs)
      && StillNamed(th.king.readyServiceIDs, th.i, w.sys.council.services[a].serviceID)
    ensures Leads(w, v, |w.sys.threads[t].king.readyServiceIDs| - w.sys.threads[t].i)
    ensures Standing(v, a) && SamePeers(w, v)
    ensures Keeps(w.sys.council, v.sys.council, a) && v.sys.council.services[a].kingReady
    decreases |w.sys.threads[t].king.readyServiceIDs| - w.sys.threads[t].i
  {
    hide Segment, Leads, AllKnown, AtHome, DistinctIDs;
    var th, env := w.sys.threads[t], Env(0, "", "", None);
    v, env := OneRun(w, t);
    KingSegment(w.sys.council, th.king, th.i, env, a);
    KeepsKnown(w.sys.council, v.sys.council, a, th.king.readyServiceIDs);
    if !v.sys.council.services[a].kingReady {
      var u := v;
      v := KingRecords(u, t, a);
      Chain(w, u, v, 1, |th.king.readyServiceIDs| - u.sys.threads[t].i);
      Longer(w, v, 1 + |th.king.readyServiceIDs| - u.sys.threads[t].i, |th.king.readyServiceIDs| - th.i);
      KeepsTransitive(w.sys.council, u.sys.council, v.sys.council, a);
    } else {
      Longer(w, v, 1, |th.king.readyServiceIDs| - th.i);
    }
  }

  lemma {:induction false} LingRecords(w: World, t: nat, a: nat) returns (v: World)
    requires Standing(w, a) && !w.sys.council.services[a].lingReady
    requires t < |w.sys.threads| && w.sys.threads[t].LingReadyLoop?
    requires
      var th := w.sys.threads[t];
      && AllKnown(w.sys.council, th.ling.readyServiceIDs)
      && StillNamed(th.ling.readyServiceIDs, th.i, w.sys.council.services[a].serviceID)
    ensures Leads(w, v, |w.sys.threads[t].ling.readyServiceIDs| - w.sys.threads[t].i)
    ensures Standing(v, a) && SamePeers(w, v)
    ensures Keeps(w.sys.council, v.sys.council, a) && v.sys.council.services[a].lingReady
    decreases |w.sys.threads[t].ling.readyServiceIDs| - w.sys.threads[t].i
  {
    hide Segment, Leads, AllKnown, AtHome, DistinctIDs;
    var th, env := w.sys.threads[t], Env(0, "", "", None);
    v, env := OneRun(w, t);
    LingSegment(w.sys.council, th.ling, th.i, env, a);
    KeepsKnown(w.sys.council, v.sys.council, a, th.ling.readyServiceIDs);
    if !v.sys.council.services[a].lingReady {
      var u := v;
      v := LingRecords(u, t, a);
      Chain(w, u, v, 1, |th.ling.readyServiceIDs| - u.sys.threads[t].i);
      Longer(w, v, 1 + |th.ling.readyServiceIDs| - u.sys.threads[t].i, |th.ling.readyServiceIDs| - th.i);
      KeepsTransitive(w.sys.council, u.sys.council, v.sys.council, a);
    } else {
      Longer(w, v, 1, |th.ling.readyServiceIDs| - th.i);
    }
  }

  lemma Longer(w: World, v: World, m: int, n: int)
    requires Leads(w, v, m) && m <= n
    ensures Leads(w, v, n)
  {
  }

  // ---------------------------------------------------------------- the king's half

  /** The service is placed on a tunnel of the k-th king. */
  predicate OnTunnel(w: World, k: nat, s: Service) {
    && k < |w.kings| && s.host == Some(w.kings[k].host)
    && s.bindPort.Some? && s.bindPort.value in w.kings[k].configs
  }

  predicate RunningLing(st: State, lingID: string) {
    exists l :: l in st.lings && l.lingID == lingID && !l.shuttingDown
  }

  /** The king has the current snapshot and a connection for the service. */
  predicate Connected(w: World, k: nat, s: Service) {
    && OnTunnel(w, k, s) && w.kings[k].snapshot == Some(w.sys.council)
    && s.bindPort.value in w.kings[k].conns && s.serviceID in w.kings[k].conns[s.bindPort.value]
  }

  /** A king fetches the council's state and a ling connects with the service's token. */
  lemma Connects(w: World, k: nat, a: nat) returns (v: World)
    requires Standing(w, a) && Core(w.sys.council, w.sys.issued) && OnTunnel(w, k, w.sys.council.services[a])
    requires RunningLing(w.sys.council, w.sys.council.services[a].lingID)
    ensures Leads(w, v, 4) && v.sys == w.sys && v.lings == w.lings && v.past == w.past
    ensures Connected(v, k, w.sys.council.services[a])
  {
    hide Leads, DistinctIDs, RegisterAll, Tokens, UnregisterAll, Next, Enabled, Core;
    var st, s := w.sys.council, w.sys.council.services[a];
    var bindPort, at := s.bindPort.value, |w.past| - 1;
    TokenIsWanted(st, w.sys.issued, a);
    Stay(w);
    Go(w, w, 0, KingStores(k, at));
    var w1 := Moved(w, KingStores(k, at));
    Go(w, w1, 1, KingUpdates(k, bindPort, at));
    var w2 := Moved(w1, KingUpdates(k, bindPort, at));
    var h := Handshake(k, bindPort, [ControlMessage(s.serviceID, s.token)], 0);
    Go(w, w2, 2, KingAuthenticates(h));
    var w3 := Moved(w2, KingAuthenticates(h));
    Go(w, w3, 3, KingRegisters(h));
    v := Moved(w3, KingRegisters(h));
    var n := w3.kings[k];
    assert ServiceIDs(h.messages)[0] == s.serviceID;
    RegisterAllIs(ConnsAt(n.conns, bindPort), ServiceIDs(h.messages), 0, s.serviceID);
  }

  lemma TokenIsWanted(st: State, issued: set<string>, a: nat)
    requires Core(st, issued) && a < |st.services| && RunningLing(st, st.services[a].lingID)
    requires st.services[a].bindPort.Some? && st.services[a].host.Some?
    ensures
      var s := st.services[a];
      var tokens := Tokens(st.services, st.lings, s.bindPort.value, s.host.value);
      s.serviceID in tokens && tokens[s.serviceID] == s.token
  {
    hide Tokens, DesiredPorts, Hosted, DistinctIDs, DistinctNames, DistinctKings;
    var s := st.services[a];
    assert Belongs(s, st.lings, s.bindPort.value, s.host.value);
    TunnelServices(st, issued, s.bindPort.value, s.host.value);
  }

  /** A king with a connection reports the service, with whatever else it has to report, and is heard. */
  lemma KingTells(w: World, k: nat, a: nat, req: PutKing) returns (v: World)
    requires Standing(w, a) && !w.sys.council.services[a].kingReady && Connected(w, k, w.sys.council.services[a])
    requires RunningLing(w.sys.council, w.sys.council.services[a].lingID) && req.host != "" && req.location != ""
    ensures Leads(w, v, 4 + |w.sys.council.services|) && Standing(v, a)
    ensures |v.kings| == |w.kings| && v.lings == w.lings
    ensures Keeps(w.sys.council, v.sys.council, a) && v.sys.council.services[a].kingReady
  {
    hide Leads, ReadyIDs, Keeps, OnShuttingDown, DistinctIDs;
    var st, s := w.sys.council, w.sys.council.services[a];
    var n := w.kings[k];
    var ids := ReadyIDs(st.services, st.lings, n.conns, n.configs, n.host);
    KingNames(st, a, n.conns, n.configs, n.host);
    var told := req.(readyServiceIDs := ids);
    Stay(w);
    Go(w, w, 0, KingStartsReport(k));
    var w1 := Moved(w, KingStartsReport(k));
    Go(w, w1, 1, KingSyncs(k, told));
    var w2 := Moved(w1, KingSyncs(k, told));
    Go(w, w2, 2, CouncilMoves(ArriveKing(told)));
    var w3 := Moved(w2, CouncilMoves(ArriveKing(told)));
    v := KingRecords(w3, |w.sys.threads|, a);
    Chain(w, w3, v, 3, |ids|);
    Longer(w, v, 3 + |ids|, 4 + |st.services|);
  }

  lemma KingNames(st: State, a: nat, conns: Servers, configs: seq<int>, host: string)
    requires a < |st.services| && RunningLing(st, st.services[a].lingID) && st.services[a].host == Some(host)
    requires st.services[a].bindPort.Some? && st.services[a].bindPort.value in configs
    requires st.services[a].bindPort.value in conns && st.services[a].serviceID in conns[st.services[a].bindPort.value]
    ensures
      var ids := ReadyIDs(st.services, st.lings, conns, configs, host);
      |ids| <= |st.services| && AllKnown(st, ids) && StillNamed(ids, 0, st.services[a].serviceID)
  {
    hide ReadyIDs, Filter;
    var ids := ReadyIDs(st.services, st.lings, conns, configs, host);
    ReadyIDsAre(st.services, st.lings, conns, configs, host);
    FilterShort(MayReport(st.lings, conns, configs, host), st.services);
    forall k | 0 <= k < |ids| ensures HasID(st, ids[k]) {
      ReadyIDIs(st.services, st.lings, conns, configs, host, ids[k]);
    }
    ReadyIDIs(st.services, st.lings, conns, configs, host, st.services[a].serviceID);
  }

  // ---------------------------------------------------------------- the ling's half

  /** The l-th ling offers the service. */
  predicate Offers(w: World, l: nat, s: Service) {
    l < |w.lings| && w.lings[l].lingID == s.lingID && s.name in w.lings[l].tunnels
  }

  /** A ling fetches the council's state, reports the service, with whatever else it has to report, and is heard. */
  lemma LingTells(w: World, l: nat, a: nat, req: PutLing) returns (v: World)
    requires Standing(w, a) && Offers(w, l, w.sys.council.services[a])
    requires w.sys.council.services[a].kingReady && !w.sys.council.services[a].lingReady
    requires req.lingID != "" && req.preferredLocation != ""
    ensures Leads(w, v, 4 + |w.sys.council.services|) && Standing(v, a)
    ensures Keeps(w.sys.council, v.sys.council, a) && v.sys.council.services[a].lingReady
  {
    hide Leads, L.LingReadyIDs, Keeps, OnShuttingDown, DistinctIDs;
    var st, s := w.sys.council, w.sys.council.services[a];
    var n := w.lings[l];
    var ids := L.LingReadyIDs(st.services, n.lingID, n.tunnels);
    LingNames(st, a, n.lingID, n.tunnels);
    var told := req.(readyServiceIDs := ids);
    Stay(w);
    Go(w, w, 0, LingStores(l, |w.past| - 1));
    var w1 := Moved(w, LingStores(l, |w.past| - 1));
    Go(w, w1, 1, LingSyncs(l, told));
    var w2 := Moved(w1, LingSyncs(l, told));
    Go(w, w2, 2, CouncilMoves(ArriveLing(told)));
    var w3 := Moved(w2, CouncilMoves(ArriveLing(told)));
    v := LingRecords(w3, |w.sys.threads|, a);
    Chain(w, w3, v, 3, |ids|);
    Longer(w, v, 3 + |ids|, 4 + |st.services|);
  }

  lemma LingNames(st: State, a: nat, lingID: string, tunnels: map<string, string>)
    requires a < |st.services| && st.services[a].lingID == lingID && st.services[a].name in tunnels
    requires st.services[a].kingReady
    ensures
      var ids := L.LingReadyIDs(st.services, lingID, tunnels);
      |ids| <= |st.services| && AllKnown(st, ids) && StillNamed(ids, 0, st.services[a].serviceID)
  {
    hide L.LingReadyIDs, Filter;
    var ids, s := L.LingReadyIDs(st.services, lingID, tunnels), st.services[a];
    L.LingReadyIDsAre(st.services, lingID, tunnels);
    FilterShort((s: Service) => s.lingID == lingID && s.name in tunnels && s.kingReady, st.services);
    forall k | 0 <= k < |ids| ensures HasID(st, ids[k]) {
      L.ReportedAre(st.services, lingID, tunnels, ids[k]);
    }
    assert L.MayReport(st.services[a], lingID, tunnels);
    L.ReportedAre(st.services, lingID, tunnels, s.serviceID);
  }

  // ---------------------------------------------------------------- connections end

  /** Any connection can close, and then its king no longer reports what was connected by it. */
  lemma ConnectionCanEnd(w: World, k: nat, bindPort: int, id: string) returns (v: World)
    requires k < |w.kings| && bindPort in w.kings[k].conns && id in w.kings[k].conns[bindPort]
    ensures Leads(w, v, 1) && v.sys == w.sys && |v.kings| == |w.kings|
    ensures bindPort in v.kings[k].conns && id !in v.kings[k].conns[bindPort]
  {
    hide Leads;
    var m := KingUnregisters(k, bindPort, [id], w.kings[k].conns[bindPort][id]);
    Stay(w);
    Go(w, w, 0, m);
    v := Moved(w, m);
    UnregisterAllIs(ConnsAt(w.kings[k].conns, bindPort), [id], w.kings[k].conns[bindPort][id], id);
  }

  // ---------------------------------------------------------------- the theorem

  /** Both sides of the service are there: it is placed on a tunnel of this king, no king at its address is shutting
      down, its ling is registered and running, and this ling of the mesh offers it. */
  predicate Served(w: World, a: nat, k: nat, l: nat) {
    && AtHome(w.sys.council, a)
    && var s := w.sys.council.services[a];
      OnTunnel(w, k, s) && RunningLing(w.sys.council, s.lingID) && Offers(w, l, s)
  }

  /** Any run that has both sides of a service can go on, with a number of moves known beforehand, so that a proxy for
      its name has the service as a target at the place where it is, whatever else king and ling send. */
  lemma HandshakeCanComplete(ws: seq<World>, ms: seq<Move>, a: nat, k: nat, l: nat, king: PutKing, ling: PutLing)
    returns (us: seq<World>, ns: seq<Move>)
    requires WorldRun(ws, ms) && Served(Last(ws), a, k, l)
    requires king.host != "" && king.location != "" && ling.lingID != "" && ling.preferredLocation != ""
    ensures WorldRun(us, ns) && ws <= us && ms <= ns
    ensures |ns| <= |ms| + 2 * |Last(ws).sys.council.services| + 12
    ensures
      var st, s := Last(us).sys.council, Last(ws).sys.council.services[a];
      && |st.services| == |Last(ws).sys.council.services| && st.services[a] == s.(kingReady := true, lingReady := true)
      && s.host.Some? && s.remotePort.Some?
      && L.ProxyTarget(s.host.value, s.remotePort.value) in
           L.Targets(st.services, s.name, L.IndexKings(st.kings), None)
  {
    hide Moved, CanMove, Fresh, Leads, OnShuttingDown, DistinctIDs, Core, L.Targets, L.IndexKings, RunningLing;
    var w, s := Last(ws), Last(ws).sys.council.services[a];
    RunStands(ws, ms, a);
    var u, n := w, |w.sys.council.services|;
    Stay(w);
    Longer(w, w, 0, 8 + n);
    if !s.kingReady {
      var v := Connects(w, k, a);
      u := KingTells(v, k, a, king);
      Chain(w, v, u, 4, 4 + n);
    }
    var r := u;
    Stay(u);
    Longer(u, u, 0, 4 + n);
    if !u.sys.council.services[a].lingReady {
      r := LingTells(u, l, a, ling);
      KeepsTransitive(w.sys.council, u.sys.council, r.sys.council, a);
    }
    Chain(w, u, r, 8 + n, 4 + n);
    us, ns := RunGoesOn(ws, ms, r, 12 + 2 * n);
    RunStands(us, ns, a);
    IsTarget(r.sys.council, r.sys.issued, a);
  }

  lemma RunStands(ws: seq<World>, ms: seq<Move>, a: nat)
    requires WorldRun(ws, ms) && AtHome(Last(ws).sys.council, a)
    ensures Standing(Last(ws), a) && Core(Last(ws).sys.council, Last(ws).sys.issued)
  {
    hide Moved, CanMove, OnShuttingDown, DistinctIDs, Tidy, Hosted, DistinctNames, DistinctLings, DistinctKings;
    IdentityEverywhere(ws, ms, |ws| - 1);
  }

  lemma IsTarget(st: State, issued: set<string>, a: nat)
    requires Core(st, issued) && AtHome(st, a) && st.services[a].kingReady && st.services[a].lingReady
    ensures
      var s := st.services[a];
      && s.host.Some? && s.remotePort.Some?
      && L.ProxyTarget(s.host.value, s.remotePort.value) in
           L.Targets(st.services, s.name, L.IndexKings(st.kings), None)
  {
    hide DistinctIDs, DistinctNames, DistinctLings, DistinctKings, L.Targets, L.IndexKings;
    var s := st.services[a];
    assert HasKing(st.kings, s);
    var k :| k in st.kings && OnKing(s, k);
    KingThere(st.kings, k);
    L.KingAtIs(st.kings, s.host.value, s.bindPort.value);
    var t := L.ProxyTarget(s.host.value, s.remotePort.value);
    assert L.TargetOf(s, st.kings, s.name, None, t);
    L.TargetsAre(st.services, st.kings, s.name, None, t);
  }

  lemma {:induction false} KingThere(kings: seq<King>, k: King)
    requires k in kings
    ensures L.KingAt(kings, k.host, k.bindPort).Some?
  {
    if !(Last(kings).host == k.host && Last(kings).bindPort == k.bindPort) {
      KingThere(Front(kings), k);
    }
  }
}
