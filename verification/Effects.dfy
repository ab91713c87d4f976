/** What a request brings about at the council, step by step: readiness recorded, kings evacuated, lings
    and services registered. */
module Effects {
  import opened Basics
  import opened CouncilState
  import opened Provisioner
  import opened Placement
  import opened Cleaner
  import opened Handlers
  import opened Registry

  lemma CommitReady(st: State, i: nat)
    requires i < |st.services|
    ensures |Commit(st).services| == |st.services|
    ensures Commit(st).services[i].kingReady <==> st.services[i].kingReady && !OnShuttingDown(st.kings, st.services[i])
    ensures Commit(st).services[i].lingReady == st.services[i].lingReady
  {
    hide Provision, OnShuttingDown;
    CommitRaises(st);
    ProvisionReady(st.(revision := st.revision + 1), i);
    assert SameService(st.services[i], Commit(st).services[i]);
  }

  /** A king's report makes the service king-ready, unless its own king is shutting down; no other service
      gains a flag, and one loses it only when its king is shutting down. An unknown ID changes nothing. */
  lemma KingReportTakesEffect(st: State, req: PutKing, i: nat, env: Env, a: nat)
    requires i < |req.readyServiceIDs| && a < |st.services| && DistinctIDs(st.services)
    ensures
      var p := KingReadyStep(st, req, i, env);
      var r := p.After();
      var id, s := req.readyServiceIDs[i], st.services[a];
      && |r.services| == |st.services|
      && r.services[a].lingReady == s.lingReady
      && (s.serviceID == id && !s.kingReady ==> (r.services[a].kingReady <==> !OnShuttingDown(st.kings, s)))
      && (r.services[a].kingReady ==> s.kingReady || s.serviceID == id)
      && (s.kingReady && !r.services[a].kingReady ==> OnShuttingDown(st.kings, s))
      && (p.next.Finished? <==> forall b :: 0 <= b < |st.services| ==> st.services[b].serviceID != id)
      && (p.next.Finished? ==> r == st && p.next.reply == BadRequest(id + " cannot be found in state.services"))
  {
    hide Commit, OnShuttingDown;
    var id := req.readyServiceIDs[i];
    match FindFirst(ByServiceID(id), st.services)
    case None =>
      forall b | 0 <= b < |st.services| ensures st.services[b].serviceID != id {
        assert !ByServiceID(id)(st.services[b]);
      }
    case Some(j) =>
      assert ByServiceID(id)(st.services[j]);
      if !st.services[j].kingReady {
        var e := WithService(st, j, st.services[j].(kingReady := true));
        CommitReady(e, a);
        SamePlaceSameKings(st.kings, st.services[j], e.services[j]);
      }
  }

  lemma SamePlaceSameKings(kings: seq<King>, s: Service, t: Service)
    requires SamePlace(s, t)
    ensures OnShuttingDown(kings, s) == OnShuttingDown(kings, t)
  {
    assert forall k :: OnKing(s, k) == OnKing(t, k);
  }

  /** A ling's report makes exactly that service ling-ready, for good: no ling-ready flag is withdrawn. The commit
      that records it may withdraw the king-ready flag of a service, but only when its king is shutting down. */
  lemma LingReportTakesEffect(st: State, req: PutLing, i: nat, env: Env, a: nat)
    requires i < |req.readyServiceIDs| && a < |st.services| && DistinctIDs(st.services)
    ensures
      var p := LingReadyStep(st, req, i, env);
      var r := p.After();
      var id, s := req.readyServiceIDs[i], st.services[a];
      && |r.services| == |st.services|
      && (r.services[a].lingReady <==> s.lingReady || s.serviceID == id)
      && (r.services[a].kingReady <==> s.kingReady && !(p.commits && OnShuttingDown(st.kings, s)))
      && (p.next.Finished? <==> forall b :: 0 <= b < |st.services| ==> st.services[b].serviceID != id)
      && (p.next.Finished? ==> r == st && p.next.reply == BadRequest("service is undefined or null"))
  {
    hide Commit, OnShuttingDown;
    var id := req.readyServiceIDs[i];
    match FindFirst(ByServiceID(id), st.services)
    case None =>
      forall b | 0 <= b < |st.services| ensures st.services[b].serviceID != id {
        assert !ByServiceID(id)(st.services[b]);
      }
    case Some(j) =>
      assert ByServiceID(id)(st.services[j]);
      if !st.services[j].lingReady {
        var e := WithService(st, j, st.services[j].(lingReady := true));
        CommitReady(e, a);
        SamePlaceSameKings(st.kings, st.services[a], e.services[a]);
      }
  }

  /** After a commit, a service without a place means that no live king has a port left. */
  lemma CommitMaximal(st: State)
    ensures Unplaced(Commit(st).services) == {} || FreeSlots(Commit(st)) == {}
    ensures Uncontested(st.kings) ==> Live(Commit(st))
    ensures Hosted(st) ==> Hosted(Commit(st))
  {
    hide Provision, Live, Hosted, Uncontested, FreeSlots, Unplaced;
    var counted := st.(revision := st.revision + 1);
    ProvisionMaximal(counted);
    ProvisionKeeps(counted);
    assert Hosted(st) ==> Hosted(counted) by {
      HostedIgnoresRevision(st, counted);
    }
  }

  lemma HostedIgnoresRevision(a: State, b: State)
    requires b == a.(revision := b.revision)
    ensures Hosted(a) == Hosted(b)
  {
  }

  /** When a known king reports that it is shutting down, it loses every service: each is at the address of
      another king, or waits unplaced because no live king has a free port. */
  lemma ShutdownEvacuates(st: State, req: PutKing, now: int, i: nat)
    requires i < |req.tunnels| && req.shuttingDown && Hosted(st)
    requires
      var found := FindFirst(ByPortsAndHost(req.tunnels[i].ports, req.host), st.kings);
      found.Some? && !st.kings[found.value].shuttingDown
    ensures
      var j := FindFirst(ByPortsAndHost(req.tunnels[i].ports, req.host), st.kings).value;
      var r := KingTunnelStep(st, req, now, i).After();
      && r.kings == st.kings[j := st.kings[j].(shuttingDown := true, certPEM := req.certPEM)]
      && |r.services| == |st.services|
      && (Uncontested(r.kings) ==>
           forall a :: 0 <= a < |r.services| ==>
             && !OnKing(r.services[a], r.kings[j])
             && (r.services[a].bindPort.Some? ==> HasKing(r.kings, r.services[a]))
             && (r.services[a].bindPort.None? ==> FreeSlots(r) == {}))
  {
    hide Commit, Uncontested, FreeSlots;
    var j := FindFirst(ByPortsAndHost(req.tunnels[i].ports, req.host), st.kings).value;
    var k := st.kings[j].(shuttingDown := true, certPEM := req.certPEM);
    var e := WithKing(st, j, k);
    var r := KingTunnelStep(st, req, now, i).After();
    assert r == Commit(e);
    EditedKingHosts(st, j, k);
    CommitRaises(e);
    CommitMaximal(e);
    if Uncontested(r.kings) {
      forall a | 0 <= a < |r.services|
        ensures !OnKing(r.services[a], k) && (r.services[a].bindPort.None? ==> FreeSlots(r) == {})
      {
        assert !OnShuttingDown(r.kings, r.services[a]);
        assert r.kings[j] in r.kings;
        assert r.services[a].bindPort.None? ==> a in Unplaced(r.services);
      }
    }
  }

  lemma EditedKingHosts(st: State, j: nat, k: King)
    requires j < |st.kings| && SameAddress(st.kings[j], k) && Hosted(st)
    ensures Hosted(WithKing(st, j, k))
  {
    var r := WithKing(st, j, k);
    forall i | 0 <= i < |st.services| && st.services[i].bindPort.Some? ensures HasKing(r.kings, st.services[i]) {
      var h :| h in st.kings && OnKing(st.services[i], h);
      var a :| 0 <= a < |st.kings| && st.kings[a] == h;
      assert r.kings[a] in r.kings && OnKing(st.services[i], r.kings[a]);
    }
  }

  /** The tunnel of a king request that step i handles. */
  predicate IsTunnel(k: King, req: PutKing, i: nat)
    requires i < |req.tunnels|
  {
    k.ports == req.tunnels[i].ports && k.host == req.host
  }

  predicate SameRegistration(h: King, k: King) {
    h.bindPort == k.bindPort && h.location == k.location
  }

  /** What the council says of a king after its request: the certificate is the request's, and so is the
      shutting-down flag, except that a king is always registered as running; the heartbeat is the request's
      time or still to be written. Bind port and location are fixed by the registration. */
  predicate Recorded(k: King, before: seq<King>, req: PutKing, now: int, i: nat, next: Thread)
    requires i < |req.tunnels|
  {
    && k.certPEM == req.certPEM && (k.beat == now || next == KingBeatWrite(req, now, i))
    && if exists h :: h in before && IsTunnel(h, req, i)
       then
         && k.shuttingDown == req.shuttingDown
         && exists h :: h in before && IsTunnel(h, req, i) && SameRegistration(h, k)
       else !k.shuttingDown && k.bindPort == req.tunnels[i].bindPort && k.location == req.location
  }

  /** After each tunnel of a king request there is exactly one king with its ports and host, recorded as the
      request says; no other king changes. */
  lemma KingRegistered(st: State, req: PutKing, now: int, i: nat)
    requires i < |req.tunnels| && DistinctKings(st.kings)
    ensures
      var p := KingTunnelStep(st, req, now, i);
      var r := p.After();
      && DistinctKings(r.kings)
      && (exists k :: k in r.kings && IsTunnel(k, req, i))
      && (forall k :: k in r.kings && IsTunnel(k, req, i) ==> Recorded(k, st.kings, req, now, i, p.next))
      && (forall k: King :: !IsTunnel(k, req, i) ==> (k in r.kings <==> k in st.kings))
  {
    hide Commit;
    var p := KingTunnelStep(st, req, now, i);
    CommitRaises(p.edited);
    assert p.After().kings == p.edited.kings;
    var test := ByPortsAndHost(req.tunnels[i].ports, req.host);
    match FindFirst(test, st.kings)
    case None =>
      forall h | h in st.kings ensures !IsTunnel(h, req, i) {
        var a :| 0 <= a < |st.kings| && st.kings[a] == h;
        assert !test(st.kings[a]);
      }
      assert p.edited.kings == st.kings + [NewKing(req, req.tunnels[i], now)];
      assert IsTunnel(p.edited.kings[|st.kings|], req, i);
    case Some(j) =>
      assert test(st.kings[j]);
      var k := p.edited.kings[j];
      assert p.edited.kings == st.kings[j := k];
      OthersSame(st.kings, j, k);
      assert IsTunnel(st.kings[j], req, i) && SameRegistration(st.kings[j], k);
      assert IsTunnel(k, req, i) && k in p.edited.kings;
  }

  lemma OthersSame(kings: seq<King>, j: nat, k: King)
    requires j < |kings| && DistinctKings(kings) && k.ports == kings[j].ports && k.host == kings[j].host
    ensures DistinctKings(kings[j := k])
    ensures forall h: King :: h.ports != k.ports || h.host != k.host ==> (h in kings[j := k] <==> h in kings)
    ensures forall h :: h in kings[j := k] && h.ports == k.ports && h.host == k.host ==> h == k
  {
    var after := kings[j := k];
    forall h: King | h in kings && (h.ports != k.ports || h.host != k.host) ensures h in after {
      var a :| 0 <= a < |kings| && kings[a] == h;
      assert after[a] == h;
    }
  }

  predicate IsFor(s: Service, name: string, lingID: string) {
    s.name == name && s.lingID == lingID
  }

  predicate HasService(st: State, name: string, lingID: string) {
    exists i :: 0 <= i < |st.services| && IsFor(st.services[i], name, lingID)
  }

  /** Whether a handler goes on to the next tunnel or stops at this one, the tunnel has a service for this
      ling by then: the one it had, or a new one with the fresh ID and token that neither side has reported
      ready. Every service before it stays what it was. */
  lemma ServiceRegistered(st: State, req: PutLing, now: int, i: nat, env: Env)
    requires i < |req.tunnels|
    ensures
      var p := LingServiceStep(st, req, now, i, env);
      var r := p.After();
      if HasService(st, req.tunnels[i], req.lingID)
      then r == st && p.next == Finished(Accepted)
      else
        var s := Last(r.services);
        && |r.services| == |st.services| + 1 && SameServices(st.services, Front(r.services))
        && s.name == req.tunnels[i] && s.lingID == req.lingID && s.preferredLocation == req.preferredLocation
        && s.serviceID == env.newID && s.token == env.token && !s.kingReady && !s.lingReady
        && p.next == LingTunnelLoop(req, now, i + 1)
  {
    hide Commit;
    var p := LingServiceStep(st, req, now, i, env);
    match FindFirst(ByNameAndLing(req.tunnels[i], req.lingID), st.services)
    case Some(a) =>
      assert IsFor(st.services[a], req.tunnels[i], req.lingID);
      assert p.After() == st;
    case None =>
      assert forall s: Service ::
        IsFor(s, req.tunnels[i], req.lingID) <==> ByNameAndLing(req.tunnels[i], req.lingID)(s);
      CommitRaises(p.edited);
      assert SameService(p.edited.services[|st.services|], Last(p.After().services));
  }

  /** After any step of a ling request's tunnel the ling is known, with the request's time as its heartbeat
      and the request's shutting-down flag. */
  lemma LingRegistered(st: State, req: PutLing, now: int, i: nat, env: Env)
    requires i < |req.tunnels| && DistinctLings(st.lings)
    ensures
      var r := LingTunnelStep(st, req, now, i, env).After();
      && Ling(req.lingID, req.shuttingDown, now) in r.lings
      && (forall l :: l in r.lings && l.lingID == req.lingID ==> l == Ling(req.lingID, req.shuttingDown, now))
      && (forall l: Ling :: l.lingID != req.lingID ==> (l in r.lings <==> l in st.lings))
  {
    hide Commit, LingServiceStep;
    var p := LingTunnelStep(st, req, now, i, env);
    var mine := Ling(req.lingID, req.shuttingDown, now);
    match FindFirst(ByLingID(req.lingID), st.lings)
    case None =>
      var lings := st.lings + [mine];
      ServiceStepLings(st.(lings := lings), req, now, i, env);
      forall a | 0 <= a < |st.lings| ensures st.lings[a].lingID != req.lingID {
        assert !ByLingID(req.lingID)(st.lings[a]);
      }
      assert lings[|st.lings|] == mine;
      assert p.After().lings == lings;
    case Some(j) =>
      assert ByLingID(req.lingID)(st.lings[j]);
      ServiceStepLings(WithLing(st, j, st.lings[j].(beat := now)), req, now, i, env);
      CommitRaises(WithLing(st, j, mine));
      var lings := st.lings[j := mine];
      assert lings[j] == mine;
      forall l: Ling | l.lingID != req.lingID ensures l in lings <==> l in st.lings {
        if l in st.lings {
          var a :| 0 <= a < |st.lings| && st.lings[a] == l;
          assert lings[a] == l;
        }
      }
      assert p.After().lings == lings;
      assert mine in p.After().lings;
  }

  lemma ServiceStepLings(st: State, req: PutLing, now: int, i: nat, env: Env)
    ensures LingServiceStep(st, req, now, i, env).After().lings == st.lings
  {
    hide Commit, FindFirst;
    CommitRaises(LingServiceStep(st, req, now, i, env).edited);
  }

  /** A king request is taken up unless it names no host, or else no location; it starts with its first report. */
  lemma KingTakenUp(req: PutKing)
    ensures StartKing(req) ==
      if req.host == "" then Finished(BadRequest("host field cannot be null or undefined"))
      else if req.location == "" then Finished(BadRequest("location field cannot be null or undefined"))
      else KingReadyLoop(req, 0)
  {
  }

  /** A ling request is taken up unless it names no ling, or else no preferred location. */
  lemma LingTakenUp(req: PutLing)
    ensures StartLing(req) ==
      if req.lingID == "" then Finished(BadRequest("ling_id field cannot be null or undefined"))
      else if req.preferredLocation == "" then
        Finished(BadRequest("preferred_location field cannot be null or undefined"))
      else LingReadyLoop(req, 0)
  {
  }
}
