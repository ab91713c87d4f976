/** A whole king request, from its first segment to its reply, when nothing comes in between. */
module KingRequests {
  import opened Basics
  import opened CouncilState
  import opened Provisioner
  import opened Placement
  import opened Cleaner
  import opened Handlers
  import opened Registry
  import opened Effects
  import opened Requests

  // ---------------------------------------------------------------- the reply

  /** Every service that the request reports ready is registered. */
  predicate ReportsRegistered(st: State, req: PutKing) {
    forall k :: 0 <= k < |req.readyServiceIDs| ==> HasID(st, req.readyServiceIDs[k])
  }

  predicate OfKing(th: Thread, req: PutKing) {
    match th
    case KingReadyLoop(r, _) => r == req
    case KingTunnelLoop(r, _, _) => r == req
    case KingBeatWrite(r, _, _) => r == req
    case Finished(reply) => reply == Accepted
    case _ => false
  }

  /** How many segments the handler can still take. */
  function KingTurns(th: Thread): nat {
    match th
    case KingReadyLoop(req, i) =>
      2 * |req.tunnels| + 2 + if i < |req.readyServiceIDs| then |req.readyServiceIDs| - i else 0
    case KingTunnelLoop(req, _, i) => 1 + if i < |req.tunnels| then 2 * (|req.tunnels| - i) else 0
    case KingBeatWrite(req, _, i) => if i < |req.tunnels| then 2 * (|req.tunnels| - i) else 2
    case _ => 0
  }

  /** A king's handler adds and removes no service, and keeps their IDs. */
  predicate SameIDs(a: State, b: State) {
    && |a.services| == |b.services|
    && forall i :: 0 <= i < |a.services| ==> a.services[i].serviceID == b.services[i].serviceID
  }

  lemma SameIDsHave(a: State, b: State, req: PutKing)
    requires SameIDs(a, b) && ReportsRegistered(a, req)
    ensures ReportsRegistered(b, req)
  {
    forall k | 0 <= k < |req.readyServiceIDs| ensures HasID(b, req.readyServiceIDs[k]) {
      assert HasID(a, req.readyServiceIDs[k]);
      var i :| 0 <= i < |a.services| && a.services[i].serviceID == req.readyServiceIDs[k];
      assert b.services[i].serviceID == req.readyServiceIDs[k];
    }
  }

  lemma KingStepIDs(st: State, th: Thread, env: Env, req: PutKing)
    requires OfKing(th, req)
    ensures SameIDs(st, Step(st, th, env).After())
  {
    hide Commit, FindFirst, SameService;
    var p := Step(st, th, env);
    assert SameIDs(st, p.edited);
    CommitIDsSame(p.edited);
  }

  lemma CommitIDsSame(st: State)
    ensures SameIDs(st, Commit(st))
  {
    hide Commit;
    CommitRaises(st);
    assert forall i :: 0 <= i < |st.services| ==> SameService(st.services[i], Commit(st).services[i]);
  }

  /** A step of a king's handler whose reports are registered moves on and is not refused. */
  lemma KingStepAdvances(st: State, th: Thread, env: Env, req: PutKing)
    requires OfKing(th, req) && !th.Finished? && ReportsRegistered(st, req)
    ensures OfKing(Step(st, th, env).next, req) && KingTurns(Step(st, th, env).next) < KingTurns(th)
  {
    match th
    case KingReadyLoop(_, i) =>
      if i < |req.readyServiceIDs| {
        var id := req.readyServiceIDs[i];
        assert HasID(st, id);
        var k :| 0 <= k < |st.services| && st.services[k].serviceID == id;
        assert ByServiceID(id)(st.services[k]);
      }
    case _ => hide FindFirst;
  }

  lemma {:induction false} KingSegmentAdvances(st: State, th: Thread, env: Env, req: PutKing)
    requires OfKing(th, req) && !th.Finished? && ReportsRegistered(st, req)
    ensures
      var p := Segment(st, th, env);
      && OfKing(p.next, req) && KingTurns(p.next) < KingTurns(th)
      && SameIDs(st, p.After()) && ReportsRegistered(p.After(), req)
    decreases Fuel(th)
  {
    hide Step, Commit, ReportsRegistered;
    var p := Step(st, th, env);
    KingStepAdvances(st, th, env, req);
    KingStepIDs(st, th, env, req);
    SameIDsHave(st, p.After(), req);
    if !p.unlocked {
      QuietStep(st, th, env);
      if p.next.Finished? {
        FinishedStays(p.edited, p.next, env);
      } else {
        KingSegmentAdvances(p.edited, p.next, env, req);
      }
    }
  }

  lemma {:induction false} KingRequestAdvances(
      sts: seq<State>, ths: seq<Thread>, envs: seq<Env>, req: PutKing, n: nat)
    requires Uninterrupted(sts, ths, envs) && ths[0] == KingReadyLoop(req, 0) && n < |sts|
    requires ReportsRegistered(sts[0], req)
    ensures OfKing(ths[n], req) && SameIDs(sts[0], sts[n]) && ReportsRegistered(sts[n], req)
    ensures KingTurns(ths[n]) + n <= KingTurns(ths[0]) || ths[n].Finished?
  {
    hide Segment, ReportsRegistered;
    if n > 0 {
      KingRequestAdvances(sts, ths, envs, req, n - 1);
      if ths[n - 1].Finished? {
        FinishedStays(sts[n - 1], ths[n - 1], envs[n - 1]);
      } else {
        KingSegmentAdvances(sts[n - 1], ths[n - 1], envs[n - 1], req);
      }
    }
  }

  // ---------------------------------------------------------------- the kings

  /** One of the first n tunnels has these ports; or two of them do. */
  predicate Named(req: PutKing, n: nat, ports: string)
    requires n <= |req.tunnels|
  {
    exists i :: 0 <= i < n && req.tunnels[i].ports == ports
  }

  predicate NamedTwice(req: PutKing, n: nat, ports: string)
    requires n <= |req.tunnels|
  {
    exists i, j :: 0 <= i < j < n && req.tunnels[i].ports == ports && req.tunnels[j].ports == ports
  }

  predicate RegisteredFirst(req: PutKing, n: nat, k: King)
    requires n <= |req.tunnels|
  {
    exists i :: 0 <= i < n && FirstWith(req, i, k.ports) && k.bindPort == req.tunnels[i].bindPort
  }

  /** The i-th tunnel is the first with these ports. */
  predicate FirstWith(req: PutKing, i: nat, ports: string)
    requires i < |req.tunnels|
  {
    req.tunnels[i].ports == ports && forall j :: 0 <= j < i ==> req.tunnels[j].ports != ports
  }

  predicate SameEntry(h: King, k: King) {
    h.ports == k.ports && h.host == k.host
  }

  /** What the first n tunnels of a request leave of a king that one of them names: the request's certificate; its
      shutting-down flag if the king was known, or named before; else it is running, where it was first named. */
  predicate KingSays(before: seq<King>, k: King, req: PutKing, n: nat)
    requires n <= |req.tunnels|
  {
    && k.certPEM == req.certPEM
    && if exists h :: h in before && SameEntry(h, k)
       then
         && k.shuttingDown == req.shuttingDown
         && exists h :: h in before && SameEntry(h, k) && h.bindPort == k.bindPort && h.location == k.location
       else
         && k.shuttingDown == (req.shuttingDown && NamedTwice(req, n, k.ports))
         && RegisteredFirst(req, n, k) && k.location == req.location
  }

  /** The i-th tunnel has a king. */
  predicate HasTunnel(kings: seq<King>, req: PutKing, i: nat)
    requires i < |req.tunnels|
  {
    exists k :: k in kings && IsTunnel(k, req, i)
  }

  /** The kings after the first n tunnels; late is the entry whose heartbeat is still to be written. */
  ghost predicate KingsDid(before: seq<King>, kings: seq<King>, req: PutKing, now: int, n: nat, late: Option<string>) {
    && n <= |req.tunnels| && DistinctKings(kings)
    && (forall i :: 0 <= i < n ==> HasTunnel(kings, req, i))
    && (forall k :: k in kings && k.host == req.host && Named(req, n, k.ports) ==>
         KingSays(before, k, req, n) && (late == Some(k.ports) || k.beat == now))
    && (forall k: King :: !(k.host == req.host && Named(req, n, k.ports)) ==> (k in kings <==> k in before))
  }

  /** Where the handler stands, as far as the kings go; times are the clock readings of its segments. */
  ghost predicate KingsReached(before: seq<King>, kings: seq<King>, req: PutKing, th: Thread, times: set<int>) {
    match th
    case KingReadyLoop(r, _) => r == req && kings == before && DistinctKings(kings)
    case KingTunnelLoop(r, now, i) => r == req && now in times && KingsDid(before, kings, req, now, i, None)
    case KingBeatWrite(r, now, i) =>
      && r == req && now in times && i < |req.tunnels|
      && KingsDid(before, kings, req, now, i + 1, Some(req.tunnels[i].ports))
    case Finished(Accepted) => exists now :: now in times && KingsDid(before, kings, req, now, |req.tunnels|, None)
    case Finished(BadRequest(_)) => true
    case _ => false
  }

  lemma NothingDone(before: seq<King>, req: PutKing, now: int)
    requires DistinctKings(before)
    ensures KingsDid(before, before, req, now, 0, None)
  {
  }

  lemma NamedNext(req: PutKing, n: nat, ports: string)
    requires n < |req.tunnels|
    ensures Named(req, n + 1, ports) <==> Named(req, n, ports) || req.tunnels[n].ports == ports
    ensures NamedTwice(req, n + 1, ports) <==>
      NamedTwice(req, n, ports) || (Named(req, n, ports) && req.tunnels[n].ports == ports)
    ensures Named(req, n, ports) || req.tunnels[n].ports != ports || FirstWith(req, n, ports)
  {
    if req.tunnels[n].ports == ports {
      if i :| 0 <= i < n && req.tunnels[i].ports == ports {
        assert 0 <= i < n < n + 1 && req.tunnels[i].ports == ports && req.tunnels[n].ports == ports;
      }
    }
  }

  lemma TunnelDid(before: seq<King>, st: State, req: PutKing, now: int, i: nat)
    requires i < |req.tunnels| && KingsDid(before, st.kings, req, now, i, None)
    ensures
      var p := KingTunnelStep(st, req, now, i);
      KingsDid(before, p.After().kings, req, now, i + 1,
        if p.next == KingBeatWrite(req, now, i) then Some(req.tunnels[i].ports) else None)
  {
    hide KingTunnelStep, Named, NamedTwice, KingSays, DistinctKings;
    var p := KingTunnelStep(st, req, now, i);
    var kings := p.After().kings;
    var late := if p.next == KingBeatWrite(req, now, i) then Some(req.tunnels[i].ports) else None;
    KingRegistered(st, req, now, i);
    forall j | 0 <= j < i + 1 ensures HasTunnel(kings, req, j) {
      if j < i && req.tunnels[j].ports != req.tunnels[i].ports {
        assert HasTunnel(st.kings, req, j);
        var k :| k in st.kings && IsTunnel(k, req, j);
        assert !IsTunnel(k, req, i) && k in kings;
      } else {
        var k :| k in kings && IsTunnel(k, req, i);
        assert IsTunnel(k, req, j);
      }
    }
    forall k: King ensures Named(req, i + 1, k.ports) <==> Named(req, i, k.ports) || req.tunnels[i].ports == k.ports {
      NamedNext(req, i, k.ports);
    }
    forall k | k in kings && k.host == req.host && Named(req, i + 1, k.ports)
      ensures KingSays(before, k, req, i + 1) && (late == Some(k.ports) || k.beat == now)
    {
      TunnelSays(before, st, req, now, i, k);
    }
  }

  lemma NamedHas(kings: seq<King>, req: PutKing, n: nat, ports: string)
    requires n <= |req.tunnels| && Named(req, n, ports) && forall i :: 0 <= i < n ==> HasTunnel(kings, req, i)
    ensures exists k :: k in kings && k.ports == ports && k.host == req.host
  {
    var i :| 0 <= i < n && req.tunnels[i].ports == ports;
    assert HasTunnel(kings, req, i);
  }

  lemma TunnelSays(before: seq<King>, st: State, req: PutKing, now: int, i: nat, k: King)
    requires i < |req.tunnels| && KingsDid(before, st.kings, req, now, i, None)
    requires k in KingTunnelStep(st, req, now, i).After().kings && k.host == req.host && Named(req, i + 1, k.ports)
    ensures KingSays(before, k, req, i + 1)
    ensures
      || k.beat == now
      || (k.ports == req.tunnels[i].ports && KingTunnelStep(st, req, now, i).next == KingBeatWrite(req, now, i))
  {
    hide KingTunnelStep, Named, NamedTwice, DistinctKings;
    KingRegistered(st, req, now, i);
    NamedNext(req, i, k.ports);
    if !IsTunnel(k, req, i) {
      assert k in st.kings && KingSays(before, k, req, i);
      StillSays(before, k, req, i);
    } else if Named(req, i, k.ports) {
      NamedHas(st.kings, req, i, k.ports);
      var h :| h in st.kings && h.ports == k.ports && h.host == req.host;
      assert IsTunnel(h, req, i);
      var g :| g in st.kings && IsTunnel(g, req, i) && SameRegistration(g, k);
      assert KingSays(before, g, req, i);
      AgainSays(before, g, k, req, i);
    } else {
      FirstSays(before, st.kings, k, req, now, i, KingTunnelStep(st, req, now, i).next);
    }
  }

  /** A tunnel that does not name a king changes nothing that is said of it. */
  lemma StillSays(before: seq<King>, k: King, req: PutKing, i: nat)
    requires i < |req.tunnels| && req.tunnels[i].ports != k.ports && KingSays(before, k, req, i)
    ensures KingSays(before, k, req, i + 1)
  {
    hide Named, NamedTwice;
    NamedNext(req, i, k.ports);
    FirstStays(req, i, k);
  }

  lemma FirstStays(req: PutKing, i: nat, k: King)
    requires i < |req.tunnels|
    ensures RegisteredFirst(req, i, k) ==> RegisteredFirst(req, i + 1, k)
  {
    if j :| 0 <= j < i && FirstWith(req, j, k.ports) && k.bindPort == req.tunnels[j].bindPort {
      assert 0 <= j < i + 1 && FirstWith(req, j, k.ports) && k.bindPort == req.tunnels[j].bindPort;
    }
  }

  /** A king named before takes the request's flag. */
  lemma AgainSays(before: seq<King>, g: King, k: King, req: PutKing, i: nat)
    requires i < |req.tunnels| && req.tunnels[i].ports == k.ports && SameEntry(g, k) && SameRegistration(g, k)
    requires KingSays(before, g, req, i) && Named(req, i, k.ports)
    requires k.certPEM == req.certPEM && k.shuttingDown == req.shuttingDown
    ensures KingSays(before, k, req, i + 1)
  {
    hide Named, NamedTwice, RegisteredFirst;
    NamedNext(req, i, k.ports);
    FirstStays(req, i, g);
    SameFirst(req, i + 1, g, k);
    assert forall h :: SameEntry(h, g) == SameEntry(h, k);
  }

  lemma SameFirst(req: PutKing, n: nat, g: King, k: King)
    requires n <= |req.tunnels| && g.ports == k.ports && g.bindPort == k.bindPort
    ensures RegisteredFirst(req, n, g) == RegisteredFirst(req, n, k)
  {
  }

  /** A king named for the first time is as it was, but for certificate, flag and heartbeat, or it is new. */
  lemma FirstSays(before: seq<King>, kings: seq<King>, k: King, req: PutKing, now: int, i: nat, next: Thread)
    requires i < |req.tunnels| && IsTunnel(k, req, i) && !Named(req, i, k.ports)
    requires Recorded(k, kings, req, now, i, next)
    requires forall h: King :: SameEntry(h, k) ==> (h in kings <==> h in before)
    ensures KingSays(before, k, req, i + 1)
  {
    hide Named, NamedTwice;
    NamedNext(req, i, k.ports);
    NotTwice(req, i, k.ports);
    assert forall h: King :: IsTunnel(h, req, i) == SameEntry(h, k);
  }

  lemma NotTwice(req: PutKing, n: nat, ports: string)
    requires n <= |req.tunnels|
    ensures NamedTwice(req, n, ports) ==> Named(req, n, ports)
  {
  }

  /** The heartbeat written after the broadcast reaches the entry it is meant for. */
  predicate FindsEntry(kings: seq<King>, th: Thread, env: Env) {
    th.KingBeatWrite? && th.i < |th.king.tunnels| ==>
      env.late == FindFirst(ByPortsAndHost(th.king.tunnels[th.i].ports, th.king.host), kings)
  }

  lemma BeatDid(before: seq<King>, st: State, req: PutKing, now: int, i: nat, env: Env)
    requires i < |req.tunnels| && KingsDid(before, st.kings, req, now, i + 1, Some(req.tunnels[i].ports))
    requires FindsEntry(st.kings, KingBeatWrite(req, now, i), env)
    ensures KingsDid(before, KingBeatStep(st, req, now, i, env).edited.kings, req, now, i + 1, None)
  {
    hide Named, NamedTwice, DistinctKings;
    var test := ByPortsAndHost(req.tunnels[i].ports, req.host);
    assert HasTunnel(st.kings, req, i);
    var k :| k in st.kings && IsTunnel(k, req, i);
    var a :| 0 <= a < |st.kings| && st.kings[a] == k;
    assert test(st.kings[a]);
    var j := FindFirst(test, st.kings).value;
    var h, g := st.kings[j], st.kings[j].(beat := now);
    OthersSame(st.kings, j, g);
    NamedNext(req, i, g.ports);
    var kings := st.kings[j := g];
    assert kings == KingBeatStep(st, req, now, i, env).edited.kings && g == kings[j];
    assert h in st.kings && KingSays(before, h, req, i + 1);
    assert KingSays(before, g, req, i + 1) by { BeatSays(before, h, g, req, i + 1); }
    forall m | 0 <= m < i + 1 ensures HasTunnel(kings, req, m) {
      assert HasTunnel(st.kings, req, m);
      var f :| f in st.kings && IsTunnel(f, req, m);
      assert SameEntry(f, g) ==> IsTunnel(g, req, m);
      assert !SameEntry(f, g) ==> f in kings;
    }
    forall f | f in kings && f.host == req.host && Named(req, i + 1, f.ports)
      ensures KingSays(before, f, req, i + 1) && f.beat == now
    {
      assert SameEntry(f, g) ==> f == g;
    }
  }

  lemma BeatSays(before: seq<King>, h: King, g: King, req: PutKing, n: nat)
    requires n <= |req.tunnels| && KingSays(before, h, req, n) && SameKing(h, g)
    ensures KingSays(before, g, req, n)
  {
    hide NamedTwice;
    assert forall f :: SameEntry(f, h) == SameEntry(f, g);
    SameFirst(req, n, h, g);
  }

  lemma StepKings(before: seq<King>, st: State, th: Thread, env: Env, req: PutKing, times: set<int>)
    requires KingsReached(before, st.kings, req, th, times) && env.clock in times && FindsEntry(st.kings, th, env)
    ensures KingsReached(before, Step(st, th, env).After().kings, req, Step(st, th, env).next, times)
  {
    hide KingsDid, Commit, KingTunnelStep, FindFirst, DistinctKings;
    var p := Step(st, th, env);
    CommitRaises(p.edited);
    match th
    case KingReadyLoop(_, i) => NothingDone(before, req, env.clock);
    case KingTunnelLoop(_, now, i) =>
      DidAtMost(before, st.kings, req, now, i);
      TunnelNext(st, req, now, i);
      if i < |req.tunnels| {
        TunnelDid(before, st, req, now, i);
      }
    case KingBeatWrite(_, now, i) => BeatDid(before, st, req, now, i, env);
    case _ =>
  }

  lemma DidAtMost(before: seq<King>, kings: seq<King>, req: PutKing, now: int, n: nat)
    requires KingsDid(before, kings, req, now, n, None)
    ensures n <= |req.tunnels|
  {
  }

  lemma TunnelNext(st: State, req: PutKing, now: int, i: nat)
    ensures
      var p := KingTunnelStep(st, req, now, i);
      if |req.tunnels| <= i then p.next == Finished(Accepted) && p.After() == st
      else p.next == KingTunnelLoop(req, now, i + 1) || p.next == KingBeatWrite(req, now, i)
  {
    hide Commit, FindFirst;
  }

  lemma {:induction false} SegmentKings(
      before: seq<King>, st: State, th: Thread, env: Env, req: PutKing, times: set<int>)
    requires KingsReached(before, st.kings, req, th, times) && env.clock in times && FindsEntry(st.kings, th, env)
    ensures KingsReached(before, Segment(st, th, env).After().kings, req, Segment(st, th, env).next, times)
    decreases Fuel(th)
  {
    hide Step, Commit, KingsReached;
    var p := Step(st, th, env);
    StepKings(before, st, th, env, req, times);
    if !p.unlocked {
      QuietStep(st, th, env);
      SegmentKings(before, p.edited, p.next, env, req, times);
    }
  }

  /** Every heartbeat written late, in the course of the request, finds its entry. */
  ghost predicate LateFinds(sts: seq<State>, ths: seq<Thread>, envs: seq<Env>)
    requires |sts| == |ths| == |envs| + 1
  {
    forall i :: 0 <= i < |envs| ==> FindsEntry(sts[i].kings, ths[i], envs[i])
  }

  function Times(envs: seq<Env>): set<int> {
    set i | 0 <= i < |envs| :: envs[i].clock
  }

  lemma {:induction false} RequestKings(sts: seq<State>, ths: seq<Thread>, envs: seq<Env>, req: PutKing, n: nat)
    requires Uninterrupted(sts, ths, envs) && ths[0] == KingReadyLoop(req, 0) && n < |sts|
    requires DistinctKings(sts[0].kings) && LateFinds(sts, ths, envs)
    ensures KingsReached(sts[0].kings, sts[n].kings, req, ths[n], Times(envs))
  {
    hide Segment, KingsDid, DistinctKings, FindsEntry;
    if n > 0 {
      RequestKings(sts, ths, envs, req, n - 1);
      assert envs[n - 1].clock in Times(envs);
      SegmentKings(sts[0].kings, sts[n - 1], ths[n - 1], envs[n - 1], req, Times(envs));
    }
  }

  // ---------------------------------------------------------------- the reports

  /** How many of the reported IDs have been dealt with. */
  function Dealt(th: Thread, req: PutKing): nat {
    if th.KingReadyLoop? then th.i else |req.readyServiceIDs|
  }

  /** Readiness is kept, unless the service's king is shutting down by the end of the step. */
  lemma StepKeepsReady(st: State, th: Thread, env: Env, req: PutKing, a: nat)
    requires OfKing(th, req) && a < |st.services|
    ensures
      var r := Step(st, th, env).After();
      && a < |r.services|
      && (st.services[a].kingReady ==> r.services[a].kingReady || OnShuttingDown(r.kings, st.services[a]))
  {
    hide Commit, OnShuttingDown, FindFirst;
    var p := Step(st, th, env);
    assert |p.edited.services| == |st.services| && SamePlace(st.services[a], p.edited.services[a]);
    assert st.services[a].kingReady ==> p.edited.services[a].kingReady;
    CommitReady(p.edited, a);
    CommitRaises(p.edited);
    SamePlaceSameKings(p.edited.kings, st.services[a], p.edited.services[a]);
  }

  lemma {:induction false} SegmentKeepsReady(st: State, th: Thread, env: Env, req: PutKing, a: nat)
    requires OfKing(th, req) && a < |st.services|
    ensures
      var r := Segment(st, th, env).After();
      && a < |r.services|
      && (st.services[a].kingReady ==> r.services[a].kingReady || OnShuttingDown(r.kings, st.services[a]))
    decreases Fuel(th)
  {
    hide Step, Commit, OnShuttingDown;
    var p := Step(st, th, env);
    StepKeepsReady(st, th, env, req, a);
    if !p.unlocked {
      QuietStep(st, th, env);
      QuietNext(st, th, env, req);
      SegmentKeepsReady(p.edited, p.next, env, req, a);
    }
  }

  lemma QuietNext(st: State, th: Thread, env: Env, req: PutKing)
    requires OfKing(th, req) && !Step(st, th, env).unlocked
    ensures OfKing(Step(st, th, env).next, req) && !Step(st, th, env).next.Finished?
    ensures Step(st, th, env).After() == Step(st, th, env).edited
  {
    hide FindFirst;
  }

  /** The i-th report, once dealt with, has made its service king-ready, unless its king is shutting down. */
  lemma ReportDealt(st: State, req: PutKing, i: nat, env: Env, a: nat)
    requires i < |req.readyServiceIDs| && a < |st.services| && st.services[a].serviceID == req.readyServiceIDs[i]
    requires DistinctIDs(st.services)
    ensures
      var p := KingReadyStep(st, req, i, env);
      var r := p.After();
      && a < |r.services| && r.kings == st.kings && p.next == KingReadyLoop(req, i + 1)
      && (r.services[a].kingReady || OnShuttingDown(r.kings, st.services[a]))
      && (!p.unlocked ==> st.services[a].kingReady && r == st)
  {
    hide Commit, OnShuttingDown;
    KingReportTakesEffect(st, req, i, env, a);
    var id := req.readyServiceIDs[i];
    assert ByServiceID(id)(st.services[a]);
    var j := FindFirst(ByServiceID(id), st.services).value;
    CommitRaises(KingReadyStep(st, req, i, env).edited);
  }

  lemma {:induction false} SegmentDeals(st: State, th: Thread, env: Env, req: PutKing, a: nat, k: nat)
    requires th.KingReadyLoop? && th.king == req && th.i <= k < |req.readyServiceIDs| && a < |st.services|
    requires DistinctIDs(st.services) && st.services[a].serviceID == req.readyServiceIDs[k]
    requires ReportsRegistered(st, req) && k < Dealt(Segment(st, th, env).next, req)
    ensures
      var r := Segment(st, th, env).After();
      a < |r.services| && (r.services[a].kingReady || OnShuttingDown(r.kings, st.services[a]))
    decreases Fuel(th)
  {
    hide KingReadyStep, Commit, OnShuttingDown, DistinctIDs, HasID;
    var i := th.i;
    var p := KingReadyStep(st, req, i, env);
    ReadyNext(st, req, i, env);
    if i == k {
      ReportDealt(st, req, i, env, a);
      if !p.unlocked {
        SegmentKeepsReady(p.edited, p.next, env, req, a);
      }
    } else {
      SegmentDeals(p.edited, p.next, env, req, a, k);
    }
  }

  /** With registered reports, the loop goes on to the next one, and a report that is news gives up the mutex. */
  lemma ReadyNext(st: State, req: PutKing, i: nat, env: Env)
    requires i < |req.readyServiceIDs| && ReportsRegistered(st, req)
    ensures
      var p := KingReadyStep(st, req, i, env);
      p.next == KingReadyLoop(req, i + 1) && (!p.unlocked ==> p.edited == st && !p.commits)
  {
    assert HasID(st, req.readyServiceIDs[i]);
    var j :| 0 <= j < |st.services| && st.services[j].serviceID == req.readyServiceIDs[i];
    assert ByServiceID(req.readyServiceIDs[i])(st.services[j]);
  }

  /** In some state of the request the service was at the address of a king that is shutting down in the next. */
  predicate Evicted(sts: seq<State>, n: nat, a: nat)
    requires n < |sts|
  {
    exists m :: 0 <= m < n && LosesKing(sts[m], sts[m + 1], a)
  }

  predicate LosesKing(st: State, r: State, a: nat) {
    a < |st.services| && exists k :: k in r.kings && k.shuttingDown && OnKing(st.services[a], k)
  }

  lemma {:induction false} RequestReports(
      sts: seq<State>, ths: seq<Thread>, envs: seq<Env>, req: PutKing, n: nat, a: nat, k: nat)
    requires Uninterrupted(sts, ths, envs) && ths[0] == KingReadyLoop(req, 0) && n < |sts|
    requires ReportsRegistered(sts[0], req) && DistinctIDs(sts[0].services)
    requires a < |sts[0].services| && k < |req.readyServiceIDs|
    requires sts[0].services[a].serviceID == req.readyServiceIDs[k]
    requires k < Dealt(ths[n], req)
    ensures a < |sts[n].services| && (sts[n].services[a].kingReady || Evicted(sts, n, a))
  {
    hide Segment, ReportsRegistered, DistinctIDs;
    KingRequestAdvances(sts, ths, envs, req, n);
    if n > 0 {
      var m := n - 1;
      KingRequestAdvances(sts, ths, envs, req, m);
      SameIDsDistinct(sts[0], sts[m]);
      if k < Dealt(ths[m], req) {
        RequestReports(sts, ths, envs, req, m, a, k);
        SegmentKeepsReady(sts[m], ths[m], envs[m], req, a);
      } else {
        SegmentDeals(sts[m], ths[m], envs[m], req, a, k);
      }
      assert LosesKing(sts[m], sts[m + 1], a) ==> Evicted(sts, n, a);
    }
  }

  lemma SameIDsDistinct(a: State, b: State)
    requires SameIDs(a, b)
    ensures DistinctIDs(a.services) ==> DistinctIDs(b.services)
  {
  }

  // ---------------------------------------------------------------- the request

  /** A king request whose reports are registered, with enough turns and nothing in between, is accepted. Then each of
      its tunnels has exactly one king with its ports and host, which says what the request says, at the request's
      time; every other king is as it was; and every service it reports is king-ready, or has been at the address of
      a king that is shutting down. */
  lemma KingRequestTakesEffect(sts: seq<State>, ths: seq<Thread>, envs: seq<Env>, req: PutKing) returns (now: int)
    requires Uninterrupted(sts, ths, envs) && ths[0] == KingReadyLoop(req, 0) && LateFinds(sts, ths, envs)
    requires DistinctKings(sts[0].kings) && DistinctIDs(sts[0].services)
    requires ReportsRegistered(sts[0], req) && KingTurns(ths[0]) <= |envs|
    ensures Last(ths) == Finished(Accepted) && exists n :: 0 <= n < |envs| && envs[n].clock == now
    ensures
      var before, after := sts[0].kings, Last(sts).kings;
      && DistinctKings(after)
      && (forall i :: 0 <= i < |req.tunnels| ==> HasTunnel(after, req, i))
      && (forall k :: k in after && k.host == req.host && Named(req, |req.tunnels|, k.ports) ==>
           KingSays(before, k, req, |req.tunnels|) && k.beat == now)
      && (forall k: King :: !(k.host == req.host && Named(req, |req.tunnels|, k.ports)) ==>
           (k in after <==> k in before))
    ensures |Last(sts).services| == |sts[0].services|
    ensures forall a :: 0 <= a < |sts[0].services| && sts[0].services[a].serviceID in req.readyServiceIDs ==>
      Last(sts).services[a].kingReady || Evicted(sts, |envs|, a)
  {
    hide Segment, ReportsRegistered, DistinctIDs, KingsDid, LateFinds, Evicted;
    KingRequestAdvances(sts, ths, envs, req, |envs|);
    RequestKings(sts, ths, envs, req, |envs|);
    now :| now in Times(envs) && KingsDid(sts[0].kings, Last(sts).kings, req, now, |req.tunnels|, None);
    DidSays(sts[0].kings, Last(sts).kings, req, now);
    forall a | 0 <= a < |sts[0].services| && sts[0].services[a].serviceID in req.readyServiceIDs
      ensures Last(sts).services[a].kingReady || Evicted(sts, |envs|, a)
    {
      var k :| 0 <= k < |req.readyServiceIDs| && req.readyServiceIDs[k] == sts[0].services[a].serviceID;
      RequestReports(sts, ths, envs, req, |envs|, a, k);
    }
  }

  lemma DidSays(before: seq<King>, after: seq<King>, req: PutKing, now: int)
    requires KingsDid(before, after, req, now, |req.tunnels|, None)
    ensures DistinctKings(after) && forall i :: 0 <= i < |req.tunnels| ==> HasTunnel(after, req, i)
    ensures forall k :: k in after && k.host == req.host && Named(req, |req.tunnels|, k.ports) ==>
      KingSays(before, k, req, |req.tunnels|) && k.beat == now
    ensures forall k: King :: !(k.host == req.host && Named(req, |req.tunnels|, k.ports)) ==>
      (k in after <==> k in before)
  {
  }

  // ---------------------------------------------------------------- a heartbeat

  /** The council knows the tunnel's king just as the request describes it. */
  predicate Steady(kings: seq<King>, req: PutKing, i: nat)
    requires i < |req.tunnels|
  {
    var j := FindFirst(ByPortsAndHost(req.tunnels[i].ports, req.host), kings);
    j.Some? && kings[j.value].shuttingDown == req.shuttingDown && kings[j.value].certPEM == req.certPEM
  }

  lemma {:induction false} SameKingsFind(js: seq<King>, ks: seq<King>, ports: string, host: string)
    requires SameKings(js, ks)
    ensures FindFirst(ByPortsAndHost(ports, host), js) == FindFirst(ByPortsAndHost(ports, host), ks)
  {
    if js != [] {
      SameKingsFind(Front(js), Front(ks), ports, host);
      assert SameKing(Last(js), Last(ks));
    }
  }

  lemma SteadySame(js: seq<King>, ks: seq<King>, req: PutKing, i: nat)
    requires SameKings(js, ks) && i < |req.tunnels| && Steady(js, req, i)
    ensures Steady(ks, req, i)
  {
    SameKingsFind(js, ks, req.tunnels[i].ports, req.host);
    var j := FindFirst(ByPortsAndHost(req.tunnels[i].ports, req.host), js).value;
    assert SameKing(js[j], ks[j]);
  }

  lemma {:induction false} TunnelsQuiet(st: State, req: PutKing, now: int, i: nat, env: Env)
    requires forall m :: i <= m < |req.tunnels| ==> Steady(st.kings, req, m)
    ensures
      var p := Segment(st, KingTunnelLoop(req, now, i), env);
      p.next == Finished(Accepted) && SameButBeat(st, p.After())
    decreases |req.tunnels| - i
  {
    hide FindFirst;
    if i < |req.tunnels| {
      var p := KingTunnelStep(st, req, now, i);
      assert Steady(st.kings, req, i);
      forall m | i + 1 <= m < |req.tunnels| ensures Steady(p.edited.kings, req, m) {
        SteadySame(st.kings, p.edited.kings, req, m);
      }
      TunnelsQuiet(p.edited, req, now, i + 1, env);
    }
  }

  lemma {:induction false} ReportsQuiet(st: State, req: PutKing, i: nat, env: Env)
    requires forall k :: i <= k < |req.readyServiceIDs| ==> HasID(st, req.readyServiceIDs[k])
    requires forall s :: s in st.services && s.serviceID in req.readyServiceIDs ==> s.kingReady
    ensures Segment(st, KingReadyLoop(req, i), env) == Segment(st, KingTunnelLoop(req, env.clock, 0), env)
    decreases |req.readyServiceIDs| - i
  {
    hide KingTunnelStep, Commit;
    if i < |req.readyServiceIDs| {
      var id := req.readyServiceIDs[i];
      assert HasID(st, id);
      var k :| 0 <= k < |st.services| && st.services[k].serviceID == id;
      assert ByServiceID(id)(st.services[k]);
      var j := FindFirst(ByServiceID(id), st.services).value;
      assert ByServiceID(id)(st.services[j]) && st.services[j] in st.services;
      ReportsQuiet(st, req, i + 1, env);
    }
  }

  /** A king request that brings no news is accepted in one segment and changes heartbeats only. */
  lemma HeartbeatIsQuiet(st: State, req: PutKing, env: Env)
    requires ReportsRegistered(st, req)
    requires forall s :: s in st.services && s.serviceID in req.readyServiceIDs ==> s.kingReady
    requires forall i :: 0 <= i < |req.tunnels| ==> Steady(st.kings, req, i)
    ensures
      var p := Segment(st, KingReadyLoop(req, 0), env);
      p.next == Finished(Accepted) && SameButBeat(st, p.After())
  {
    hide Segment, Steady, HasID;
    ReportsQuiet(st, req, 0, env);
    TunnelsQuiet(st, req, env.clock, 0, env);
  }
}
