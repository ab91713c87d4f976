/** A whole ling request, from its first segment to its reply, when nothing comes in between. */
module Requests {
  import opened Basics
  import opened CouncilState
  import opened Placement
  import opened Handlers
  import opened Registry
  import opened Effects

  /** The handler has the council to itself. */
  ghost predicate Uninterrupted(sts: seq<State>, ths: seq<Thread>, envs: seq<Env>) {
    && |sts| == |ths| == |envs| + 1
    && forall i :: 0 <= i < |envs| ==>
         var p := Segment(sts[i], ths[i], envs[i]);
         sts[i + 1] == p.After() && ths[i + 1] == p.next
  }

  /** Before the request the tunnel has a service, or the request names it earlier. */
  predicate Known(st: State, req: PutLing, i: nat)
    requires i < |req.tunnels|
  {
    HasService(st, req.tunnels[i], req.lingID) || req.tunnels[i] in req.tunnels[..i]
  }

  /** The ling's services are those before the request and those of its first n tunnels, none of them known. */
  ghost predicate Did(before: State, st: State, req: PutLing, n: nat) {
    && n <= |req.tunnels|
    && (forall k :: 0 <= k < n ==> !Known(before, req, k))
    && forall name ::
         HasService(st, name, req.lingID) <==> HasService(before, name, req.lingID) || name in req.tunnels[..n]
  }

  /** Where the handler stands. */
  ghost predicate Reached(before: State, st: State, req: PutLing, th: Thread) {
    match th
    case LingReadyLoop(r, _) => r == req && Did(before, st, req, 0)
    case LingTunnelLoop(r, _, i) => r == req && Did(before, st, req, i)
    case LingServiceFind(r, _, i) => r == req && Did(before, st, req, i) && i < |req.tunnels|
    case Finished(Accepted) => exists n :: Stopped(before, st, req, n)
    case Finished(BadRequest(_)) => true
    case _ => false
  }

  /** It stopped at the n-th tunnel, which was known, or behind the last. */
  ghost predicate Stopped(before: State, st: State, req: PutLing, n: nat) {
    Did(before, st, req, n) && (n < |req.tunnels| ==> Known(before, req, n))
  }

  /** Names and lings of services stay what they are. */
  predicate SameNames(a: State, b: State) {
    && |a.services| == |b.services|
    && forall i :: 0 <= i < |a.services| ==>
         a.services[i].name == b.services[i].name && a.services[i].lingID == b.services[i].lingID
  }

  lemma SameNamesHave(a: State, b: State, name: string, lingID: string)
    requires SameNames(a, b)
    ensures HasService(a, name, lingID) == HasService(b, name, lingID)
  {
    if i :| 0 <= i < |a.services| && IsFor(a.services[i], name, lingID) {
      assert IsFor(b.services[i], name, lingID);
    }
    if i :| 0 <= i < |b.services| && IsFor(b.services[i], name, lingID) {
      assert IsFor(a.services[i], name, lingID);
    }
  }

  lemma SameNamesDid(before: State, a: State, b: State, req: PutLing, n: nat)
    requires SameNames(a, b) && Did(before, a, req, n)
    ensures Did(before, b, req, n)
  {
    hide HasService, SameNames, Known;
    forall name ensures HasService(b, name, req.lingID) == HasService(a, name, req.lingID) {
      SameNamesHave(a, b, name, req.lingID);
    }
  }

  /** Finding or appending the i-th tunnel's service. */
  lemma ServiceStepReaches(before: State, st: State, req: PutLing, now: int, i: nat, env: Env)
    requires i < |req.tunnels| && Did(before, st, req, i)
    ensures
      var p := LingServiceStep(st, req, now, i, env);
      Reached(before, p.After(), req, p.next)
  {
    hide Did, LingServiceStep, Known, SameServices;
    ServiceRegistered(st, req, now, i, env);
    var p := LingServiceStep(st, req, now, i, env);
    if HasService(st, req.tunnels[i], req.lingID) {
      KnownHere(before, st, req, i);
      assert Stopped(before, st, req, i);
    } else {
      DidOneMore(before, st, p.After(), req, i);
    }
  }

  lemma KnownHere(before: State, st: State, req: PutLing, i: nat)
    requires i < |req.tunnels| && Did(before, st, req, i)
    ensures HasService(st, req.tunnels[i], req.lingID) <==> Known(before, req, i)
  {
    hide HasService;
  }

  lemma DidOneMore(before: State, st: State, r: State, req: PutLing, i: nat)
    requires i < |req.tunnels| && Did(before, st, req, i) && !HasService(st, req.tunnels[i], req.lingID)
    requires |r.services| == |st.services| + 1 && SameServices(st.services, Front(r.services))
    requires Last(r.services).name == req.tunnels[i] && Last(r.services).lingID == req.lingID
    ensures Did(before, r, req, i + 1)
  {
    hide HasService;
    KnownHere(before, st, req, i);
    assert req.tunnels[..i + 1] == req.tunnels[..i] + [req.tunnels[i]];
    forall name
      ensures HasService(r, name, req.lingID) <==> HasService(st, name, req.lingID) || name == req.tunnels[i]
    {
      OneMoreHas(st, r, name, req.lingID);
    }
  }

  lemma OneMoreHas(st: State, r: State, name: string, lingID: string)
    requires |r.services| == |st.services| + 1 && SameServices(st.services, Front(r.services))
    ensures HasService(r, name, lingID) <==>
      HasService(st, name, lingID) || IsFor(Last(r.services), name, lingID)
  {
    assert forall i :: 0 <= i < |st.services| ==> SameService(st.services[i], r.services[i]);
    if i :| 0 <= i < |st.services| && IsFor(st.services[i], name, lingID) {
      assert IsFor(r.services[i], name, lingID);
    }
    if i :| 0 <= i < |r.services| && IsFor(r.services[i], name, lingID) {
      assert i == |st.services| || IsFor(st.services[i], name, lingID);
    }
  }

  lemma CommitNames(st: State)
    ensures SameNames(st, Commit(st))
  {
    hide Commit;
    CommitRaises(st);
    assert forall i :: 0 <= i < |st.services| ==> SameService(st.services[i], Commit(st).services[i]);
  }

  lemma TunnelStepReaches(before: State, st: State, req: PutLing, now: int, i: nat, env: Env)
    requires Did(before, st, req, i)
    ensures
      var p := LingTunnelStep(st, req, now, i, env);
      Reached(before, p.After(), req, p.next)
  {
    hide Did, LingServiceStep, Commit, Known;
    var p := LingTunnelStep(st, req, now, i, env);
    DidBound(before, st, req, i);
    if i == |req.tunnels| {
      assert Stopped(before, st, req, i);
    } else {
      match FindFirst(ByLingID(req.lingID), st.lings)
      case None =>
        var known := st.(lings := st.lings + [Ling(req.lingID, req.shuttingDown, now)]);
        SameNamesDid(before, st, known, req, i);
        ServiceStepReaches(before, known, req, now, i, env);
      case Some(j) =>
        var known := WithLing(st, j, st.lings[j].(beat := now));
        if known.lings[j].shuttingDown == req.shuttingDown {
          SameNamesDid(before, st, known, req, i);
          ServiceStepReaches(before, known, req, now, i, env);
        } else {
          SameNamesDid(before, st, p.edited, req, i);
          CommitNames(p.edited);
          SameNamesDid(before, p.edited, p.After(), req, i);
        }
    }
  }

  lemma DidBound(before: State, st: State, req: PutLing, i: nat)
    requires Did(before, st, req, i)
    ensures i <= |req.tunnels|
  {
  }

  lemma ReadyStepReaches(before: State, st: State, req: PutLing, i: nat, env: Env)
    requires Did(before, st, req, 0) && LingReadyStep(st, req, i, env).unlocked
    ensures
      var p := LingReadyStep(st, req, i, env);
      Reached(before, p.After(), req, p.next)
  {
    hide Did, Commit;
    var p := LingReadyStep(st, req, i, env);
    if p.commits {
      SameNamesDid(before, st, p.edited, req, 0);
      CommitNames(p.edited);
      SameNamesDid(before, p.edited, p.After(), req, 0);
    }
  }

  lemma FinishedStays(st: State, th: Thread, env: Env)
    requires th.Finished?
    ensures Segment(st, th, env).After() == st && Segment(st, th, env).next == th
  {
  }

  lemma SegmentReaches(before: State, st: State, req: PutLing, th: Thread, env: Env)
    requires Reached(before, st, req, th)
    ensures
      var p := Segment(st, th, env);
      Reached(before, p.After(), req, p.next)
  {
    hide Did, Segment, LingReadyStep, LingTunnelStep, LingServiceStep, Stopped;
    var mid, last := SegmentShape(st, th, env);
    if th.Finished? {
      FinishedStays(st, th, env);
    } else {
      match last
      case LingReadyLoop(r, i) =>
        SameNamesDid(before, st, mid, req, 0);
        ReadyStepReaches(before, mid, r, i, env);
      case LingTunnelLoop(r, now, i) =>
        SameNamesDid(before, st, mid, req, i);
        TunnelStepReaches(before, mid, r, now, i, env);
      case LingServiceFind(r, now, i) =>
        SameNamesDid(before, st, mid, req, i);
        ServiceStepReaches(before, mid, r, now, i, env);
      case _ =>
    }
  }

  lemma {:induction false} RequestReaches(sts: seq<State>, ths: seq<Thread>, envs: seq<Env>, req: PutLing, n: nat)
    requires Uninterrupted(sts, ths, envs) && ths[0] == LingReadyLoop(req, 0) && n < |sts|
    ensures Reached(sts[0], sts[n], req, ths[n])
  {
    hide Segment;
    if n > 0 {
      RequestReaches(sts, ths, envs, req, n - 1);
      SegmentReaches(sts[0], sts[n - 1], req, ths[n - 1], envs[n - 1]);
    }
  }

  /** No tunnel that is new comes after one that is known. */
  predicate NewOnesFirst(st: State, req: PutLing) {
    forall k, j :: 0 <= k < j < |req.tunnels| && Known(st, req, k) ==> Known(st, req, j)
  }

  lemma {:induction false} KnownAreCovered(before: State, st: State, req: PutLing, n: nat, j: nat)
    requires Stopped(before, st, req, n) && NewOnesFirst(before, req) && j < |req.tunnels|
    ensures HasService(st, req.tunnels[j], req.lingID)
  {
    hide HasService;
    if j < n {
      assert req.tunnels[j] in req.tunnels[..n];
    } else {
      assert Known(before, req, j);
      if req.tunnels[j] in req.tunnels[..j] {
        var i :| 0 <= i < j && req.tunnels[i] == req.tunnels[j];
        KnownAreCovered(before, st, req, n, i);
      }
    }
  }

  // ---------------------------------------------------------------- the reply

  /** A service with the ID is registered. */
  predicate HasID(st: State, id: string) {
    exists i :: 0 <= i < |st.services| && st.services[i].serviceID == id
  }

  /** Every service that the request reports ready is registered. */
  predicate ReportsKnown(st: State, req: PutLing) {
    forall k :: 0 <= k < |req.readyServiceIDs| ==> HasID(st, req.readyServiceIDs[k])
  }

  predicate OfLing(th: Thread, req: PutLing) {
    match th
    case LingReadyLoop(r, _) => r == req
    case LingTunnelLoop(r, _, _) => r == req
    case LingServiceFind(r, _, _) => r == req
    case Finished(reply) => reply == Accepted
    case _ => false
  }

  /** How many segments the handler can still take. */
  function Turns(th: Thread): nat {
    match th
    case LingReadyLoop(req, i) =>
      2 * |req.tunnels| + 2 + if i < |req.readyServiceIDs| then |req.readyServiceIDs| - i else 0
    case LingTunnelLoop(req, _, i) => 1 + if i < |req.tunnels| then 2 * (|req.tunnels| - i) else 0
    case LingServiceFind(req, _, i) => if i < |req.tunnels| then 2 * (|req.tunnels| - i) else 1
    case _ => 0
  }

  lemma StepIDs(st: State, th: Thread, env: Env, id: string)
    requires th.LingReadyLoop? || th.LingTunnelLoop? || th.LingServiceFind? || th.Finished?
    ensures HasID(st, id) ==> HasID(Step(st, th, env).edited, id)
  {
    hide FindFirst;
    var r := Step(st, th, env).edited;
    if i :| 0 <= i < |st.services| && st.services[i].serviceID == id {
      assert r.services[i].serviceID == id;
    }
  }

  lemma CommitIDs(st: State, id: string)
    ensures HasID(st, id) ==> HasID(Commit(st), id)
  {
    hide Commit;
    CommitRaises(st);
    if i :| 0 <= i < |st.services| && st.services[i].serviceID == id {
      assert SameService(st.services[i], Commit(st).services[i]);
    }
  }

  /** A step of a ling's handler whose reports are known moves on and is not refused. */
  lemma StepAdvances(st: State, th: Thread, env: Env, req: PutLing)
    requires OfLing(th, req) && !th.Finished? && ReportsKnown(st, req)
    ensures OfLing(Step(st, th, env).next, req) && Turns(Step(st, th, env).next) < Turns(th)
  {
    match th
    case LingReadyLoop(_, i) =>
      if i < |req.readyServiceIDs| {
        var id := req.readyServiceIDs[i];
        assert HasID(st, id);
        var k :| 0 <= k < |st.services| && st.services[k].serviceID == id;
        assert ByServiceID(id)(st.services[k]);
      }
    case _ => hide FindFirst;
  }

  lemma {:induction false} SegmentAdvances(st: State, th: Thread, env: Env, req: PutLing)
    requires OfLing(th, req) && !th.Finished? && ReportsKnown(st, req)
    ensures
      var p := Segment(st, th, env);
      OfLing(p.next, req) && Turns(p.next) < Turns(th) && ReportsKnown(p.After(), req)
    decreases Fuel(th)
  {
    hide Step, Commit, HasID;
    var p := Step(st, th, env);
    StepAdvances(st, th, env, req);
    forall k | 0 <= k < |req.readyServiceIDs| ensures HasID(p.edited, req.readyServiceIDs[k]) {
      StepIDs(st, th, env, req.readyServiceIDs[k]);
    }
    if p.unlocked {
      forall k | 0 <= k < |req.readyServiceIDs| ensures HasID(p.After(), req.readyServiceIDs[k]) {
        CommitIDs(p.edited, req.readyServiceIDs[k]);
      }
    } else {
      QuietStep(st, th, env);
      if p.next.Finished? {
        FinishedStays(p.edited, p.next, env);
      } else {
        SegmentAdvances(p.edited, p.next, env, req);
      }
    }
  }

  lemma {:induction false} RequestAdvances(sts: seq<State>, ths: seq<Thread>, envs: seq<Env>, req: PutLing, n: nat)
    requires Uninterrupted(sts, ths, envs) && ths[0] == LingReadyLoop(req, 0) && ReportsKnown(sts[0], req) && n < |sts|
    ensures OfLing(ths[n], req) && ReportsKnown(sts[n], req)
    ensures Turns(ths[n]) + n <= Turns(ths[0]) || ths[n].Finished?
  {
    hide Segment, ReportsKnown;
    if n > 0 {
      RequestAdvances(sts, ths, envs, req, n - 1);
      if ths[n - 1].Finished? {
        FinishedStays(sts[n - 1], ths[n - 1], envs[n - 1]);
      } else {
        SegmentAdvances(sts[n - 1], ths[n - 1], envs[n - 1], req);
      }
    }
  }

  /** A service with the ID is ling-ready. */
  predicate LingReady(st: State, id: string) {
    exists i :: 0 <= i < |st.services| && st.services[i].serviceID == id && st.services[i].lingReady
  }

  lemma StepKeepsLingReady(st: State, th: Thread, env: Env, req: PutLing, id: string)
    requires OfLing(th, req)
    ensures LingReady(st, id) ==> LingReady(Step(st, th, env).edited, id)
  {
    hide FindFirst;
    var r := Step(st, th, env).edited;
    if i :| 0 <= i < |st.services| && st.services[i].serviceID == id && st.services[i].lingReady {
      assert r.services[i].serviceID == id && r.services[i].lingReady;
    }
  }

  lemma CommitKeepsLingReady(st: State, id: string)
    ensures LingReady(st, id) ==> LingReady(Commit(st), id)
  {
    hide Commit;
    CommitRaises(st);
    if i :| 0 <= i < |st.services| && st.services[i].serviceID == id && st.services[i].lingReady {
      assert SameService(st.services[i], Commit(st).services[i]);
    }
  }

  /** How many of the reported IDs have been dealt with. */
  function LingDealt(th: Thread, req: PutLing): nat {
    if th.LingReadyLoop? then th.i else |req.readyServiceIDs|
  }

  /** The reports dealt with so far have made their services ling-ready. */
  predicate ReportsDone(st: State, th: Thread, req: PutLing) {
    forall k :: 0 <= k < |req.readyServiceIDs| && k < LingDealt(th, req) ==> LingReady(st, req.readyServiceIDs[k])
  }

  lemma StepDeals(st: State, th: Thread, env: Env, req: PutLing)
    requires OfLing(th, req) && ReportsKnown(st, req) && ReportsDone(st, th, req)
    ensures ReportsDone(Step(st, th, env).edited, Step(st, th, env).next, req)
  {
    hide LingTunnelStep, LingServiceStep, HasID, LingReady;
    var p := Step(st, th, env);
    forall k | 0 <= k < |req.readyServiceIDs| && k < LingDealt(p.next, req)
      ensures LingReady(p.edited, req.readyServiceIDs[k])
    {
      StepKeepsLingReady(st, th, env, req, req.readyServiceIDs[k]);
      if LingDealt(th, req) <= k {
        ReportIsNext(st, th, env, req, k);
      }
    }
  }

  lemma ReportIsNext(st: State, th: Thread, env: Env, req: PutLing, k: nat)
    requires OfLing(th, req) && ReportsKnown(st, req) && k < |req.readyServiceIDs|
    requires LingDealt(th, req) <= k < LingDealt(Step(st, th, env).next, req)
    ensures LingReady(Step(st, th, env).edited, req.readyServiceIDs[k])
  {
    var p, id := Step(st, th, env), req.readyServiceIDs[th.i];
    assert HasID(st, id);
    var a :| 0 <= a < |st.services| && st.services[a].serviceID == id;
    assert ByServiceID(id)(st.services[a]);
    var j := FindFirst(ByServiceID(id), st.services).value;
    assert p.edited.services[j].serviceID == id && p.edited.services[j].lingReady;
  }

  lemma {:induction false} SegmentDone(st: State, th: Thread, env: Env, req: PutLing)
    requires OfLing(th, req) && ReportsKnown(st, req) && ReportsDone(st, th, req)
    ensures ReportsDone(Segment(st, th, env).After(), Segment(st, th, env).next, req)
    decreases Fuel(th)
  {
    hide Step, Commit, HasID, LingReady;
    var p := Step(st, th, env);
    StepDeals(st, th, env, req);
    if p.unlocked {
      forall k | 0 <= k < |req.readyServiceIDs| && k < LingDealt(p.next, req)
        ensures LingReady(p.After(), req.readyServiceIDs[k])
      {
        CommitKeepsLingReady(p.edited, req.readyServiceIDs[k]);
      }
    } else {
      QuietStep(st, th, env);
      StepAdvances(st, th, env, req);
      forall k | 0 <= k < |req.readyServiceIDs| ensures HasID(p.edited, req.readyServiceIDs[k]) {
        StepIDs(st, th, env, req.readyServiceIDs[k]);
      }
      SegmentDone(p.edited, p.next, env, req);
    }
  }

  lemma {:induction false} RequestDone(sts: seq<State>, ths: seq<Thread>, envs: seq<Env>, req: PutLing, n: nat)
    requires Uninterrupted(sts, ths, envs) && ths[0] == LingReadyLoop(req, 0) && ReportsKnown(sts[0], req) && n < |sts|
    ensures ReportsDone(sts[n], ths[n], req)
  {
    hide Segment, ReportsKnown;
    if n > 0 {
      RequestDone(sts, ths, envs, req, n - 1);
      RequestAdvances(sts, ths, envs, req, n - 1);
      SegmentDone(sts[n - 1], ths[n - 1], envs[n - 1], req);
    }
  }

  /** A request whose reports are known, with enough turns and nothing in between, is accepted; every service it
      reports is then ling-ready; and it leaves every one of its tunnels with a service if and only if none of them was
      new behind one that already had a service, or that the request repeats: the handler stops at the first such
      tunnel. */
  lemma EveryTunnelServedIff(sts: seq<State>, ths: seq<Thread>, envs: seq<Env>, req: PutLing)
    requires Uninterrupted(sts, ths, envs) && ths[0] == LingReadyLoop(req, 0)
    requires ReportsKnown(sts[0], req) && Turns(ths[0]) <= |envs|
    ensures Last(ths) == Finished(Accepted)
    ensures forall k :: 0 <= k < |req.readyServiceIDs| ==> LingReady(Last(sts), req.readyServiceIDs[k])
    ensures
      (forall j :: 0 <= j < |req.tunnels| ==> HasService(Last(sts), req.tunnels[j], req.lingID)) <==>
        NewOnesFirst(sts[0], req)
  {
    hide HasService, Segment, ReportsKnown;
    RequestAdvances(sts, ths, envs, req, |envs|);
    RequestReaches(sts, ths, envs, req, |envs|);
    RequestDone(sts, ths, envs, req, |envs|);
    var before, after := sts[0], Last(sts);
    var n: nat :| Stopped(before, after, req, n);
    if NewOnesFirst(before, req) {
      forall j | 0 <= j < |req.tunnels| ensures HasService(after, req.tunnels[j], req.lingID) {
        KnownAreCovered(before, after, req, n, j);
      }
    }
    if forall j :: 0 <= j < |req.tunnels| ==> HasService(after, req.tunnels[j], req.lingID) {
      forall k, j | 0 <= k < j < |req.tunnels| && Known(before, req, k) ensures Known(before, req, j) {
        assert n <= k;
        assert HasService(after, req.tunnels[j], req.lingID);
        if req.tunnels[j] in req.tunnels[..n] {
          var i :| 0 <= i < n && req.tunnels[i] == req.tunnels[j];
          assert req.tunnels[..j][i] == req.tunnels[j];
        }
      }
    }
  }

  /** A ling request that brings no news is accepted in one segment and changes heartbeats only. */
  lemma LingHeartbeatIsQuiet(st: State, req: PutLing, env: Env)
    requires NothingNew(st, req.readyServiceIDs, 0) && req.tunnels != [] && HasService(st, req.tunnels[0], req.lingID)
    requires
      var j := FindFirst(ByLingID(req.lingID), st.lings);
      j.Some? && st.lings[j.value].shuttingDown == req.shuttingDown
    ensures
      var p := Segment(st, LingReadyLoop(req, 0), env);
      p.next == Finished(Accepted) && SameButBeat(st, p.After())
  {
    hide Segment, NothingNew, Commit;
    ReadyLoopPasses(st, req, 0, env);
    assert HasService(st, req.tunnels[0], req.lingID);
  }
}
