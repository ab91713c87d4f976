/** Lings, services and the revision under the cleaner: when every service keeps its ling, equal
    revisions mean equal states; requests shorter than half the staleness window guarantee it. */
module Freshness {
  import opened Basics
  import opened CouncilState
  import opened Placement
  import opened Cleaner
  import opened Handlers
  import opened Registry
  import opened Runs

  // ---------------------------------------------------------------- lings across a segment

  /** ensureLingExists, as far as the lings go. */
  function TouchLing(lings: seq<Ling>, req: PutLing, now: int): seq<Ling> {
    match FindFirst(ByLingID(req.lingID), lings)
    case None => lings + [Ling(req.lingID, req.shuttingDown, now)]
    case Some(j) => lings[j := Ling(req.lingID, req.shuttingDown, now)]
  }

  predicate Touches(th: Thread) {
    th.LingTunnelLoop? && th.i < |th.ling.tunnels|
  }

  /** The same services, and at most one more, of the given ling. */
  predicate ServicesOf(before: seq<Service>, after: seq<Service>, lingID: string) {
    && |before| <= |after| <= |before| + 1
    && (forall i :: 0 <= i < |before| ==> after[i].lingID == before[i].lingID)
    && (|before| < |after| ==> after[|before|].lingID == lingID)
  }

  function LingOf(th: Thread): string {
    match th
    case LingReadyLoop(req, _) => req.lingID
    case LingTunnelLoop(req, _, _) => req.lingID
    case LingServiceFind(req, _, _) => req.lingID
    case _ => ""
  }

  lemma LingServiceServices(st: State, req: PutLing, now: int, i: nat, env: Env)
    ensures
      var p := LingServiceStep(st, req, now, i, env);
      && p.edited.lings == st.lings && ServicesOf(st.services, p.edited.services, req.lingID)
      && !p.next.LingServiceFind? && (p.next.LingTunnelLoop? ==> p.next.now == now)
  {
    hide FindFirst;
  }

  lemma LingTunnelServices(st: State, req: PutLing, now: int, i: nat, env: Env)
    ensures
      var p := LingTunnelStep(st, req, now, i, env);
      && p.edited.lings == (if i < |req.tunnels| then TouchLing(st.lings, req, now) else st.lings)
      && ServicesOf(st.services, p.edited.services, req.lingID)
      && (|st.services| < |p.edited.services| ==> i < |req.tunnels|)
      && (p.next.LingServiceFind? ==> i < |req.tunnels| && p.next.ling == req && p.next.now == now)
      && (p.next.LingTunnelLoop? ==> p.next.now == now)
  {
    hide LingServiceStep;
    match FindFirst(ByLingID(req.lingID), st.lings)
    case None =>
      LingServiceServices(st.(lings := st.lings + [Ling(req.lingID, req.shuttingDown, now)]), req, now, i, env);
    case Some(j) =>
      assert ByLingID(req.lingID)(st.lings[j]);
      LingServiceServices(WithLing(st, j, st.lings[j].(beat := now)), req, now, i, env);
  }

  lemma StepLings(st: State, th: Thread, env: Env)
    ensures
      var p := Step(st, th, env);
      && p.edited.lings == (if Touches(th) then TouchLing(st.lings, th.ling, th.now) else st.lings)
      && (|st.services| < |p.edited.services| ==> Touches(th) || th.LingServiceFind?)
      && ServicesOf(st.services, p.edited.services, LingOf(th))
      && (p.next.LingServiceFind? ==> Touches(th) && p.next.ling == th.ling && p.next.now == th.now)
      && (p.unlocked && p.next.LingTunnelLoop? ==> (th.LingTunnelLoop? || th.LingServiceFind?) && p.next.now == th.now)
  {
    hide FindFirst, LingTunnelStep, LingServiceStep, TouchLing;
    match th
    case LingTunnelLoop(req, now, i) => LingTunnelServices(st, req, now, i, env);
    case LingServiceFind(req, now, i) => LingServiceServices(st, req, now, i, env);
    case _ =>
  }

  /** What a segment does to lings and to the lings of services; last is the step that ends it. */
  lemma SegmentLings(st: State, th: Thread, env: Env) returns (last: Thread)
    ensures Within(th, last, env)
    ensures
      var p := Segment(st, th, env);
      var r := p.After();
      && r.lings == (if Touches(last) then TouchLing(st.lings, last.ling, last.now) else st.lings)
      && (|st.services| < |r.services| ==> Touches(last) || last.LingServiceFind?)
      && ServicesOf(st.services, r.services, LingOf(last))
      && (p.next.LingServiceFind? ==> Touches(last) && p.next.ling == last.ling && p.next.now == last.now)
      && (p.next.LingTunnelLoop? ==> (last.LingTunnelLoop? || last.LingServiceFind?) && p.next.now == last.now)
  {
    hide Step, Commit, TouchLing, Within;
    var mid;
    mid, last := SegmentShape(st, th, env);
    var p := Step(mid, last, env);
    StepLings(mid, last, env);
    if p.commits {
      CommitRaises(p.edited);
    }
  }

  lemma TouchFinds(lings: seq<Ling>, req: PutLing, now: int)
    ensures HasLing(TouchLing(lings, req, now), req.lingID)
    ensures forall id :: HasLing(lings, id) ==> HasLing(TouchLing(lings, req, now), id)
    ensures forall l :: l in TouchLing(lings, req, now) ==> l in lings || (l.lingID == req.lingID && l.beat == now)
    ensures DistinctLings(lings) ==>
      forall l :: l in TouchLing(lings, req, now) && l.lingID == req.lingID ==> l.beat == now
  {
    var found := FindFirst(ByLingID(req.lingID), lings);
    var after := TouchLing(lings, req, now);
    match found
    case None =>
      assert after[|lings|] in after;
      forall i | 0 <= i < |lings| ensures lings[i].lingID != req.lingID {
        assert !ByLingID(req.lingID)(lings[i]);
      }
    case Some(j) =>
      assert ByLingID(req.lingID)(lings[j]) && after[j] in after;
      forall id | HasLing(lings, id) ensures HasLing(after, id) {
        var l :| l in lings && l.lingID == id;
        var a :| 0 <= a < |lings| && lings[a] == l;
        assert after[a] in after;
      }
  }

  // ---------------------------------------------------------------- ling integrity

  /** A handler parked between its two broadcasts still has its ling. */
  predicate ParkedLingsKnown(s: Sys) {
    forall t :: 0 <= t < |s.threads| && s.threads[t].LingServiceFind? ==>
      HasLing(s.council.lings, s.threads[t].ling.lingID)
  }

  /** The cleaner, run now, would not drop the ling of a handler that is about to append a service for it. */
  predicate CleanIsFresh(s: Sys) {
    forall t :: 0 <= t < |s.threads| && s.threads[t].LingServiceFind? ==>
      forall l :: l in s.council.lings && l.lingID == s.threads[t].ling.lingID ==>
        s.clock - STALE_THRESHOLD_MILLIS < l.beat
  }

  ghost predicate FreshRun(ss: seq<Sys>, ls: seq<Label>) {
    IsRun(ss, ls) && forall i :: 0 <= i < |ls| && ls[i].Clean? ==> CleanIsFresh(ss[i])
  }

  /** The handler goes on to append a service for a ling that is not there. */
  predicate AppendsOrphan(st: State, th: Thread) {
    && th.LingServiceFind? && th.i < |th.ling.tunnels| && !HasLing(st.lings, th.ling.lingID)
    && FindFirst(ByNameAndLing(th.ling.tunnels[th.i], th.ling.lingID), st.services).None?
  }

  /** A segment forgets no ling, and it leaves every service with its ling unless it appends an orphan. */
  lemma SegmentKeepsLings(st: State, th: Thread, env: Env)
    ensures
      var p := Segment(st, th, env);
      && (forall id :: HasLing(st.lings, id) ==> HasLing(p.After().lings, id))
      && (p.next.LingServiceFind? ==> HasLing(p.After().lings, p.next.ling.lingID))
      && (LingIntegrity(st) ==> (LingIntegrity(p.After()) <==> !AppendsOrphan(st, th)))
  {
    hide Segment, TouchLing;
    var last := SegmentLings(st, th, env);
    if Touches(last) {
      TouchFinds(st.lings, last.ling, last.now);
    }
    if th.LingServiceFind? {
      ParkedAppends(st, th, env);
    }
  }

  /** A parked handler appends its service exactly when it finds none. */
  lemma ParkedAppends(st: State, th: Thread, env: Env)
    requires th.LingServiceFind?
    ensures
      var r := Segment(st, th, env).After();
      && r.lings == st.lings
      && (|st.services| < |r.services| <==>
           && th.i < |th.ling.tunnels|
           && FindFirst(ByNameAndLing(th.ling.tunnels[th.i], th.ling.lingID), st.services).None?)
      && (|st.services| < |r.services| ==> Last(r.services).lingID == th.ling.lingID)
  {
    hide Commit, FindFirst;
    var p := LingServiceStep(st, th.ling, th.now, th.i, env);
    assert Segment(st, th, env) == p;
    if p.commits {
      CommitRaises(p.edited);
      assert SameService(Last(p.edited.services), Last(p.After().services));
    }
  }

  lemma CleanKeepsParked(s: Sys)
    requires ParkedLingsKnown(s) && CleanIsFresh(s)
    ensures ParkedLingsKnown(Next(s, Clean))
  {
    var threshold := s.clock - STALE_THRESHOLD_MILLIS;
    forall t | 0 <= t < |s.threads| && s.threads[t].LingServiceFind?
      ensures HasLing(Next(s, Clean).council.lings, s.threads[t].ling.lingID)
    {
      var l :| l in s.council.lings && l.lingID == s.threads[t].ling.lingID;
      FilterMember(FreshLing(threshold), s.council.lings, l);
    }
  }

  predicate OrphanStep(s: Sys, l: Label) {
    l.Run? && l.t < |s.threads| && AppendsOrphan(s.council, s.threads[l.t])
  }

  lemma NextKeepsLings(s: Sys, l: Label)
    requires Enabled(s, l) && LingIntegrity(s.council)
    ensures LingIntegrity(Next(s, l).council) <==> !OrphanStep(s, l)
  {
    hide Segment, LingIntegrity, CleanPass, AppendsOrphan;
    match l
    case Run(t, env) => SegmentKeepsLings(s.council, s.threads[t], env);
    case Clean => CleanRestores(s.council, s.clock - STALE_THRESHOLD_MILLIS);
    case _ =>
  }

  lemma {:induction false} NoOrphansSoFar(ss: seq<Sys>, ls: seq<Label>, n: nat)
    requires IsRun(ss, ls) && n < |ss| && forall i :: 0 <= i < n ==> !OrphanStep(ss[i], ls[i])
    ensures LingIntegrity(ss[n].council)
  {
    hide OrphanStep, Next, Enabled;
    if n > 0 {
      NoOrphansSoFar(ss, ls, n - 1);
      NextKeepsLings(ss[n - 1], ls[n - 1]);
    }
  }

  /** In any run, every service has its ling in every state, if and only if no parked handler, finding neither its
      ling nor its service, goes on to append the service. */
  lemma LingIntegrityIff(ss: seq<Sys>, ls: seq<Label>)
    requires IsRun(ss, ls)
    ensures (forall n :: 0 <= n < |ss| ==> LingIntegrity(ss[n].council)) <==>
      forall i :: 0 <= i < |ls| ==> !OrphanStep(ss[i], ls[i])
  {
    hide LingIntegrity, OrphanStep, Next, Enabled;
    if forall i :: 0 <= i < |ls| ==> !OrphanStep(ss[i], ls[i]) {
      forall n | 0 <= n < |ss| ensures LingIntegrity(ss[n].council) {
        NoOrphansSoFar(ss, ls, n);
      }
    }
    if forall n :: 0 <= n < |ss| ==> LingIntegrity(ss[n].council) {
      forall i | 0 <= i < |ls| ensures !OrphanStep(ss[i], ls[i]) {
        assert LingIntegrity(ss[i].council) && LingIntegrity(ss[i + 1].council);
        NextKeepsLings(ss[i], ls[i]);
      }
    }
  }

  lemma {:induction false} ParkedEverywhere(ss: seq<Sys>, ls: seq<Label>, n: nat)
    requires FreshRun(ss, ls) && n < |ss|
    ensures ParkedLingsKnown(ss[n])
  {
    hide Segment, CleanPass, CleanIsFresh, LingIntegrity, AppendsOrphan;
    if n > 0 {
      ParkedEverywhere(ss, ls, n - 1);
      match ls[n - 1]
      case Run(t, env) => SegmentKeepsLings(ss[n - 1].council, ss[n - 1].threads[t], env);
      case Clean => CleanKeepsParked(ss[n - 1]);
      case _ =>
    }
  }

  /** With fresh passes that never happens: every service has its ling, and so has every parked handler. */
  lemma LingIntegrityEverywhere(ss: seq<Sys>, ls: seq<Label>, n: nat)
    requires FreshRun(ss, ls) && n < |ss|
    ensures LingIntegrity(ss[n].council) && ParkedLingsKnown(ss[n])
  {
    hide Next, Enabled, LingIntegrity, CleanIsFresh;
    forall i | 0 <= i < |ls| ensures !OrphanStep(ss[i], ls[i]) {
      ParkedEverywhere(ss, ls, i);
    }
    LingIntegrityIff(ss, ls);
    ParkedEverywhere(ss, ls, n);
  }

  // ---------------------------------------------------------------- the revision

  lemma NotLost(st: State, req: PutLing, i: nat)
    requires LingIntegrity(st)
    ensures !LostLing(st, req, i)
  {
    if i < |req.tunnels| {
      match FindFirst(ByNameAndLing(req.tunnels[i], req.lingID), st.services)
      case None =>
      case Some(j) =>
        assert ByNameAndLing(req.tunnels[i], req.lingID)(st.services[j]);
        var l :| l in st.lings && l.lingID == req.lingID;
        var a :| 0 <= a < |st.lings| && st.lings[a] == l;
        assert ByLingID(req.lingID)(st.lings[a]);
    }
  }

  lemma NeverLost(st: State, th: Thread)
    requires LingIntegrity(st)
    ensures !MeetsLostLing(st, th)
  {
    hide LostLing;
    match th
    case LingTunnelLoop(req, _, i) => NotLost(st, req, i);
    case LingReadyLoop(req, _) => NotLost(st, req, 0);
    case _ =>
  }

  /** The step of a handler that meets a lost ling. */
  predicate LosesCount(s: Sys, l: Label) {
    l.Run? && l.t < |s.threads| && MeetsLostLing(s.council, s.threads[l.t])
  }

  lemma NextCounts(s: Sys, l: Label)
    requires Enabled(s, l)
    ensures
      var r := Next(s, l).council;
      if LosesCount(s, l) then r.revision == s.council.revision && !SameButBeat(s.council, r)
      else s.council.revision < r.revision || SameButBeat(s.council, r)
  {
    hide Segment, CleanPass, MeetsLostLing;
    SameRefl(s.council);
    match l
    case Run(t, env) => SegmentCounts(s.council, s.threads[t], env);
    case Clean => CleanRevision(s.council, s.clock - STALE_THRESHOLD_MILLIS);
    case _ =>
  }

  lemma SameRefl(st: State)
    ensures SameButBeat(st, st)
  {
  }

  /** In every run, whatever the cleaner does, the revision never falls. */
  lemma {:induction false} RevisionNeverFalls(ss: seq<Sys>, ls: seq<Label>, i: nat, j: nat)
    requires IsRun(ss, ls) && i <= j < |ss|
    ensures ss[i].council.revision <= ss[j].council.revision
  {
    hide Next, Enabled, LosesCount;
    if i < j {
      RevisionNeverFalls(ss, ls, i, j - 1);
      NextCounts(ss[j - 1], ls[j - 1]);
    }
  }

  /** Every change is counted: no step meets a lost ling. */
  ghost predicate CountedRun(ss: seq<Sys>, ls: seq<Label>) {
    IsRun(ss, ls) && forall i :: 0 <= i < |ls| ==> !LosesCount(ss[i], ls[i])
  }

  /** Where every change is counted, two states with equal revisions differ in heartbeats only. */
  lemma {:induction false} EqualRevisions(ss: seq<Sys>, ls: seq<Label>, i: nat, j: nat)
    requires CountedRun(ss, ls) && i <= j < |ss| && ss[i].council.revision == ss[j].council.revision
    ensures SameButBeat(ss[i].council, ss[j].council)
  {
    hide Next, Enabled, LosesCount;
    if i == j {
      SameRefl(ss[i].council);
    } else {
      RevisionNeverFalls(ss, ls, i, j - 1);
      NextCounts(ss[j - 1], ls[j - 1]);
      EqualRevisions(ss, ls, i, j - 1);
      SameTransitive(ss[i].council, ss[j - 1].council, ss[j].council);
    }
  }

  ghost predicate Faithful(ss: seq<Sys>) {
    forall i, j :: 0 <= i <= j < |ss| && ss[i].council.revision == ss[j].council.revision ==>
      SameButBeat(ss[i].council, ss[j].council)
  }

  /** In any run, equal revisions mean equal states, heartbeats aside, if and only if no handler meets a ling
      that was dropped while its service was not. */
  lemma RevisionFaithful(ss: seq<Sys>, ls: seq<Label>)
    requires IsRun(ss, ls)
    ensures Faithful(ss) <==> CountedRun(ss, ls)
  {
    hide Next, Enabled, LosesCount, SameButBeat;
    if CountedRun(ss, ls) {
      forall i, j | 0 <= i <= j < |ss| && ss[i].council.revision == ss[j].council.revision
        ensures SameButBeat(ss[i].council, ss[j].council)
      {
        EqualRevisions(ss, ls, i, j);
      }
    } else {
      var k :| 0 <= k < |ls| && LosesCount(ss[k], ls[k]);
      NextCounts(ss[k], ls[k]);
      assert ss[k].council.revision == ss[k + 1].council.revision;
    }
  }

  /** With fresh passes every change is counted. */
  lemma FreshRunsCount(ss: seq<Sys>, ls: seq<Label>)
    requires FreshRun(ss, ls)
    ensures CountedRun(ss, ls)
  {
    hide Next, LingIntegrity, MeetsLostLing;
    forall i | 0 <= i < |ls| && ls[i].Run? ensures !LosesCount(ss[i], ls[i]) {
      LingIntegrityEverywhere(ss, ls, i);
      NeverLost(ss[i].council, ss[i].threads[ls[i].t]);
    }
  }

  lemma SameTransitive(a: State, b: State, c: State)
    ensures SameButBeat(a, b) && SameButBeat(b, c) ==> SameButBeat(a, c)
  {
  }

  // ---------------------------------------------------------------- when passes are fresh

  const PROMPT_MILLIS := STALE_THRESHOLD_MILLIS / 2

  predicate InTunnels(th: Thread) {
    th.LingTunnelLoop? || th.LingServiceFind?
  }

  /** Every ling request in flight took its time less than half the staleness window ago. */
  predicate Prompt(s: Sys) {
    forall t :: 0 <= t < |s.threads| && InTunnels(s.threads[t]) ==> s.clock < s.threads[t].now + PROMPT_MILLIS
  }

  ghost predicate PromptRun(ss: seq<Sys>, ls: seq<Label>) {
    && IsRun(ss, ls)
    && (forall i :: 0 <= i < |ss| ==> Prompt(ss[i]))
    && forall i :: 0 <= i < |ls| && ls[i].Tick? ==> ss[i].clock <= ls[i].now
  }

  /** The heartbeat of a parked handler's ling may be older than the handler's own time, since an earlier
      request can write it later, but by less than half the window. */
  predicate BeatsRecent(lings: seq<Ling>, th: Thread) {
    th.LingServiceFind? ==> forall l :: l in lings && l.lingID == th.ling.lingID ==> th.now - PROMPT_MILLIS < l.beat
  }

  predicate Recent(s: Sys) {
    forall t :: 0 <= t < |s.threads| ==>
      BeatsRecent(s.council.lings, s.threads[t]) && (InTunnels(s.threads[t]) ==> s.threads[t].now <= s.clock)
  }

  lemma SegmentKeepsRecent(s: Sys, t: nat, env: Env)
    requires Enabled(s, Run(t, env)) && Recent(s) && Prompt(s) && DistinctLings(s.council.lings)
    ensures Recent(Next(s, Run(t, env)))
  {
    hide Segment, TouchLing, DistinctLings;
    var th := s.threads[t];
    var last := SegmentLings(s.council, th, env);
    var p := Segment(s.council, th, env);
    if Touches(last) {
      TouchFinds(s.council.lings, last.ling, last.now);
    }
    forall u | 0 <= u < |s.threads| && u != t ensures BeatsRecent(p.After().lings, s.threads[u]) {
      assert BeatsRecent(s.council.lings, s.threads[u]);
    }
  }

  lemma CleanKeepsRecent(s: Sys)
    requires Recent(s)
    ensures Recent(Next(s, Clean))
  {
    var threshold := s.clock - STALE_THRESHOLD_MILLIS;
    forall t | 0 <= t < |s.threads| ensures BeatsRecent(Next(s, Clean).council.lings, s.threads[t]) {
      forall l | l in Next(s, Clean).council.lings ensures l in s.council.lings {
        FilterMember(FreshLing(threshold), s.council.lings, l);
      }
      assert BeatsRecent(s.council.lings, s.threads[t]);
    }
  }

  lemma {:induction false} RecentEverywhere(ss: seq<Sys>, ls: seq<Label>, n: nat)
    requires PromptRun(ss, ls) && n < |ss|
    ensures Recent(ss[n])
  {
    hide Segment, CleanPass;
    if n > 0 {
      RecentEverywhere(ss, ls, n - 1);
      PortExclusivity(ss, ls, n - 1);
      match ls[n - 1]
      case Run(t, env) => SegmentKeepsRecent(ss[n - 1], t, env);
      case Clean => CleanKeepsRecent(ss[n - 1]);
      case _ =>
    }
  }

  /** With a clock that does not run backwards and requests that finish within half the staleness window,
      every cleaner pass is fresh, so ling integrity and revision faithfulness hold. */
  lemma PromptRunsAreFresh(ss: seq<Sys>, ls: seq<Label>)
    requires PromptRun(ss, ls)
    ensures FreshRun(ss, ls)
  {
    forall i | 0 <= i < |ls| && ls[i].Clean? ensures CleanIsFresh(ss[i]) {
      RecentEverywhere(ss, ls, i);
      assert Prompt(ss[i]);
    }
  }
}
