/** The PUT /king and PUT /ling handlers as threads. A handler holds the state mutex except while it
    broadcasts; Segment is what it does between taking the mutex and giving it up. */
module Handlers {
  import opened Basics
  import opened CouncilState
  import opened Provisioner

  datatype KingTunnel = KingTunnel(bindPort: int, ports: string)

  datatype PutKing = PutKing(
    host: string, shuttingDown: bool, tunnels: seq<KingTunnel>, readyServiceIDs: seq<string>, location: string,
    certPEM: string)

  datatype PutLing = PutLing(
    lingID: string, shuttingDown: bool, tunnels: seq<string>, readyServiceIDs: seq<string>, preferredLocation: string)

  datatype Reply = Accepted | BadRequest(reason: string)

  /** Where a handler will go on once it holds the mutex. */
  datatype Thread =
    | KingReadyLoop(king: PutKing, i: nat)
    | KingTunnelLoop(king: PutKing, now: int, i: nat)
    | KingBeatWrite(king: PutKing, now: int, i: nat)
    | LingReadyLoop(ling: PutLing, i: nat)
    | LingTunnelLoop(ling: PutLing, now: int, i: nat)
    | LingServiceFind(ling: PutLing, now: int, i: nat)
    | Finished(reply: Reply)

  /** What a segment draws from outside: the time, a fresh service ID and token, and which king entry,
      if any, the pointer kept across the broadcast still reaches. */
  datatype Env = Env(clock: int, newID: string, token: string, late: Option<nat>)

  /** Every recorded change is counted first and then provisioned. */
  function Commit(st: State): State {
    Provision(st.(revision := st.revision + 1))
  }

  /** A step edits the state and, when the edit is a recorded change, commits it. */
  datatype Progress = Progress(edited: State, commits: bool, next: Thread, unlocked: bool) {
    function After(): State {
      if commits then Commit(edited) else edited
    }
  }

  function StartKing(req: PutKing): Thread {
    if req.host == "" then Finished(BadRequest("host field cannot be null or undefined"))
    else if req.location == "" then Finished(BadRequest("location field cannot be null or undefined"))
    else KingReadyLoop(req, 0)
  }

  function StartLing(req: PutLing): Thread {
    if req.lingID == "" then Finished(BadRequest("ling_id field cannot be null or undefined"))
    else if req.preferredLocation == "" then
      Finished(BadRequest("preferred_location field cannot be null or undefined"))
    else LingReadyLoop(req, 0)
  }

  function WithKing(st: State, j: nat, k: King): State
    requires j < |st.kings|
  {
    st.(kings := st.kings[j := k])
  }

  function WithLing(st: State, j: nat, l: Ling): State
    requires j < |st.lings|
  {
    st.(lings := st.lings[j := l])
  }

  function WithService(st: State, j: nat, s: Service): State
    requires j < |st.services|
  {
    st.(services := st.services[j := s])
  }

  function NewKing(req: PutKing, tunnel: KingTunnel, now: int): King {
    King(tunnel.bindPort, req.host, tunnel.ports, false, now, req.location, req.certPEM)
  }

  function NewService(req: PutLing, name: string, env: Env): Service {
    Service(name, env.token, env.newID, req.lingID, req.preferredLocation, false, false, None, None, None)
  }

  /** One iteration of processKingReadyServices. */
  function KingReadyStep(st: State, req: PutKing, i: nat, env: Env): Progress {
    if |req.readyServiceIDs| <= i then Progress(st, false, KingTunnelLoop(req, env.clock, 0), false)
    else match FindFirst(ByServiceID(req.readyServiceIDs[i]), st.services)
      case None =>
        Progress(
          st, false, Finished(BadRequest(req.readyServiceIDs[i] + " cannot be found in state.services")), true)
      case Some(j) =>
        if st.services[j].kingReady then Progress(st, false, KingReadyLoop(req, i + 1), false)
        else Progress(WithService(st, j, st.services[j].(kingReady := true)), true, KingReadyLoop(req, i + 1), true)
  }

  /** One iteration of processKingTunnels, up to the broadcast if there is one. */
  function KingTunnelStep(st: State, req: PutKing, now: int, i: nat): Progress {
    if |req.tunnels| <= i then Progress(st, false, Finished(Accepted), true)
    else match FindFirst(ByPortsAndHost(req.tunnels[i].ports, req.host), st.kings)
      case None =>
        Progress(
          st.(kings := st.kings + [NewKing(req, req.tunnels[i], now)]), true, KingTunnelLoop(req, now, i + 1), true)
      case Some(j) =>
        var k := st.kings[j];
        if k.shuttingDown != req.shuttingDown || k.certPEM != req.certPEM then
          Progress(
            WithKing(st, j, k.(shuttingDown := req.shuttingDown, certPEM := req.certPEM)), true,
            KingBeatWrite(req, now, i), true)
        else
          Progress(WithKing(st, j, k.(beat := now)), false, KingTunnelLoop(req, now, i + 1), false)
  }

  /** The heartbeat written after the broadcast, through a pointer taken before it. */
  function KingBeatStep(st: State, req: PutKing, now: int, i: nat, env: Env): Progress {
    match env.late
    case Some(j) =>
      Progress(
        if j < |st.kings| then WithKing(st, j, st.kings[j].(beat := now)) else st,
        false, KingTunnelLoop(req, now, i + 1), false)
    case None => Progress(st, false, KingTunnelLoop(req, now, i + 1), false)
  }

  /** One iteration of processLingReadyServices. */
  function LingReadyStep(st: State, req: PutLing, i: nat, env: Env): Progress {
    if |req.readyServiceIDs| <= i then Progress(st, false, LingTunnelLoop(req, env.clock, 0), false)
    else match FindFirst(ByServiceID(req.readyServiceIDs[i]), st.services)
      case None => Progress(st, false, Finished(BadRequest("service is undefined or null")), true)
      case Some(j) =>
        if st.services[j].lingReady then Progress(st, false, LingReadyLoop(req, i + 1), false)
        else Progress(WithService(st, j, st.services[j].(lingReady := true)), true, LingReadyLoop(req, i + 1), true)
  }

  /** The second half of processOneLingTunnel: find the service or append it. */
  function LingServiceStep(st: State, req: PutLing, now: int, i: nat, env: Env): Progress {
    if |req.tunnels| <= i then Progress(st, false, Finished(Accepted), true)
    else match FindFirst(ByNameAndLing(req.tunnels[i], req.lingID), st.services)
      case Some(_) => Progress(st, false, Finished(Accepted), true)
      case None =>
        Progress(
          st.(services := st.services + [NewService(req, req.tunnels[i], env)]),
          true, LingTunnelLoop(req, now, i + 1), true)
  }

  /** One call of processOneLingTunnel, up to its first broadcast or its end. */
  function LingTunnelStep(st: State, req: PutLing, now: int, i: nat, env: Env): Progress {
    if |req.tunnels| <= i then Progress(st, false, Finished(Accepted), true)
    else match FindFirst(ByLingID(req.lingID), st.lings)
      case None => LingServiceStep(st.(lings := st.lings + [Ling(req.lingID, req.shuttingDown, now)]), req, now, i, env)
      case Some(j) =>
        var l := st.lings[j].(beat := now);
        if l.shuttingDown != req.shuttingDown then
          Progress(WithLing(st, j, l.(shuttingDown := req.shuttingDown)), true, LingServiceFind(req, now, i), true)
        else
          LingServiceStep(WithLing(st, j, l), req, now, i, env)
  }

  lemma LingServiceUnlocks(st: State, req: PutLing, now: int, i: nat, env: Env)
    ensures LingServiceStep(st, req, now, i, env).unlocked
  {
  }

  lemma LingTunnelUnlocks(st: State, req: PutLing, now: int, i: nat, env: Env)
    ensures LingTunnelStep(st, req, now, i, env).unlocked
  {
    hide FindFirst;
  }

  function Step(st: State, th: Thread, env: Env): Progress {
    match th
    case KingReadyLoop(req, i) => KingReadyStep(st, req, i, env)
    case KingTunnelLoop(req, now, i) => KingTunnelStep(st, req, now, i)
    case KingBeatWrite(req, now, i) => KingBeatStep(st, req, now, i, env)
    case LingReadyLoop(req, i) => LingReadyStep(st, req, i, env)
    case LingTunnelLoop(req, now, i) => LingTunnelStep(st, req, now, i, env)
    case LingServiceFind(req, now, i) => LingServiceStep(st, req, now, i, env)
    case Finished(_) => Progress(st, false, th, true)
  }

  /** How many steps a thread can still take without giving up the mutex. */
  function Fuel(th: Thread): nat {
    match th
    case KingReadyLoop(req, i) =>
      2 * |req.tunnels| + 1 + if i < |req.readyServiceIDs| then |req.readyServiceIDs| - i else 0
    case KingTunnelLoop(req, _, i) => if i < |req.tunnels| then 2 * (|req.tunnels| - i) else 0
    case KingBeatWrite(req, _, i) => 1 + if i < |req.tunnels| then 2 * (|req.tunnels| - i) else 0
    case LingReadyLoop(req, i) => 1 + if i < |req.readyServiceIDs| then |req.readyServiceIDs| - i else 0
    case _ => 0
  }

  /** The threads a segment that starts at th can pass through before it gives up the mutex. */
  predicate Within(th: Thread, later: Thread, env: Env) {
    match later
    case KingReadyLoop(req, _) => th.KingReadyLoop? && th.king == req
    case KingTunnelLoop(req, _, _) => (th.KingReadyLoop? || th.KingTunnelLoop? || th.KingBeatWrite?) && th.king == req
    case LingReadyLoop(req, _) => th.LingReadyLoop? && th.ling == req
    case LingTunnelLoop(req, now, i) =>
      later == th || (th.LingReadyLoop? && th.ling == req && now == env.clock && i == 0)
    case _ => later == th
  }

  /** A step that keeps the mutex writes at most one king's heartbeat, and the handler moves on. */
  lemma QuietStep(st: State, th: Thread, env: Env)
    requires !Step(st, th, env).unlocked
    ensures
      var p := Step(st, th, env);
      && !p.commits && p.edited == st.(kings := p.edited.kings) && SameKings(st.kings, p.edited.kings)
      && Fuel(p.next) < Fuel(th) && Within(th, p.next, env)
  {
    hide FindFirst;
  }

  lemma WithinTransitive(a: Thread, b: Thread, c: Thread, env: Env)
    requires Within(a, b, env) && Within(b, c, env) && !b.LingServiceFind?
    ensures Within(a, c, env)
  {
  }

  /** Everything a handler does while it holds the mutex once. */
  function Segment(st: State, th: Thread, env: Env): Progress
    decreases Fuel(th)
  {
    var p := Step(st, th, env);
    if p.unlocked then p
    else
      QuietStep(st, th, env);
      Segment(p.edited, p.next, env)
  }

  /** A segment is some heartbeats of kings followed by the one step that gives up the mutex: whatever
      else it changes, it changes there. */
  lemma {:induction false} SegmentShape(st: State, th: Thread, env: Env) returns (mid: State, last: Thread)
    ensures mid == st.(kings := mid.kings) && SameKings(st.kings, mid.kings)
    ensures Step(mid, last, env).unlocked && Segment(st, th, env) == Step(mid, last, env)
    ensures Within(th, last, env)
    decreases Fuel(th)
  {
    var p := Step(st, th, env);
    if p.unlocked {
      mid, last := st, th;
    } else {
      QuietStep(st, th, env);
      mid, last := SegmentShape(p.edited, p.next, env);
      WithinTransitive(th, p.next, last, env);
    }
  }
}
