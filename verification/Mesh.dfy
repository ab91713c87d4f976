/** The readiness handshake over whole runs of a council, kings and lings. Snapshots and requests may be
    delayed, repeated, reordered or lost; every peer runs the source's code. The council's past states are kept
    as history, and so is, in order, what the kings did: the snapshots they took tokens from and the
    connections they registered. */
module Mesh {
  import opened Basics
  import opened CouncilState
  import opened Placement
  import opened Cleaner
  import opened Handlers
  import opened Registry
  import opened Runs
  import opened KingTunnelServer
  import opened KingReaction
  import L = LingReaction

  /** A report being put together: the snapshot it started from, and every connection there has been since. */
  datatype Report = Report(snapshot: Option<State>, connected: Servers)

  datatype KingNode = KingNode(
    host: string, configs: seq<int>, snapshot: Option<State>, tokens: map<int, map<string, string>>, conns: Servers,
    report: Option<Report>)

  datatype LingNode = LingNode(lingID: string, tunnels: map<string, string>, snapshot: Option<State>)

  datatype Message = FromKing(king: PutKing) | FromLing(ling: PutLing)

  /** A connection that has been authenticated and is about to be registered. */
  datatype Handshake = Handshake(king: nat, bindPort: int, messages: seq<ControlMessage>, conn: Conn)

  /** A king's tunnel server took its tokens from the council's past state of that index; or a king registered
      a connection for a service that had presented a token, when the council had gone through at states. */
  datatype Happening =
    | Updated(king: nat, bindPort: int, state: nat)
    | Registered(king: nat, host: string, bindPort: int, serviceID: string, token: string, at: nat)

  datatype World = World(
    sys: Sys, kings: seq<KingNode>, lings: seq<LingNode>, sent: set<Message>, handshakes: set<Handshake>,
    past: seq<State>, log: seq<Happening>)

  datatype Move =
    | CouncilMoves(step: Label)
    | KingStores(k: nat, at: nat)
    | KingUpdates(k: nat, bindPort: int, at: nat)
    | KingAuthenticates(handshake: Handshake)
    | KingRegisters(handshake: Handshake)
    | KingUnregisters(k: nat, bindPort: int, ids: seq<string>, conn: Conn)
    | KingStartsReport(k: nat)
    | KingSyncs(k: nat, king: PutKing)
    | LingStores(l: nat, at: nat)
    | LingSyncs(l: nat, ling: PutLing)

  /** What a report may name. A king looks at its connections once per service, so each ID need only have been
      connected at some moment since the report was started. */
  function Reportable(r: Report, n: KingNode): seq<string> {
    match r.snapshot
    case None => []
    case Some(st) => ReadyIDs(st.services, st.lings, r.connected, n.configs, n.host)
  }

  function LingReport(n: LingNode): seq<string> {
    match n.snapshot
    case None => []
    case Some(st) => L.LingReadyIDs(st.services, n.lingID, n.tunnels)
  }

  predicate Authentic(n: KingNode, h: Handshake) {
    forall i :: 0 <= i < |h.messages| ==>
      && h.bindPort in n.tokens && h.messages[i].serviceID in n.tokens[h.bindPort]
      && n.tokens[h.bindPort][h.messages[i].serviceID] == h.messages[i].token
  }

  predicate CanMove(w: World, m: Move) {
    match m
    case CouncilMoves(l) =>
      && Enabled(w.sys, l)
      && (l.ArriveKing? ==> FromKing(l.king) in w.sent)
      && (l.ArriveLing? ==> FromLing(l.ling) in w.sent)
    case KingStores(k, at) => k < |w.kings| && at < |w.past|
    case KingUpdates(k, bindPort, at) => k < |w.kings| && at < |w.past|
    case KingAuthenticates(h) => h.king < |w.kings| && Authentic(w.kings[h.king], h)
    case KingRegisters(h) => h in w.handshakes && h.king < |w.kings|
    case KingUnregisters(k, _, _, _) => k < |w.kings|
    case KingStartsReport(k) => k < |w.kings|
    case KingSyncs(k, req) =>
      && k < |w.kings| && w.kings[k].report.Some?
      && forall i :: 0 <= i < |req.readyServiceIDs| ==>
           req.readyServiceIDs[i] in Reportable(w.kings[k].report.value, w.kings[k])
    case LingStores(l, at) => l < |w.lings| && at < |w.past|
    case LingSyncs(l, req) => l < |w.lings| && req.readyServiceIDs == LingReport(w.lings[l])
  }

  function ServiceIDs(messages: seq<ControlMessage>): seq<string> {
    seq(|messages|, i requires 0 <= i < |messages| => messages[i].serviceID)
  }

  function ConnsAt(servers: Servers, bindPort: int): map<string, Conn> {
    if bindPort in servers then servers[bindPort] else map[]
  }

  function WithConns(servers: Servers, h: Handshake): Servers {
    servers[h.bindPort := RegisterAll(ConnsAt(servers, h.bindPort), ServiceIDs(h.messages), h.conn)]
  }

  function Registrations(w: World, h: Handshake): seq<Happening>
    requires h.king < |w.kings|
  {
    seq(|h.messages|, i requires 0 <= i < |h.messages| =>
      Registered(
        h.king, w.kings[h.king].host, h.bindPort, h.messages[i].serviceID, h.messages[i].token, |w.past|))
  }

  function Moved(w: World, m: Move): World
    requires CanMove(w, m)
  {
    match m
    case CouncilMoves(l) =>
      var sys := Next(w.sys, l);
      w.(sys := sys, past := w.past + [sys.council])
    case KingStores(k, at) => w.(kings := w.kings[k := w.kings[k].(snapshot := Some(w.past[at]))])
    case KingUpdates(k, bindPort, at) =>
      var n := w.kings[k];
      var tokens := Tokens(w.past[at].services, w.past[at].lings, bindPort, n.host);
      w.(
        kings := w.kings[k := n.(tokens := n.tokens[bindPort := tokens])],
        log := w.log + [Updated(k, bindPort, at)])
    case KingAuthenticates(h) => w.(handshakes := w.handshakes + {h})
    case KingRegisters(h) =>
      var n := w.kings[h.king];
      var report := match n.report
        case None => None
        case Some(r) => Some(r.(connected := WithConns(r.connected, h)));
      w.(
        kings := w.kings[h.king := n.(conns := WithConns(n.conns, h), report := report)],
        handshakes := w.handshakes - {h},
        log := w.log + Registrations(w, h))
    case KingUnregisters(k, bindPort, ids, conn) =>
      var n := w.kings[k];
      var conns := UnregisterAll(ConnsAt(n.conns, bindPort), ids, conn);
      w.(kings := w.kings[k := n.(conns := n.conns[bindPort := conns])])
    case KingStartsReport(k) =>
      var n := w.kings[k];
      w.(kings := w.kings[k := n.(report := Some(Report(n.snapshot, n.conns)))])
    case KingSyncs(k, req) =>
      w.(sent := w.sent + {FromKing(req)}, kings := w.kings[k := w.kings[k].(report := None)])
    case LingStores(l, at) => w.(lings := w.lings[l := w.lings[l].(snapshot := Some(w.past[at]))])
    case LingSyncs(_, req) => w.(sent := w.sent + {FromLing(req)})
  }

  predicate Unstarted(n: KingNode) {
    n.snapshot.None? && n.tokens == map[] && n.conns == map[] && n.report.None?
  }

  predicate Fresh(w: World) {
    && w.sys.council == EMPTY && w.sys.threads == [] && w.sys.issued == {} && w.past == [EMPTY]
    && w.sent == {} && w.handshakes == {} && w.log == []
    && (forall k :: 0 <= k < |w.kings| ==> Unstarted(w.kings[k]))
    && (forall l :: 0 <= l < |w.lings| ==> w.lings[l].snapshot.None?)
  }

  ghost predicate WorldRun(ws: seq<World>, ms: seq<Move>) {
    && |ws| == |ms| + 1 && Fresh(ws[0])
    && forall i :: 0 <= i < |ms| ==> CanMove(ws[i], ms[i]) && ws[i + 1] == Moved(ws[i], ms[i])
  }

  // ---------------------------------------------------------------- what the flags stand for

  predicate AssignedIn(st: State, host: string, bindPort: int, id: string, token: string) {
    exists s ::
      && s in st.services && s.serviceID == id && s.token == token
      && s.host == Some(host) && s.bindPort == Some(bindPort)
  }

  /** One of the first m happenings is a token update of this tunnel of this king from one of the first n council
      states, and that state assigns the service, with this token, to this address. */
  predicate SeenAssigned(
      past: seq<State>, log: seq<Happening>, m: nat, n: nat, king: nat, host: string, bindPort: int, id: string,
      token: string)
  {
    exists j :: 0 <= j < m && j < |log| && UpdateShows(past, log[j], n, king, host, bindPort, id, token)
  }

  predicate UpdateShows(
      past: seq<State>, u: Happening, n: nat, king: nat, host: string, bindPort: int, id: string, token: string)
  {
    && u.Updated? && u.king == king && u.bindPort == bindPort && u.state < n && u.state < |past|
    && AssignedIn(past[u.state], host, bindPort, id, token)
  }

  predicate KingReadyIn(st: State, id: string) {
    exists s :: s in st.services && s.serviceID == id && s.kingReady
  }

  predicate WasKingReady(past: seq<State>, n: nat, id: string) {
    exists h :: 0 <= h < n && h < |past| && KingReadyIn(past[h], id)
  }

  predicate RegisteredBy(log: seq<Happening>, n: nat, id: string) {
    exists i :: 0 <= i < |log| && log[i].Registered? && log[i].serviceID == id && log[i].at <= n
  }

  /** In the j-th council state, each flag that is set has its reason in the past. */
  predicate Accounted(past: seq<State>, log: seq<Happening>, j: nat)
    requires j < |past|
  {
    forall i :: 0 <= i < |past[j].services| ==>
      var s := past[j].services[i];
      && (s.kingReady ==> RegisteredBy(log, j, s.serviceID))
      && (s.lingReady ==> WasKingReady(past, j, s.serviceID))
  }

  /** A registration was made by a king that had, before, updated its tunnel from a snapshot in which the council
      assigned the service to that tunnel's own address, with the token that was presented. */
  predicate RegistrationSound(w: World, i: nat)
    requires i < |w.log| && w.log[i].Registered?
  {
    var r := w.log[i];
    && r.king < |w.kings| && r.host == w.kings[r.king].host && r.at <= |w.past|
    && SeenAssigned(w.past, w.log, i, r.at, r.king, r.host, r.bindPort, r.serviceID, r.token)
  }

  predicate LogSound(w: World) {
    forall i :: 0 <= i < |w.log| && w.log[i].Registered? ==> RegistrationSound(w, i)
  }

  // ---------------------------------------------------------------- flags across a council step

  /** Where a set flag comes from: it was set before, or the handler's own request reports the service. */
  predicate FlagsFrom(before: seq<Service>, after: seq<Service>, th: Thread) {
    forall i :: 0 <= i < |after| ==>
      && (after[i].kingReady ==>
           (i < |before| && before[i].serviceID == after[i].serviceID && before[i].kingReady) ||
           (th.KingReadyLoop? && after[i].serviceID in th.king.readyServiceIDs))
      && (after[i].lingReady ==>
           (i < |before| && before[i].serviceID == after[i].serviceID && before[i].lingReady) ||
           (th.LingReadyLoop? && after[i].serviceID in th.ling.readyServiceIDs))
  }

  lemma ServiceStepFlags(st: State, req: PutLing, now: int, i: nat, env: Env, th: Thread)
    ensures FlagsFrom(st.services, LingServiceStep(st, req, now, i, env).edited.services, th)
    ensures !LingServiceStep(st, req, now, i, env).next.KingReadyLoop? &&
      !LingServiceStep(st, req, now, i, env).next.LingReadyLoop?
  {
    hide FindFirst;
  }

  lemma ReadyStepFlags(st: State, th: Thread, env: Env)
    requires th.KingReadyLoop? || th.LingReadyLoop?
    ensures FlagsFrom(st.services, Step(st, th, env).edited.services, th)
  {
  }

  lemma StepFlags(st: State, th: Thread, env: Env)
    ensures FlagsFrom(st.services, Step(st, th, env).edited.services, th)
  {
    hide LingServiceStep, FindFirst, FlagsFrom;
    match th
    case KingReadyLoop(_, _) => ReadyStepFlags(st, th, env);
    case LingReadyLoop(_, _) => ReadyStepFlags(st, th, env);
    case LingTunnelLoop(req, now, i) =>
      SameFlags(st.services, th);
      match FindFirst(ByLingID(req.lingID), st.lings) {
        case None =>
          ServiceStepFlags(st.(lings := st.lings + [Ling(req.lingID, req.shuttingDown, now)]), req, now, i, env, th);
        case Some(j) => ServiceStepFlags(WithLing(st, j, st.lings[j].(beat := now)), req, now, i, env, th);
      }
    case LingServiceFind(req, now, i) => ServiceStepFlags(st, req, now, i, env, th);
    case _ => SameFlags(st.services, th);
  }

  lemma SameFlags(services: seq<Service>, th: Thread)
    ensures FlagsFrom(services, services, th)
  {
  }

  /** The request a handler goes on reporting from is the one it started with. */
  predicate SameReports(th: Thread, next: Thread) {
    && (next.KingReadyLoop? ==> th.KingReadyLoop? && next.king == th.king)
    && (next.LingReadyLoop? ==> th.LingReadyLoop? && next.ling == th.ling)
  }

  lemma StepReports(st: State, th: Thread, env: Env)
    ensures SameReports(th, Step(st, th, env).next)
  {
    hide FindFirst;
  }

  lemma SegmentFlags(st: State, th: Thread, env: Env)
    ensures FlagsFrom(st.services, Segment(st, th, env).After().services, th)
    ensures SameReports(th, Segment(st, th, env).next)
  {
    hide Step, Commit;
    var mid, last := SegmentShape(st, th, env);
    var p := Step(mid, last, env);
    StepFlags(mid, last, env);
    StepReports(mid, last, env);
    if p.commits {
      CommitRaises(p.edited);
    }
  }

  predicate LingReadyIn(st: State, id: string) {
    exists s :: s in st.services && s.serviceID == id && s.lingReady
  }

  predicate Reports(th: Thread, id: string, king: bool) {
    if king then th.KingReadyLoop? && id in th.king.readyServiceIDs
    else th.LingReadyLoop? && id in th.ling.readyServiceIDs
  }

  predicate InFlight(threads: seq<Thread>, id: string, king: bool) {
    exists t :: 0 <= t < |threads| && Reports(threads[t], id, king)
  }

  /** A flag in the next council state was set before or is reported by a handler in flight. */
  lemma NextFlags(s: Sys, l: Label, i: nat)
    requires Enabled(s, l) && i < |Next(s, l).council.services|
    ensures
      var v := Next(s, l).council.services[i];
      && (v.kingReady ==> (KingReadyIn(s.council, v.serviceID) || InFlight(s.threads, v.serviceID, true)))
      && (v.lingReady ==> (LingReadyIn(s.council, v.serviceID) || InFlight(s.threads, v.serviceID, false)))
  {
    hide Segment, CleanPass;
    var v := Next(s, l).council.services[i];
    match l
    case Run(t, env) =>
      SegmentFlags(s.council, s.threads[t], env);
      assert i < |s.council.services| ==> s.council.services[i] in s.council.services;
    case Clean =>
      CleanKeepsPlaces(s.council, s.clock - STALE_THRESHOLD_MILLIS);
      assert v in s.council.services;
    case _ => assert v in s.council.services;
  }

  // ---------------------------------------------------------------- the invariant

  predicate KingSound(w: World, k: nat)
    requires k < |w.kings|
  {
    var n := w.kings[k];
    && (forall bp, id :: bp in n.tokens && id in n.tokens[bp] ==>
         SeenAssigned(w.past, w.log, |w.log|, |w.past|, k, n.host, bp, id, n.tokens[bp][id]))
    && ConnsSound(w, n.conns)
    && (n.report.Some? ==> ConnsSound(w, n.report.value.connected))
  }

  predicate ConnsSound(w: World, servers: Servers) {
    forall bp, id :: bp in servers && id in servers[bp] ==> RegisteredBy(w.log, |w.past|, id)
  }

  predicate LingSound(w: World, l: nat)
    requires l < |w.lings|
  {
    var n := w.lings[l];
    n.snapshot.Some? ==> exists h :: 0 <= h < |w.past| && w.past[h] == n.snapshot.value
  }

  predicate HandshakeSound(w: World, h: Handshake) {
    && h.king < |w.kings|
    && forall i :: 0 <= i < |h.messages| ==>
         SeenAssigned(
           w.past, w.log, |w.log|, |w.past|, h.king, w.kings[h.king].host, h.bindPort, h.messages[i].serviceID,
           h.messages[i].token)
  }

  /** What a report may name: registered services for a king, services seen ready for a ling. */
  predicate Justified(w: World, ids: seq<string>, king: bool) {
    forall i :: 0 <= i < |ids| ==>
      if king then RegisteredBy(w.log, |w.past|, ids[i]) else WasKingReady(w.past, |w.past|, ids[i])
  }

  predicate MessageSound(w: World, m: Message) {
    match m
    case FromKing(req) => Justified(w, req.readyServiceIDs, true)
    case FromLing(req) => Justified(w, req.readyServiceIDs, false)
  }

  predicate ThreadSound(w: World, th: Thread) {
    && (th.KingReadyLoop? ==> Justified(w, th.king.readyServiceIDs, true))
    && (th.LingReadyLoop? ==> Justified(w, th.ling.readyServiceIDs, false))
  }

  predicate HistorySound(w: World) {
    && w.past != [] && Last(w.past) == w.sys.council
    && forall j :: 0 <= j < |w.past| ==> Accounted(w.past, w.log, j)
  }

  predicate PeersSound(w: World) {
    && (forall k :: 0 <= k < |w.kings| ==> KingSound(w, k))
    && (forall l :: 0 <= l < |w.lings| ==> LingSound(w, l))
    && (forall h :: h in w.handshakes ==> HandshakeSound(w, h))
  }

  predicate ReportsSound(w: World) {
    && (forall m :: m in w.sent ==> MessageSound(w, m))
    && (forall t :: 0 <= t < |w.sys.threads| ==> ThreadSound(w, w.sys.threads[t]))
  }

  predicate Sound(w: World) {
    HistorySound(w) && PeersSound(w) && ReportsSound(w) && LogSound(w)
  }

  // ---------------------------------------------------------------- history only grows

  /** The later world remembers everything, and its kings are the same machines. */
  predicate Extends(w: World, v: World) {
    && |w.past| <= |v.past| && v.past[..|w.past|] == w.past
    && |w.log| <= |v.log| && v.log[..|w.log|] == w.log
    && |w.kings| == |v.kings| && forall k :: 0 <= k < |w.kings| ==> w.kings[k].host == v.kings[k].host
  }

  lemma MovedExtends(w: World, m: Move)
    requires CanMove(w, m)
    ensures Extends(w, Moved(w, m))
  {
    hide Next, Enabled, Tokens, RegisterAll, UnregisterAll;
  }

  lemma SeenLater(
      w: World, v: World, m: nat, n: nat, king: nat, host: string, bindPort: int, id: string, token: string)
    requires Extends(w, v) && m <= |w.log| && n <= |w.past|
    requires SeenAssigned(w.past, w.log, m, n, king, host, bindPort, id, token)
    ensures forall k, l :: m <= k && n <= l ==> SeenAssigned(v.past, v.log, k, l, king, host, bindPort, id, token)
  {
    hide AssignedIn;
    var j :| 0 <= j < m && j < |w.log| && UpdateShows(w.past, w.log[j], n, king, host, bindPort, id, token);
    assert v.log[j] == w.log[j] && v.past[w.log[j].state] == w.past[w.log[j].state];
    forall k: nat, l: nat | m <= k && n <= l
      ensures SeenAssigned(v.past, v.log, k, l, king, host, bindPort, id, token)
    {
      assert UpdateShows(v.past, v.log[j], l, king, host, bindPort, id, token);
    }
  }

  lemma ReadyLater(w: World, v: World, n: nat, id: string)
    requires Extends(w, v) && n <= |w.past| && WasKingReady(w.past, n, id)
    ensures forall k :: n <= k ==> WasKingReady(v.past, k, id)
  {
    hide KingReadyIn;
    var h :| 0 <= h < n && h < |w.past| && KingReadyIn(w.past[h], id);
    assert v.past[h] == w.past[h];
  }

  lemma RegisteredLater(w: World, v: World, n: nat, id: string)
    requires Extends(w, v) && RegisteredBy(w.log, n, id)
    ensures forall k :: n <= k ==> RegisteredBy(v.log, k, id)
  {
    var i :| 0 <= i < |w.log| && w.log[i].Registered? && w.log[i].serviceID == id && w.log[i].at <= n;
    assert v.log[i] == w.log[i];
  }

  lemma ConnsLater(w: World, v: World, servers: Servers)
    requires Extends(w, v) && ConnsSound(w, servers)
    ensures ConnsSound(v, servers)
  {
    hide RegisteredBy;
    forall bp, id | bp in servers && id in servers[bp] ensures RegisteredBy(v.log, |v.past|, id) {
      RegisteredLater(w, v, |w.past|, id);
    }
  }

  lemma JustifiedLater(w: World, v: World, ids: seq<string>, king: bool)
    requires Extends(w, v) && Justified(w, ids, king)
    ensures Justified(v, ids, king)
  {
    hide WasKingReady, RegisteredBy;
    forall i | 0 <= i < |ids|
      ensures if king then RegisteredBy(v.log, |v.past|, ids[i]) else WasKingReady(v.past, |v.past|, ids[i])
    {
      if king {
        RegisteredLater(w, v, |w.past|, ids[i]);
      } else {
        ReadyLater(w, v, |w.past|, ids[i]);
      }
    }
  }

  lemma AccountedLater(w: World, v: World, j: nat)
    requires Extends(w, v) && j < |w.past| && Accounted(w.past, w.log, j)
    ensures Accounted(v.past, v.log, j)
  {
    hide WasKingReady, RegisteredBy;
    forall i | 0 <= i < |w.past[j].services| && w.past[j].services[i].kingReady
      ensures RegisteredBy(v.log, j, w.past[j].services[i].serviceID)
    {
      RegisteredLater(w, v, j, w.past[j].services[i].serviceID);
    }
    assert v.past[j] == w.past[j];
    forall i | 0 <= i < |v.past[j].services| && v.past[j].services[i].lingReady
      ensures WasKingReady(v.past, j, v.past[j].services[i].serviceID)
    {
      ReadyLater(w, v, j, v.past[j].services[i].serviceID);
    }
  }

  lemma RegistrationLater(w: World, v: World, i: nat)
    requires Extends(w, v) && i < |w.log| && w.log[i].Registered? && RegistrationSound(w, i)
    ensures i < |v.log| && v.log[i] == w.log[i] && RegistrationSound(v, i)
  {
    hide SeenAssigned;
    var r := w.log[i];
    assert v.log[i] == r;
    SeenLater(w, v, i, r.at, r.king, r.host, r.bindPort, r.serviceID, r.token);
  }

  lemma KingLater(w: World, v: World, k: nat)
    requires Extends(w, v) && k < |w.kings| && KingSound(w, k)
    requires v.kings[k].tokens == w.kings[k].tokens && v.kings[k].conns == w.kings[k].conns
    requires v.kings[k].report == w.kings[k].report || v.kings[k].report.None?
    ensures KingSound(v, k)
  {
    hide SeenAssigned, ConnsSound;
    TokensLater(w, v, k);
    ConnsLater(w, v, w.kings[k].conns);
    if v.kings[k].report.Some? {
      ConnsLater(w, v, w.kings[k].report.value.connected);
    }
  }

  lemma TokensLater(w: World, v: World, k: nat)
    requires Extends(w, v) && k < |w.kings| && KingSound(w, k)
    ensures
      var n := w.kings[k];
      forall bp, id :: bp in n.tokens && id in n.tokens[bp] ==>
        SeenAssigned(v.past, v.log, |v.log|, |v.past|, k, n.host, bp, id, n.tokens[bp][id])
  {
    hide SeenAssigned, ConnsSound;
    var n := w.kings[k];
    forall bp, id | bp in n.tokens && id in n.tokens[bp]
      ensures SeenAssigned(v.past, v.log, |v.log|, |v.past|, k, n.host, bp, id, n.tokens[bp][id])
    {
      SeenLater(w, v, |w.log|, |w.past|, k, n.host, bp, id, n.tokens[bp][id]);
    }
  }

  lemma HandshakeLater(w: World, v: World, h: Handshake)
    requires Extends(w, v) && HandshakeSound(w, h)
    ensures HandshakeSound(v, h)
  {
    hide SeenAssigned;
    var host := w.kings[h.king].host;
    forall i | 0 <= i < |h.messages|
      ensures
        var m := h.messages[i];
        SeenAssigned(v.past, v.log, |v.log|, |v.past|, h.king, host, h.bindPort, m.serviceID, m.token)
    {
      var m := h.messages[i];
      SeenLater(w, v, |w.log|, |w.past|, h.king, host, h.bindPort, m.serviceID, m.token);
    }
  }

  lemma LingLater(w: World, v: World, l: nat)
    requires Extends(w, v) && l < |w.lings| == |v.lings| && LingSound(w, l) &&
      v.lings[l].snapshot == w.lings[l].snapshot
    ensures LingSound(v, l)
  {
    if w.lings[l].snapshot.Some? {
      var h :| 0 <= h < |w.past| && w.past[h] == w.lings[l].snapshot.value;
      assert v.past[h] == w.past[h];
    }
  }

  // ---------------------------------------------------------------- every move keeps the invariant

  lemma HistoryLater(w: World, v: World)
    requires Extends(w, v) && HistorySound(w) && v.past == w.past && v.sys == w.sys
    ensures HistorySound(v)
  {
    hide Accounted, Extends;
    forall j | 0 <= j < |v.past| ensures Accounted(v.past, v.log, j) {
      AccountedLater(w, v, j);
    }
  }

  lemma ReportsLater(w: World, v: World)
    requires Extends(w, v) && ReportsSound(w) && v.sent == w.sent && v.sys.threads == w.sys.threads
    ensures ReportsSound(v)
  {
    hide Extends, Justified;
    forall m | m in v.sent ensures MessageSound(v, m) {
      MessageLater(w, v, m);
    }
    forall t | 0 <= t < |v.sys.threads| ensures ThreadSound(v, v.sys.threads[t]) {
      ThreadLater(w, v, v.sys.threads[t]);
    }
  }

  lemma MessageLater(w: World, v: World, m: Message)
    requires Extends(w, v) && MessageSound(w, m)
    ensures MessageSound(v, m)
  {
    hide Extends, Justified;
    match m
    case FromKing(req) => JustifiedLater(w, v, req.readyServiceIDs, true);
    case FromLing(req) => JustifiedLater(w, v, req.readyServiceIDs, false);
  }

  lemma ThreadLater(w: World, v: World, th: Thread)
    requires Extends(w, v) && ThreadSound(w, th)
    ensures ThreadSound(v, th)
  {
    hide Extends, Justified;
    if th.KingReadyLoop? {
      JustifiedLater(w, v, th.king.readyServiceIDs, true);
    }
    if th.LingReadyLoop? {
      JustifiedLater(w, v, th.ling.readyServiceIDs, false);
    }
  }

  lemma LogLater(w: World, v: World)
    requires Extends(w, v) && LogSound(w)
    requires forall i :: |w.log| <= i < |v.log| ==> v.log[i].Updated?
    ensures LogSound(v)
  {
    hide RegistrationSound;
    forall i | 0 <= i < |v.log| && v.log[i].Registered? ensures RegistrationSound(v, i) {
      RegistrationLater(w, v, i);
    }
  }

  /** Peers whose own state is untouched stay sound; k and l are the ones that moved, if any. */
  lemma PeersLater(w: World, v: World, k: int, l: int)
    requires Extends(w, v) && PeersSound(w) && |v.kings| == |w.kings| && |v.lings| == |w.lings| &&
      v.handshakes <= w.handshakes
    requires forall i :: 0 <= i < |w.kings| && i != k ==> v.kings[i] == w.kings[i]
    requires forall i :: 0 <= i < |w.lings| && i != l ==> v.lings[i] == w.lings[i]
    requires 0 <= k < |v.kings| ==> KingSound(v, k)
    requires 0 <= l < |v.lings| ==> LingSound(v, l)
    ensures PeersSound(v)
  {
    hide Extends, KingSound, LingSound, HandshakeSound;
    forall i | 0 <= i < |v.kings| ensures KingSound(v, i) {
      if i != k {
        KingLater(w, v, i);
      }
    }
    forall i | 0 <= i < |v.lings| ensures LingSound(v, i) {
      if i != l {
        LingLater(w, v, i);
      }
    }
    forall h | h in v.handshakes ensures HandshakeSound(v, h) {
      HandshakeLater(w, v, h);
    }
  }

  lemma UpdatedKingSound(w: World, k: nat, bindPort: int, at: nat)
    requires CanMove(w, KingUpdates(k, bindPort, at)) && KingSound(w, k)
    ensures KingSound(Moved(w, KingUpdates(k, bindPort, at)), k)
  {
    hide Tokens, ConnsSound, SeenAssigned;
    var v := Moved(w, KingUpdates(k, bindPort, at));
    MovedExtends(w, KingUpdates(k, bindPort, at));
    TokensLater(w, v, k);
    var n := v.kings[k];
    forall bp, id | bp in n.tokens && id in n.tokens[bp]
      ensures SeenAssigned(v.past, v.log, |v.log|, |v.past|, k, n.host, bp, id, n.tokens[bp][id])
    {
      var was := w.kings[k];
      if bp == bindPort {
        TokenSeen(w, k, bindPort, at, id);
      } else {
        assert bp in was.tokens && id in was.tokens[bp] && n.tokens[bp] == was.tokens[bp];
      }
    }
    ConnsLater(w, v, w.kings[k].conns);
    if v.kings[k].report.Some? {
      ConnsLater(w, v, w.kings[k].report.value.connected);
    }
  }

  /** A token of an update is that of a service that the state it used assigns to the tunnel. */
  lemma TokenSeen(w: World, k: nat, bindPort: int, at: nat, id: string)
    requires CanMove(w, KingUpdates(k, bindPort, at))
    requires id in Moved(w, KingUpdates(k, bindPort, at)).kings[k].tokens[bindPort]
    ensures
      var v := Moved(w, KingUpdates(k, bindPort, at));
      var n := v.kings[k];
      SeenAssigned(v.past, v.log, |v.log|, |v.past|, k, n.host, bindPort, id, n.tokens[bindPort][id])
  {
    hide Tokens;
    var v, host, st := Moved(w, KingUpdates(k, bindPort, at)), w.kings[k].host, w.past[at];
    var i := TokenOfAssigned(st.services, st.lings, bindPort, host, id);
    assert st.services[i] in st.services;
    assert UpdateShows(
      v.past, v.log[|w.log|], |v.past|, k, host, bindPort, id, v.kings[k].tokens[bindPort][id]);
  }

  /** Connections stay accounted for when a handshake is added to them. */
  lemma WithConnsSound(w: World, h: Handshake, servers: Servers)
    requires CanMove(w, KingRegisters(h)) && ConnsSound(w, servers)
    ensures ConnsSound(Moved(w, KingRegisters(h)), WithConns(servers, h))
  {
    hide RegisterAll, RegisteredBy;
    var v := Moved(w, KingRegisters(h));
    MovedExtends(w, KingRegisters(h));
    ConnsLater(w, v, servers);
    forall id | id in WithConns(servers, h)[h.bindPort] ensures RegisteredBy(v.log, |v.past|, id) {
      RegisterAllIs(ConnsAt(servers, h.bindPort), ServiceIDs(h.messages), h.conn, id);
      if id in ServiceIDs(h.messages) {
        var i :| 0 <= i < |h.messages| && ServiceIDs(h.messages)[i] == id;
        NewlyRegistered(w, h, i);
      }
    }
  }

  lemma NewlyRegistered(w: World, h: Handshake, i: nat)
    requires CanMove(w, KingRegisters(h)) && i < |h.messages|
    ensures RegisteredBy(Moved(w, KingRegisters(h)).log, |w.past|, h.messages[i].serviceID)
  {
    var v := Moved(w, KingRegisters(h));
    assert v.log[|w.log| + i] == Registrations(w, h)[i];
  }

  lemma RegisteredKingSound(w: World, h: Handshake)
    requires CanMove(w, KingRegisters(h)) && KingSound(w, h.king)
    ensures KingSound(Moved(w, KingRegisters(h)), h.king)
  {
    hide WithConns, ConnsSound, SeenAssigned, Registrations;
    var n, v := w.kings[h.king], Moved(w, KingRegisters(h));
    MovedExtends(w, KingRegisters(h));
    TokensLater(w, v, h.king);
    WithConnsSound(w, h, n.conns);
    if n.report.Some? {
      WithConnsSound(w, h, n.report.value.connected);
    }
  }

  lemma NewRegistrationsSound(w: World, h: Handshake)
    requires CanMove(w, KingRegisters(h)) && HandshakeSound(w, h) && LogSound(w)
    ensures LogSound(Moved(w, KingRegisters(h)))
  {
    hide RegisterAll, SeenAssigned, RegistrationSound;
    var v := Moved(w, KingRegisters(h));
    MovedExtends(w, KingRegisters(h));
    forall i | 0 <= i < |v.log| && v.log[i].Registered? ensures RegistrationSound(v, i) {
      if i < |w.log| {
        RegistrationLater(w, v, i);
      } else {
        NewRegistrationSound(w, h, i - |w.log|);
      }
    }
  }

  lemma NewRegistrationSound(w: World, h: Handshake, i: nat)
    requires CanMove(w, KingRegisters(h)) && HandshakeSound(w, h) && i < |h.messages|
    ensures
      var v := Moved(w, KingRegisters(h));
      |w.log| + i < |v.log| && v.log[|w.log| + i].Registered? && RegistrationSound(v, |w.log| + i)
  {
    hide WithConns, SeenAssigned;
    var v, m := Moved(w, KingRegisters(h)), h.messages[i];
    MovedExtends(w, KingRegisters(h));
    assert v.log[|w.log| + i] == Registrations(w, h)[i];
    SeenLater(w, v, |w.log|, |w.past|, h.king, w.kings[h.king].host, h.bindPort, m.serviceID, m.token);
  }

  lemma UnregisteredKingSound(w: World, k: nat, bindPort: int, ids: seq<string>, conn: Conn)
    requires k < |w.kings| && KingSound(w, k)
    ensures KingSound(Moved(w, KingUnregisters(k, bindPort, ids, conn)), k)
  {
    hide UnregisterAll, SeenAssigned, RegisteredBy;
    var n := w.kings[k];
    forall id | id in UnregisterAll(ConnsAt(n.conns, bindPort), ids, conn)
      ensures RegisteredBy(w.log, |w.past|, id)
    {
      UnregisterAllIs(ConnsAt(n.conns, bindPort), ids, conn, id);
    }
  }

  lemma KingReportJustified(w: World, k: nat, ids: seq<string>)
    requires k < |w.kings| && KingSound(w, k) && w.kings[k].report.Some?
    requires forall i :: 0 <= i < |ids| ==> ids[i] in Reportable(w.kings[k].report.value, w.kings[k])
    ensures Justified(w, ids, true)
  {
    hide ReadyIDs, LingActive, SeenAssigned, RegisteredBy;
    var n, r := w.kings[k], w.kings[k].report.value;
    forall i | 0 <= i < |ids| ensures RegisteredBy(w.log, |w.past|, ids[i]) {
      assert ids[i] in Reportable(r, n);
      var st := r.snapshot.value;
      ReadyIDIs(st.services, st.lings, r.connected, n.configs, n.host, ids[i]);
      var s :| s in st.services && s.serviceID == ids[i] && MayReport(st.lings, r.connected, n.configs, n.host)(s);
      var bp := s.bindPort.value;
      assert ConnsSound(w, r.connected) && bp in r.connected && ids[i] in r.connected[bp];
    }
  }

  lemma LingReportJustified(w: World, l: nat)
    requires l < |w.lings| && LingSound(w, l)
    ensures Justified(w, LingReport(w.lings[l]), false)
  {
    hide L.LingReadyIDs;
    var n := w.lings[l];
    var ids := LingReport(n);
    forall i | 0 <= i < |ids| ensures WasKingReady(w.past, |w.past|, ids[i]) {
      var st := n.snapshot.value;
      assert ids[i] in ids;
      L.ReportedAre(st.services, n.lingID, n.tunnels, ids[i]);
      var j :| 0 <= j < |st.services| && st.services[j].serviceID == ids[i] &&
        L.MayReport(st.services[j], n.lingID, n.tunnels);
      var h :| 0 <= h < |w.past| && w.past[h] == st;
      assert st.services[j] in st.services;
      assert KingReadyIn(w.past[h], ids[i]);
    }
  }

  /** A council step accounts for every flag it shows. */
  lemma CouncilHistory(w: World, l: Label)
    requires CanMove(w, CouncilMoves(l)) && HistorySound(w) && ReportsSound(w)
    ensures HistorySound(Moved(w, CouncilMoves(l)))
  {
    hide Next, Enabled, Justified;
    var v := Moved(w, CouncilMoves(l));
    MovedExtends(w, CouncilMoves(l));
    var n := |w.past|;
    forall j | 0 <= j < n ensures Accounted(v.past, v.log, j) {
      AccountedLater(w, v, j);
    }
    forall i | 0 <= i < |v.sys.council.services|
      ensures
        var s := v.sys.council.services[i];
        (s.kingReady ==> RegisteredBy(v.log, n, s.serviceID)) && (s.lingReady ==> WasKingReady(v.past, n, s.serviceID))
    {
      NextFlags(w.sys, l, i);
      FlagsAccounted(w, v, v.sys.council.services[i]);
    }
  }

  lemma FlagsAccounted(w: World, v: World, s: Service)
    requires Extends(w, v) && v.log == w.log && HistorySound(w) && ReportsSound(w)
    requires s.kingReady ==> (KingReadyIn(w.sys.council, s.serviceID) || InFlight(w.sys.threads, s.serviceID, true))
    requires s.lingReady ==> (LingReadyIn(w.sys.council, s.serviceID) || InFlight(w.sys.threads, s.serviceID, false))
    ensures s.kingReady ==> RegisteredBy(v.log, |w.past|, s.serviceID)
    ensures s.lingReady ==> WasKingReady(v.past, |w.past|, s.serviceID)
  {
    hide Extends, WasKingReady;
    var id, n := s.serviceID, |w.past|;
    assert Accounted(w.past, w.log, n - 1);
    if s.kingReady {
      if InFlight(w.sys.threads, id, true) {
        var t :| 0 <= t < |w.sys.threads| && Reports(w.sys.threads[t], id, true);
        assert ThreadSound(w, w.sys.threads[t]);
      } else {
        var u :| u in w.sys.council.services && u.serviceID == id && u.kingReady;
        var a :| 0 <= a < |w.past[n - 1].services| && w.past[n - 1].services[a] == u;
        assert RegisteredBy(w.log, n - 1, id);
      }
    }
    if s.lingReady {
      if InFlight(w.sys.threads, id, false) {
        var t :| 0 <= t < |w.sys.threads| && Reports(w.sys.threads[t], id, false);
        assert ThreadSound(w, w.sys.threads[t]);
        ReadyLater(w, v, n, id);
      } else {
        var u :| u in w.sys.council.services && u.serviceID == id && u.lingReady;
        var a :| 0 <= a < |w.past[n - 1].services| && w.past[n - 1].services[a] == u;
        ReadyLater(w, v, n - 1, id);
      }
    }
  }

  /** New handlers start from messages that were sent; old ones keep their requests. */
  lemma CouncilReports(w: World, l: Label)
    requires CanMove(w, CouncilMoves(l)) && ReportsSound(w)
    ensures ReportsSound(Moved(w, CouncilMoves(l)))
  {
    hide Segment, CleanPass, Justified;
    var v := Moved(w, CouncilMoves(l));
    MovedExtends(w, CouncilMoves(l));
    forall m | m in v.sent ensures MessageSound(v, m) {
      MessageLater(w, v, m);
    }
    forall t | 0 <= t < |w.sys.threads| ensures ThreadSound(v, w.sys.threads[t]) {
      ThreadLater(w, v, w.sys.threads[t]);
    }
    match l
    case ArriveKing(req) => MessageLater(w, v, FromKing(req));
    case ArriveLing(req) => MessageLater(w, v, FromLing(req));
    case Run(t, env) => SegmentFlags(w.sys.council, w.sys.threads[t], env);
    case _ =>
  }

  lemma CouncilSound(w: World, l: Label)
    requires CanMove(w, CouncilMoves(l)) && Sound(w)
    ensures Sound(Moved(w, CouncilMoves(l)))
  {
    hide Next, Enabled, HistorySound, PeersSound, ReportsSound, RegistrationSound, Extends;
    var m := CouncilMoves(l);
    MovedExtends(w, m);
    CouncilHistory(w, l);
    CouncilReports(w, l);
    PeersLater(w, Moved(w, m), -1, -1);
    LogLater(w, Moved(w, m));
  }

  /** A king's or a ling's move leaves the council alone. */
  lemma PeerMoveSound(w: World, m: Move, k: int, l: int)
    requires CanMove(w, m) && !m.CouncilMoves? && Sound(w)
    requires
      var v := Moved(w, m);
      && v.sys == w.sys && v.past == w.past && v.sent == w.sent && v.sys.threads == w.sys.threads
      && (forall i :: |w.log| <= i < |v.log| ==> v.log[i].Updated?)
      && |v.kings| == |w.kings| && |v.lings| == |w.lings| && v.handshakes <= w.handshakes
      && (forall i :: 0 <= i < |w.kings| && i != k ==> v.kings[i] == w.kings[i])
      && (forall i :: 0 <= i < |w.lings| && i != l ==> v.lings[i] == w.lings[i])
      && (0 <= k < |v.kings| ==> KingSound(v, k)) && (0 <= l < |v.lings| ==> LingSound(v, l))
    ensures Sound(Moved(w, m))
  {
    hide CanMove, Moved, HistorySound, PeersSound, ReportsSound, RegistrationSound, Extends, KingSound, LingSound;
    var v := Moved(w, m);
    MovedExtends(w, m);
    HistoryLater(w, v);
    ReportsLater(w, v);
    PeersLater(w, v, k, l);
    LogLater(w, v);
  }

  lemma StoresSound(w: World, m: Move)
    requires CanMove(w, m) && Sound(w)
    requires m.KingStores? || m.LingStores? || m.KingUpdates? || m.KingUnregisters? || m.KingStartsReport?
    ensures Sound(Moved(w, m))
  {
    hide HistorySound, ReportsSound, LogSound, SeenAssigned, RegisteredBy, Tokens, UnregisterAll, HandshakeSound;
    match m
    case KingStores(k, at) =>
      assert KingSound(w, k);
      PeerMoveSound(w, m, k, -1);
    case LingStores(l, at) => PeerMoveSound(w, m, -1, l);
    case KingUpdates(k, bindPort, at) =>
      assert KingSound(w, k);
      UpdatedKingSound(w, k, bindPort, at);
      PeerMoveSound(w, m, k, -1);
    case KingUnregisters(k, bindPort, ids, conn) =>
      assert KingSound(w, k);
      UnregisteredKingSound(w, k, bindPort, ids, conn);
      PeerMoveSound(w, m, k, -1);
    case KingStartsReport(k) =>
      assert KingSound(w, k);
      PeerMoveSound(w, m, k, -1);
    case _ => assert false;
  }

  lemma RegistersSound(w: World, h: Handshake)
    requires CanMove(w, KingRegisters(h)) && Sound(w)
    ensures Sound(Moved(w, KingRegisters(h)))
  {
    hide HistorySound, ReportsSound, RegistrationSound, Extends, KingSound, LingSound, HandshakeSound, RegisterAll;
    var m := KingRegisters(h);
    var v := Moved(w, m);
    MovedExtends(w, m);
    HistoryLater(w, v);
    ReportsLater(w, v);
    RegisteredKingSound(w, h);
    PeersLater(w, v, h.king, -1);
    NewRegistrationsSound(w, h);
  }

  lemma AuthenticatesSound(w: World, h: Handshake)
    requires CanMove(w, KingAuthenticates(h)) && Sound(w)
    ensures Sound(Moved(w, KingAuthenticates(h)))
  {
    hide HistorySound, ReportsSound, RegistrationSound, Extends, LingSound, SeenAssigned, RegisteredBy;
    var m := KingAuthenticates(h);
    var v := Moved(w, m);
    MovedExtends(w, m);
    HistoryLater(w, v);
    ReportsLater(w, v);
    LogLater(w, v);
    assert KingSound(w, h.king);
    assert HandshakeSound(v, h);
    PeersWithHandshake(w, v, h);
  }

  lemma PeersWithHandshake(w: World, v: World, h: Handshake)
    requires Extends(w, v) && PeersSound(w) && v == w.(handshakes := w.handshakes + {h}) && HandshakeSound(v, h)
    ensures PeersSound(v)
  {
    hide Extends, KingSound, LingSound, HandshakeSound;
    forall k | 0 <= k < |v.kings| ensures KingSound(v, k) {
      KingLater(w, v, k);
    }
    forall l | 0 <= l < |v.lings| ensures LingSound(v, l) {
      LingLater(w, v, l);
    }
    forall g | g in v.handshakes ensures HandshakeSound(v, g) {
      if g in w.handshakes {
        HandshakeLater(w, v, g);
      }
    }
  }

  lemma KingSyncSound(w: World, k: nat, req: PutKing)
    requires CanMove(w, KingSyncs(k, req)) && Sound(w)
    ensures Sound(Moved(w, KingSyncs(k, req)))
  {
    hide HistorySound, RegistrationSound, Extends, LingSound, HandshakeSound, Justified, Reportable, SeenAssigned,
      ConnsSound;
    var v := Moved(w, KingSyncs(k, req));
    MovedExtends(w, KingSyncs(k, req));
    HistoryLater(w, v);
    KingLater(w, v, k);
    PeersLater(w, v, k, -1);
    LogLater(w, v);
    KingReportJustified(w, k, req.readyServiceIDs);
    ReportsWith(w, v, FromKing(req));
  }

  lemma LingSyncSound(w: World, l: nat, req: PutLing)
    requires CanMove(w, LingSyncs(l, req)) && Sound(w)
    ensures Sound(Moved(w, LingSyncs(l, req)))
  {
    hide HistorySound, RegistrationSound, Extends, KingSound, LingSound, HandshakeSound, Justified, LingReport;
    var v := Moved(w, LingSyncs(l, req));
    MovedExtends(w, LingSyncs(l, req));
    HistoryLater(w, v);
    PeersLater(w, v, -1, -1);
    LogLater(w, v);
    LingReportJustified(w, l);
    ReportsWith(w, v, FromLing(req));
  }

  lemma ReportsWith(w: World, v: World, m: Message)
    requires Extends(w, v) && ReportsSound(w) && MessageSound(w, m)
    requires v.sent == w.sent + {m} && v.sys.threads == w.sys.threads
    ensures ReportsSound(v)
  {
    hide Extends, Justified;
    forall g | g in v.sent ensures MessageSound(v, g) {
      MessageLater(w, v, g);
    }
    forall t | 0 <= t < |v.sys.threads| ensures ThreadSound(v, v.sys.threads[t]) {
      ThreadLater(w, v, v.sys.threads[t]);
    }
  }

  lemma MovedSound(w: World, m: Move)
    requires CanMove(w, m) && Sound(w)
    ensures Sound(Moved(w, m))
  {
    hide Sound, Moved, CanMove;
    match m
    case CouncilMoves(l) => CouncilSound(w, l);
    case KingAuthenticates(h) => AuthenticatesSound(w, h);
    case KingRegisters(h) => RegistersSound(w, h);
    case KingSyncs(k, req) => KingSyncSound(w, k, req);
    case LingSyncs(l, req) => LingSyncSound(w, l, req);
    case _ => StoresSound(w, m);
  }

  lemma {:induction false} SoundEverywhere(ws: seq<World>, ms: seq<Move>, n: nat)
    requires WorldRun(ws, ms) && n < |ws|
    ensures Sound(ws[n])
  {
    hide Moved, CanMove;
    if n > 0 {
      SoundEverywhere(ws, ms, n - 1);
      MovedSound(ws[n - 1], ms[n - 1]);
    }
  }

  // ---------------------------------------------------------------- identities

  /** What a service is from the moment it is appended. */
  predicate SameIdentity(s: Service, t: Service) {
    s.serviceID == t.serviceID && s.name == t.name && s.token == t.token && s.lingID == t.lingID
  }

  /** The same services in the same places, and at most one new one, with the fresh ID. */
  predicate Appends(before: seq<Service>, after: seq<Service>, newID: string) {
    && |before| <= |after| <= |before| + 1
    && (forall i :: 0 <= i < |before| ==> SameIdentity(before[i], after[i]))
    && (|before| < |after| ==> after[|before|].serviceID == newID)
  }

  lemma ServiceStepAppends(st: State, req: PutLing, now: int, i: nat, env: Env)
    ensures Appends(st.services, LingServiceStep(st, req, now, i, env).edited.services, env.newID)
  {
    hide FindFirst;
  }

  lemma StepAppends(st: State, th: Thread, env: Env)
    ensures Appends(st.services, Step(st, th, env).edited.services, env.newID)
  {
    hide LingServiceStep, FindFirst;
    match th
    case LingTunnelLoop(req, now, i) =>
      match FindFirst(ByLingID(req.lingID), st.lings) {
        case None =>
          ServiceStepAppends(st.(lings := st.lings + [Ling(req.lingID, req.shuttingDown, now)]), req, now, i, env);
        case Some(j) => ServiceStepAppends(WithLing(st, j, st.lings[j].(beat := now)), req, now, i, env);
      }
    case LingServiceFind(req, now, i) => ServiceStepAppends(st, req, now, i, env);
    case _ =>
  }

  lemma SegmentAppends(st: State, th: Thread, env: Env)
    ensures Appends(st.services, Segment(st, th, env).After().services, env.newID)
  {
    hide Step, Commit;
    var mid, last := SegmentShape(st, th, env);
    var p := Step(mid, last, env);
    StepAppends(mid, last, env);
    if p.commits {
      CommitRaises(p.edited);
    }
  }

  predicate Known(st: State, s: Service) {
    exists u :: u in st.services && SameIdentity(u, s)
  }

  lemma NextKnows(s: Sys, l: Label, i: nat)
    requires Enabled(s, l) && i < |Next(s, l).council.services|
    ensures
      var v := Next(s, l).council.services[i];
      Known(s.council, v) || v.serviceID !in s.issued
  {
    hide Segment, CleanPass;
    var v := Next(s, l).council.services[i];
    match l
    case Run(t, env) =>
      SegmentAppends(s.council, s.threads[t], env);
      assert i < |s.council.services| ==> s.council.services[i] in s.council.services;
    case Clean =>
      CleanKeepsPlaces(s.council, s.clock - STALE_THRESHOLD_MILLIS);
      assert v in s.council.services;
    case _ => assert v in s.council.services;
  }

  /** Two council states agree on what an ID stands for. */
  predicate Agree(a: State, b: State) {
    forall s, t :: s in a.services && t in b.services && s.serviceID == t.serviceID ==> SameIdentity(s, t)
  }

  predicate IdentitySound(w: World) {
    && w.past != [] && Last(w.past) == w.sys.council && Core(w.sys.council, w.sys.issued)
    && (forall j, s :: 0 <= j < |w.past| && s in w.past[j].services ==> s.serviceID in w.sys.issued)
    && (forall j, k :: 0 <= j < |w.past| && 0 <= k < |w.past| ==> Agree(w.past[j], w.past[k]))
  }

  lemma CoreAgrees(st: State, issued: set<string>)
    requires Core(st, issued)
    ensures Agree(st, st)
  {
    hide Tidy, Hosted, DistinctNames, DistinctLings, DistinctKings;
    forall s, t | s in st.services && t in st.services && s.serviceID == t.serviceID ensures s == t {
      var a :| 0 <= a < |st.services| && st.services[a] == s;
      var b :| 0 <= b < |st.services| && st.services[b] == t;
    }
  }

  lemma NewStateAgrees(w: World, l: Label, j: nat)
    requires IdentitySound(w) && Enabled(w.sys, l) && j < |w.past|
    ensures Agree(w.past[j], Next(w.sys, l).council) && Agree(Next(w.sys, l).council, w.past[j])
  {
    hide Next, Core;
    var st := Next(w.sys, l).council;
    forall s, t | s in w.past[j].services && t in st.services && s.serviceID == t.serviceID ensures SameIdentity(s, t) {
      var i :| 0 <= i < |st.services| && st.services[i] == t;
      NextKnows(w.sys, l, i);
      assert Agree(w.past[j], w.past[|w.past| - 1]);
    }
  }

  lemma CouncilIdentity(w: World, l: Label)
    requires CanMove(w, CouncilMoves(l)) && IdentitySound(w)
    ensures IdentitySound(Moved(w, CouncilMoves(l)))
  {
    hide Segment, CleanPass, Core, Agree, Enabled;
    var v := Moved(w, CouncilMoves(l));
    NextKeepsCore(w.sys, l);
    assert w.sys.issued <= v.sys.issued;
    CoreAgrees(v.sys.council, v.sys.issued);
    CoreIssued(v.sys.council, v.sys.issued);
    forall j | 0 <= j < |w.past| ensures Agree(w.past[j], v.sys.council) && Agree(v.sys.council, w.past[j]) {
      NewStateAgrees(w, l, j);
    }
  }

  lemma CoreIssued(st: State, issued: set<string>)
    requires Core(st, issued)
    ensures forall s :: s in st.services ==> s.serviceID in issued
  {
    hide Tidy, Hosted, DistinctIDs, DistinctNames, DistinctLings, DistinctKings;
  }

  lemma {:induction false} IdentityEverywhere(ws: seq<World>, ms: seq<Move>, n: nat)
    requires WorldRun(ws, ms) && n < |ws|
    ensures IdentitySound(ws[n])
  {
    hide Next, Enabled, Core, Agree, Tokens, RegisterAll, UnregisterAll;
    if n == 0 {
      EmptyCore(ws[0].sys.issued);
      CoreAgrees(EMPTY, ws[0].sys.issued);
    } else {
      IdentityEverywhere(ws, ms, n - 1);
      if ms[n - 1].CouncilMoves? {
        CouncilIdentity(ws[n - 1], ms[n - 1].step);
      }
    }
  }

  lemma EmptyCore(issued: set<string>)
    ensures Core(EMPTY, issued)
  {
  }

  /** An ID stands for one service in a whole run: its name, token and ling never change, nor is it reused. */
  lemma IdentityStable(ws: seq<World>, ms: seq<Move>, n: nat, j: nat, k: nat, s: Service, t: Service)
    requires WorldRun(ws, ms) && n < |ws| && j < |ws[n].past| && k < |ws[n].past|
    requires s in ws[n].past[j].services && t in ws[n].past[k].services && s.serviceID == t.serviceID
    ensures SameIdentity(s, t)
  {
    hide WorldRun, Core;
    IdentityEverywhere(ws, ms, n);
    assert Agree(ws[n].past[j], ws[n].past[k]);
  }

  // ---------------------------------------------------------------- the theorem

  /** By the time of the j-th council state some king had registered a connection that presented the service's
      token; and that king had before updated its tunnel from an earlier council state, in which the service,
      under this token, was assigned to this tunnel's own address. */
  predicate ConnectionExplained(w: World, j: nat, id: string, token: string) {
    exists i :: 0 <= i < |w.log| && Explains(w, i, j, id, token)
  }

  predicate Explains(w: World, i: nat, j: nat, id: string, token: string)
    requires i < |w.log|
  {
    var r := w.log[i];
    r.Registered? && r.serviceID == id && r.token == token && r.at <= j && RegistrationSound(w, i)
  }

  /** In every council state of every run: a service that is king-ready had a connection registered, with its
      own token, by a king that had taken that token from a council state which assigned the service to it; a
      service that is ling-ready was king-ready, so explained, in an earlier council state. */
  lemma Readiness(ws: seq<World>, ms: seq<Move>, n: nat, j: nat, i: nat)
    requires WorldRun(ws, ms) && n < |ws| && j < |ws[n].past| && i < |ws[n].past[j].services|
    ensures
      var w, s := ws[n], ws[n].past[j].services[i];
      && (s.kingReady ==> ConnectionExplained(w, j, s.serviceID, s.token))
      && (s.lingReady ==>
           exists h :: 0 <= h < j && KingReadyIn(w.past[h], s.serviceID) &&
             ConnectionExplained(w, h, s.serviceID, s.token))
  {
    hide WorldRun, ConnectionExplained, IdentitySound, PeersSound, ReportsSound, LogSound;
    SoundEverywhere(ws, ms, n);
    IdentityEverywhere(ws, ms, n);
    var w, s := ws[n], ws[n].past[j].services[i];
    assert Accounted(w.past, w.log, j);
    if s.kingReady {
      ReadyExplained(w, j, i);
    }
    if s.lingReady {
      var h :| 0 <= h < j && h < |w.past| && KingReadyIn(w.past[h], s.serviceID);
      var u :| u in w.past[h].services && u.serviceID == s.serviceID && u.kingReady;
      var a :| 0 <= a < |w.past[h].services| && w.past[h].services[a] == u;
      ReadyExplained(w, h, a);
      IdentityStable(ws, ms, n, h, j, u, s);
    }
  }

  lemma ReadyExplained(w: World, j: nat, i: nat)
    requires Sound(w) && IdentitySound(w) && j < |w.past| && i < |w.past[j].services| && w.past[j].services[i].kingReady
    ensures ConnectionExplained(w, j, w.past[j].services[i].serviceID, w.past[j].services[i].token)
  {
    hide PeersSound, ReportsSound, WasKingReady, RegistrationSound, IdentitySound;
    var s := w.past[j].services[i];
    assert Accounted(w.past, w.log, j);
    var a :| 0 <= a < |w.log| && w.log[a].Registered? && w.log[a].serviceID == s.serviceID && w.log[a].at <= j;
    assert RegistrationSound(w, a);
    TokenMatches(w, a, j, s);
    assert Explains(w, a, j, s.serviceID, s.token);
  }

  lemma TokenMatches(w: World, a: nat, j: nat, s: Service)
    requires a < |w.log| && w.log[a].Registered? && RegistrationSound(w, a)
    requires IdentitySound(w) && j < |w.past| && s in w.past[j].services && s.serviceID == w.log[a].serviceID
    ensures s.token == w.log[a].token
  {
    hide Core, SameIdentity;
    var r := w.log[a];
    var b :| 0 <= b < a && b < |w.log| &&
      UpdateShows(w.past, w.log[b], r.at, r.king, r.host, r.bindPort, r.serviceID, r.token);
    TokenOfState(w, w.log[b].state, j, s, r.host, r.bindPort, r.token);
  }

  lemma TokenOfState(w: World, h: nat, j: nat, s: Service, host: string, bindPort: int, token: string)
    requires IdentitySound(w) && h < |w.past| && j < |w.past| && s in w.past[j].services
    requires AssignedIn(w.past[h], host, bindPort, s.serviceID, token)
    ensures s.token == token
  {
    hide Core;
    assert Agree(w.past[h], w.past[j]);
  }

  /** So whatever a proxy targets, from whatever council state it was told, is a service whose tunnel had come
      up in this way before both sides reported it ready. */
  lemma ProxyTargetsExplained(ws: seq<World>, ms: seq<Move>, n: nat, j: nat, name: string, location: Option<string>,
      t: L.ProxyTarget)
    returns (i: nat)
    requires WorldRun(ws, ms) && n < |ws| && j < |ws[n].past|
    requires t in L.Targets(ws[n].past[j].services, name, L.IndexKings(ws[n].past[j].kings), location)
    ensures i < |ws[n].past[j].services|
    ensures
      var s := ws[n].past[j].services[i];
      && s.name == name && s.host == Some(t.host) && s.remotePort == Some(t.remotePort)
      && exists h :: 0 <= h < j && ConnectionExplained(ws[n], h, s.serviceID, s.token)
  {
    hide WorldRun, ConnectionExplained, L.Targets, L.IndexKings;
    var st := ws[n].past[j];
    L.TargetsAre(st.services, st.kings, name, location, t);
    i :| 0 <= i < |st.services| && L.TargetOf(st.services[i], st.kings, name, location, t);
    Readiness(ws, ms, n, j, i);
  }
}
