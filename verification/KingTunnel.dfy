/** A king's tunnel server: which connection carries a service, and the drain signal its shutdown waits for. */
module KingTunnelServer {
  import opened Basics

  /** A connection, known by its identity only. */
  type Conn = int

  datatype ControlMessage = ControlMessage(serviceID: string, token: string)

  // ---------------------------------------------------------------- connections over a history

  /** A connection's whole registration, or its removal when it ends. */
  datatype Event = Register(ids: seq<string>, conn: Conn) | Unregister(ids: seq<string>, conn: Conn)

  function RegisterAll(conns: map<string, Conn>, ids: seq<string>, conn: Conn): map<string, Conn> {
    if ids == [] then conns else RegisterAll(conns, Front(ids), conn)[Last(ids) := conn]
  }

  function UnregisterAll(conns: map<string, Conn>, ids: seq<string>, conn: Conn): map<string, Conn> {
    if ids == [] then conns
    else
      var rest := UnregisterAll(conns, Front(ids), conn);
      if Last(ids) in rest && rest[Last(ids)] == conn then rest - {Last(ids)} else rest
  }

  function ApplyEvent(conns: map<string, Conn>, e: Event): map<string, Conn> {
    match e
    case Register(ids, conn) => RegisterAll(conns, ids, conn)
    case Unregister(ids, conn) => UnregisterAll(conns, ids, conn)
  }

  function Connections(history: seq<Event>): map<string, Conn> {
    if history == [] then map[] else ApplyEvent(Connections(Front(history)), Last(history))
  }

  lemma {:induction false} RegisterAllIs(conns: map<string, Conn>, ids: seq<string>, conn: Conn, id: string)
    ensures
      var r := RegisterAll(conns, ids, conn);
      if id in ids then id in r && r[id] == conn else (id in r <==> id in conns) && (id in r ==> r[id] == conns[id])
  {
    if ids != [] {
      RegisterAllIs(conns, Front(ids), conn, id);
      assert ids == Front(ids) + [Last(ids)];
    }
  }

  lemma {:induction false} UnregisterAllIs(conns: map<string, Conn>, ids: seq<string>, conn: Conn, id: string)
    ensures
      var r := UnregisterAll(conns, ids, conn);
      (id in r <==> id in conns && !(id in ids && conns[id] == conn)) && (id in r ==> r[id] == conns[id])
  {
    if ids != [] {
      UnregisterAllIs(conns, Front(ids), conn, id);
      assert ids == Front(ids) + [Last(ids)];
    }
  }

  /** The i-th event is the last one to register the service. */
  predicate LatestRegistration(history: seq<Event>, id: string, i: int) {
    && 0 <= i < |history| && history[i].Register? && id in history[i].ids
    && forall j :: i < j < |history| && history[j].Register? ==> id !in history[j].ids
  }

  /** No event from i on takes the service off the connection. */
  predicate StillOpen(history: seq<Event>, id: string, conn: Conn, i: int) {
    forall j :: 0 <= j < |history| && i < j && history[j].Unregister? && history[j].conn == conn ==>
      id !in history[j].ids
  }

  ghost predicate CarriedBy(history: seq<Event>, id: string, conn: Conn) {
    exists i :: LatestRegistration(history, id, i) && history[i].conn == conn && StillOpen(history, id, conn, i)
  }

  /** Over any history of registrations and removals, a service maps to exactly the latest connection to
      register it, while that connection has not unregistered it: a late removal of an older connection
      never takes a newer one away. */
  lemma {:induction false} ConnectionIsLatest(history: seq<Event>, id: string, conn: Conn)
    ensures (id in Connections(history) && Connections(history)[id] == conn) <==> CarriedBy(history, id, conn)
  {
    if history != [] {
      var front, e := Front(history), Last(history);
      ConnectionIsLatest(front, id, conn);
      match e {
        case Register(ids, c) =>
          RegisterAllIs(Connections(front), ids, c, id);
          if id in ids {
            assert LatestRegistration(history, id, |history| - 1);
          } else {
            CarriedSame(history, id, conn);
          }
        case Unregister(ids, c) =>
          UnregisterAllIs(Connections(front), ids, c, id);
          if id !in ids || c != conn {
            CarriedSame(history, id, conn);
          }
      }
    }
  }

  /** An event that does not concern the service and connection changes nothing for them. */
  lemma CarriedSame(history: seq<Event>, id: string, conn: Conn)
    requires history != []
    requires var e := Last(history); id !in e.ids || (e.Unregister? && e.conn != conn)
    ensures CarriedBy(history, id, conn) <==> CarriedBy(Front(history), id, conn)
  {
    var front := Front(history);
    assert forall j :: 0 <= j < |front| ==> front[j] == history[j];
    if i :| LatestRegistration(front, id, i) && front[i].conn == conn && StillOpen(front, id, conn, i) {
      assert LatestRegistration(history, id, i) && StillOpen(history, id, conn, i);
    }
    if i :| LatestRegistration(history, id, i) && history[i].conn == conn && StillOpen(history, id, conn, i) {
      assert i < |front|;
      assert LatestRegistration(front, id, i) && StillOpen(front, id, conn, i);
    }
  }

  // ---------------------------------------------------------------- the server

  class TunnelServer {
    /** Service ID to token. */
    var services: map<string, string>
    var quicConns: map<string, Conn>
    /** Remote port to the service its listener was started for. */
    var tcpListeners: map<int, string>
    /** The one-slot channel drainNotify holds a token. */
    var drainToken: bool

    constructor ()
      ensures services == map[] && quicConns == map[] && tcpListeners == map[] && !drainToken
    {
      services, quicConns, tcpListeners, drainToken := map[], map[], map[], false;
    }

    method UpdateServices(newServices: map<string, string>)
      modifies this`services
      ensures services == newServices
    {
      services := newServices;
    }

    /** All messages must carry the right token, or none of the services is accepted. */
    method AuthenticateMessages(messages: seq<ControlMessage>) returns (validIDs: seq<string>, ok: bool)
      ensures ok <==> forall i :: 0 <= i < |messages| ==>
        messages[i].serviceID in services && services[messages[i].serviceID] == messages[i].token
      ensures ok ==>
        |validIDs| == |messages| && forall i :: 0 <= i < |messages| ==> validIDs[i] == messages[i].serviceID
      ensures !ok ==> validIDs == []
    {
      validIDs := [];
      for i := 0 to |messages|
        invariant |validIDs| == i
        invariant forall j :: 0 <= j < i ==>
          && messages[j].serviceID in services && services[messages[j].serviceID] == messages[j].token
          && validIDs[j] == messages[j].serviceID
      {
        var msg := messages[i];
        if msg.serviceID !in services || services[msg.serviceID] != msg.token {
          return [], false;
        }
        validIDs := validIDs + [msg.serviceID];
      }
      ok := true;
    }

    method RegisterConnections(ids: seq<string>, conn: Conn)
      modifies this`quicConns
      ensures quicConns == ApplyEvent(old(quicConns), Register(ids, conn))
    {
      for i := 0 to |ids|
        invariant quicConns == RegisterAll(old(quicConns), ids[..i], conn)
      {
        assert Front(ids[..i + 1]) == ids[..i];
        quicConns := quicConns[ids[i] := conn];
      }
      assert ids[..|ids|] == ids;
    }

    /** The locked half of unregisterConnections: it reports whether the map is now empty. */
    method DeleteConnections(ids: seq<string>, conn: Conn) returns (empty: bool)
      modifies this`quicConns
      ensures quicConns == ApplyEvent(old(quicConns), Unregister(ids, conn))
      ensures empty <==> quicConns == map[]
    {
      for i := 0 to |ids|
        invariant quicConns == UnregisterAll(old(quicConns), ids[..i], conn)
      {
        assert Front(ids[..i + 1]) == ids[..i];
        if ids[i] in quicConns && quicConns[ids[i]] == conn {
          quicConns := quicConns - {ids[i]};
        }
      }
      assert ids[..|ids|] == ids;
      empty := |quicConns| == 0;
    }

    /** The unlocked half: a send that gives up when the slot is taken. */
    method SignalDrain(empty: bool)
      modifies this`drainToken
      ensures drainToken == (old(drainToken) || empty)
    {
      if empty && !drainToken {
        drainToken := true;
      }
    }

    /** One turn of waitForDrain: it looks at the map, and is done or has to block. */
    method LookDrained() returns (waiter: Waiter)
      ensures waiter == (if quicConns == map[] then Drained else Blocked)
    {
      var empty := |quicConns| == 0;
      waiter := if empty then Drained else Blocked;
    }
  }

  // ---------------------------------------------------------------- the drain protocol

  /** The one waiter: about to look at the map, blocked on the channel, or done. */
  datatype Waiter = Checking | Blocked | Drained

  /** pendingSends counts the unregisters that saw an empty map and have their send still to do. */
  datatype Drain = Drain(conns: map<string, Conn>, token: bool, pendingSends: nat, waiter: Waiter)

  datatype DrainStep = Event(event: Event) | Send | Check | Receive | Cancel

  predicate DrainEnabled(d: Drain, s: DrainStep) {
    match s
    case Event(_) => true
    case Send => d.pendingSends > 0
    case Check => d.waiter.Checking?
    case Receive => d.waiter.Blocked? && d.token
    case Cancel => d.waiter.Blocked?
  }

  function DrainNext(d: Drain, s: DrainStep): Drain
    requires DrainEnabled(d, s)
  {
    match s
    case Event(e) =>
      var conns := ApplyEvent(d.conns, e);
      d.(conns := conns, pendingSends := d.pendingSends + if e.Unregister? && conns == map[] then 1 else 0)
    case Send => d.(token := true, pendingSends := d.pendingSends - 1)
    case Check => d.(waiter := if d.conns == map[] then Drained else Blocked)
    case Receive => d.(token := false, waiter := Checking)
    case Cancel => d.(waiter := Drained)
  }

  ghost predicate DrainRun(ds: seq<Drain>, steps: seq<DrainStep>) {
    && |ds| == |steps| + 1
    && ds[0].waiter.Checking?
    && forall i :: 0 <= i < |steps| ==> DrainEnabled(ds[i], steps[i]) && ds[i + 1] == DrainNext(ds[i], steps[i])
  }

  lemma RegisterNeverEmpties(conns: map<string, Conn>, ids: seq<string>, conn: Conn)
    ensures RegisterAll(conns, ids, conn) == map[] ==> conns == map[]
  {
    if id :| id in conns {
      RegisterAllIs(conns, ids, conn, id);
    }
  }

  /** In every interleaving of registrations, locked deletes, their later sends, and the waiter: a blocked
      waiter whose map has become empty has its wakeup in the channel or on its way. */
  lemma {:induction false} DrainNeverLosesWakeup(ds: seq<Drain>, steps: seq<DrainStep>, n: nat)
    requires DrainRun(ds, steps) && n < |ds|
    ensures ds[n].waiter.Blocked? && ds[n].conns == map[] ==> ds[n].token || ds[n].pendingSends > 0
  {
    if n > 0 {
      DrainNeverLosesWakeup(ds, steps, n - 1);
      match steps[n - 1]
      case Event(e) =>
        if e.Register? {
          RegisterNeverEmpties(ds[n - 1].conns, e.ids, e.conn);
        }
      case _ =>
    }
  }

  /** A drain waits: the waiter is done exactly when it was cancelled or has looked at an empty map. A look at a map
      with connections leaves it blocked, until a token is received or it is cancelled. */
  lemma {:induction false} DrainedIff(ds: seq<Drain>, steps: seq<DrainStep>, n: nat)
    requires DrainRun(ds, steps) && n < |ds|
    ensures ds[n].waiter.Drained? <==>
      exists i :: 0 <= i < n && (steps[i].Cancel? || (steps[i].Check? && ds[i].conns == map[]))
    ensures n > 0 && steps[n - 1].Check? && ds[n - 1].conns != map[] ==> ds[n].waiter.Blocked?
    ensures n > 0 && ds[n - 1].waiter.Blocked? && !ds[n].waiter.Blocked? ==>
      steps[n - 1].Cancel? || (steps[n - 1].Receive? && ds[n - 1].token)
  {
    if n > 0 {
      DrainedIff(ds, steps, n - 1);
    }
  }

  predicate Empties(ds: seq<Drain>, steps: seq<DrainStep>, i: nat)
    requires i < |steps| && |ds| == |steps| + 1
  {
    steps[i].Event? && steps[i].event.Unregister? && ds[i + 1].conns == map[]
  }

  /** How many of the first n steps were unregisters that left the map empty; how many were sends that found a token
      there already, and so were dropped; and how many woke the waiter up. */
  function Emptied(ds: seq<Drain>, steps: seq<DrainStep>, n: nat): nat
    requires n <= |steps| && |ds| == |steps| + 1
  {
    if n == 0 then 0 else Emptied(ds, steps, n - 1) + if Empties(ds, steps, n - 1) then 1 else 0
  }

  function Dropped(ds: seq<Drain>, steps: seq<DrainStep>, n: nat): nat
    requires n <= |steps| && |ds| == |steps| + 1
  {
    if n == 0 then 0 else Dropped(ds, steps, n - 1) + if steps[n - 1].Send? && ds[n - 1].token then 1 else 0
  }

  function Woken(steps: seq<DrainStep>, n: nat): nat
    requires n <= |steps|
  {
    if n == 0 then 0 else Woken(steps, n - 1) + if steps[n - 1].Receive? then 1 else 0
  }

  /** No wakeup comes from nowhere and none is lost: each unregister that emptied the map woke the waiter up, is in the
      channel, has its send still to do, or found the channel full. */
  lemma {:induction false} WakeupsAccounted(ds: seq<Drain>, steps: seq<DrainStep>, n: nat)
    requires DrainRun(ds, steps) && n < |ds| && !ds[0].token && ds[0].pendingSends == 0
    ensures Emptied(ds, steps, n) ==
      Woken(steps, n) + Dropped(ds, steps, n) + ds[n].pendingSends + if ds[n].token then 1 else 0
  {
    if n > 0 {
      WakeupsAccounted(ds, steps, n - 1);
    }
  }

  /** So a waiter is never stuck: once the map is empty, at most one send, one receive and one check away,
      it is done, with no cancellation and no further event. */
  lemma DrainCompletes(ds: seq<Drain>, steps: seq<DrainStep>, n: nat) returns (rest: seq<DrainStep>, d: Drain)
    requires DrainRun(ds, steps) && n < |ds| && ds[n].waiter.Blocked? && ds[n].conns == map[]
    ensures |rest| <= 3 && (forall i :: 0 <= i < |rest| ==> rest[i].Send? || rest[i].Receive? || rest[i].Check?)
    ensures DrainsTo(ds[n], rest, d) && d.waiter.Drained?
  {
    DrainNeverLosesWakeup(ds, steps, n);
    var s := ds[n];
    if s.token {
      rest := [Receive, Check];
      d := DrainNext(DrainNext(s, Receive), Check);
      assert rest[1..] == [Check] && [Check][1..] == [];
      assert DrainsTo(DrainNext(s, Receive), [Check], d);
    } else {
      rest := [Send, Receive, Check];
      var s1 := DrainNext(s, Send);
      var s2 := DrainNext(s1, Receive);
      d := DrainNext(s2, Check);
      assert rest[1..] == [Receive, Check] && [Receive, Check][1..] == [Check] && [Check][1..] == [];
      assert DrainsTo(s2, [Check], d);
      assert DrainsTo(s1, [Receive, Check], d);
    }
  }

  predicate DrainsTo(d: Drain, steps: seq<DrainStep>, to: Drain)
    decreases |steps|
  {
    if steps == [] then d == to
    else DrainEnabled(d, steps[0]) && DrainsTo(DrainNext(d, steps[0]), steps[1..], to)
  }
}
