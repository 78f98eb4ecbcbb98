/** Runs whose timers fire on time, and the bounds in milliseconds that hold in them. */
module Timing {
  import opened Base
  import opened Codec
  import opened Totp
  import opened Selection
  import opened Session
  import opened Window
  import opened Protocol
  import opened Safety
  import opened Theorems

  // The pause after a heartbeat pass: 333 ms and a random part below 333 ms.
  const PAUSE_MIN := TOTP_STEP * 2 / 3
  const PAUSE_MAX := PAUSE_MIN + PAUSE_MIN - 1

  // ---------------------------------------------------------------- timely runs

  /** A process that has not opened a worker yet. */
  predicate Idle(z: Setup, node: Node) {
    node.workers == map[] && node.heard == NoneHeard(z)
  }

  /** The clock may move on to `now`: no pass is late, and none is outstanding after a start. */
  predicate PassInTime(z: Setup, node: Node, now: nat) {
    if node.passed.None? then Idle(z, node) else now <= node.passed.value + PAUSE_MAX
  }

  /** No client worker is left open past its deadline, and every path hops before its active worker is
      LIFETIME old. */
  predicate HopsInTime(z: Setup, w: World, now: nat)
    requires WellFormed(z, w)
  {
    && (forall a :: a in w.client.workers ==> now <= w.client.workers[a].deadline)
    && (forall p :: 0 <= p < |z.conf| && w.client.ctx.paths[p].sock.Some? && w.client.ctx.paths[p].sock.value in w.issued ==>
          now < w.issued[w.client.ctx.paths[p].sock.value].deadline)
  }

  /** A path hops again no sooner than a step after its last hop, when its expired workers have closed. */
  predicate HopDue(z: Setup, w: World, p: nat)
    requires WellFormed(z, w) && p < |z.conf|
  {
    var sock := w.client.ctx.paths[p].sock;
    && (sock.Some? && sock.value in w.issued ==> w.issued[sock.value].deadline - LIFETIME + TOTP_STEP <= w.now)
    && (forall a :: a in w.client.workers && w.client.workers[a].path == p ==> w.now < w.client.workers[a].deadline)
  }

  /** Steps that respect the timers of both processes. */
  predicate Timely(z: Setup, w: World, step: Step)
    requires WellFormed(z, w) && Enabled(z, w, step)
  {
    match step
    case Tick(ms) =>
      ms > 0 ==> PassInTime(z, w.client, w.now + ms) && PassInTime(z, w.server, w.now + ms) && HopsInTime(z, w, w.now + ms)
    case Beat(side, round) =>
      && (NodeOf(w, side).passed.Some? ==> NodeOf(w, side).passed.value + PAUSE_MIN <= w.now)
      && forall p :: 0 <= p < |z.conf| ==> ReadInTime(round.clocks[p], w.now + Skew(z, side))
    case Hop(p, _) => HopDue(z, w, p)
    case _ => true
  }

  ghost predicate TimelyRun(z: Setup, ws: seq<World>, steps: seq<Step>) {
    Run(z, ws, steps) && forall i :: 0 <= i < |steps| ==> Timely(z, ws[i], steps[i])
  }

  /** A single timely step. */
  ghost predicate TimelyTo(z: Setup, w: World, step: Step, v: World) {
    WellFormed(z, w) && Enabled(z, w, step) && Timely(z, w, step) && v == Apply(z, w, step)
  }

  // ---------------------------------------------------------------- the invariant of time

  /** Two workers of one path were opened a step or more, but less than LIFETIME, apart. */
  predicate Spaced(d: nat, e: nat) {
    (d + TOTP_STEP <= e || e + TOTP_STEP <= d) && d < e + LIFETIME && e < d + LIFETIME
  }

  /** The active worker of a path is open, younger than LIFETIME, and the youngest of its path. */
  predicate ActiveOK(w: World, p: nat, sock: Option<Addr>) {
    sock.Some? ==>
      && sock.value in w.client.workers && w.now < w.client.workers[sock.value].deadline
      && forall a :: a in w.client.workers && w.client.workers[a].path == p ==>
           w.client.workers[a].deadline <= w.client.workers[sock.value].deadline
  }

  ghost predicate WorkersOK(z: Setup, w: World) {
    && |w.client.ctx.paths| == |z.conf|
    && (forall a :: a in w.client.workers ==> w.now <= w.client.workers[a].deadline)
    && (forall p :: 0 <= p < |z.conf| ==> ActiveOK(w, p, w.client.ctx.paths[p].sock))
    && (forall a, b :: a in w.client.workers && b in w.client.workers && a != b ==>
          w.client.workers[a].path != w.client.workers[b].path ||
          Spaced(w.client.workers[a].deadline, w.client.workers[b].deadline))
  }

  /** When a path last accepted a datagram, in terms of the passes since: the first of k passes comes at once or
      later, the others PAUSE_MIN to PAUSE_MAX after one another. */
  predicate HeardTime(now: nat, passed: Option<nat>, heard: Option<Heard>) {
    heard.Some? ==>
      var at, k := heard.value.at, heard.value.passes;
      && at <= now
      && (k == 0 ==> if passed.Some? then passed.value <= at else at == now)
      && (k > 0 ==> passed.Some? && at + 333 * (k - 1) <= passed.value <= at + 665 * k)
  }

  ghost predicate PassesOK(z: Setup, w: World, side: Mode) {
    var node := NodeOf(w, side);
    && |node.heard| == |z.conf|
    && (node.passed.Some? ==> node.passed.value <= w.now <= node.passed.value + PAUSE_MAX)
    && forall p :: 0 <= p < |z.conf| ==> HeardTime(w.now, node.passed, node.heard[p])
  }

  /** The pool of a path: all zero before the first pass, and afterwards what the last pass left, with 0 in the
      slot that is never written. */
  ghost predicate PoolsOK(z: Setup, w: World, side: Mode) {
    var node := NodeOf(w, side);
    && |node.ctx.paths| == |z.conf|
    && (node.passed.Some? ==> ValidClocks(node.clocks, |z.conf|))
    && forall p :: 0 <= p < |z.conf| ==> PoolOK(z, node.passed, node.clocks, side, p, node.ctx.paths[p].pool)
  }

  ghost predicate PoolOK(z: Setup, passed: Option<nat>, clocks: seq<seq<nat>>, side: Mode, p: nat, pool: seq<int>)
    requires p < |z.conf| && (passed.Some? ==> ValidClocks(clocks, |z.conf|))
  {
    if passed.None? then pool == NoTokens()
    else
      && ReadInTime(clocks[p], passed.value + Skew(z, side))
      && pool == Refill(z.lib, z.conf[p].portRange, clocks[p], NoTokens())
  }

  /** A datagram of the client left while its worker was the active one. */
  predicate SentInTime(w: World, f: Flight) {
    f.from == Client && f.sent.src in w.issued ==>
      w.issued[f.sent.src].deadline <= f.at + LIFETIME && f.at < w.issued[f.sent.src].deadline
  }

  ghost predicate SendsOK(w: World) {
    forall f :: f in w.net ==> SentInTime(w, f)
  }

  ghost predicate TimeInv(z: Setup, w: World) {
    && WorkersOK(z, w) && SendsOK(w)
    && PassesOK(z, w, Client) && PassesOK(z, w, Server)
    && PoolsOK(z, w, Client) && PoolsOK(z, w, Server)
  }

  lemma StartTime(z: Setup)
    requires ValidSetup(z)
    ensures TimeInv(z, Start(z))
  {
  }

  // ---------------------------------------------------------------- pools

  lemma RefillTwice(lib: Library, range: nat, clock: seq<nat>, pool: seq<int>)
    requires |clock| == READINGS && |pool| == POOL && pool[1] == 0
    ensures Refill(lib, range, clock, pool) == Refill(lib, range, clock, NoTokens())
    ensures Refill(lib, range, clock, pool)[1] == 0
  {
    hide Token;
  }

  lemma BeatPools(z: Setup, w: World, side: Mode, round: Round)
    requires PoolsOK(z, w, side) && WellFormed(z, w) && Enabled(z, w, Beat(side, round)) && Timely(z, w, Beat(side, round))
    ensures PoolsOK(z, AfterBeat(z, w, side, round), side)
  {
    hide Refill, Heartbeats, Aged, WellFormed, ReadInTime;
    var v, node := AfterBeat(z, w, side, round), NodeOf(w, side);
    forall p | 0 <= p < |z.conf| ensures PoolOK(z, Some(w.now), round.clocks, side, p, NodeOf(v, side).ctx.paths[p].pool) {
      assert PoolOK(z, node.passed, node.clocks, side, p, node.ctx.paths[p].pool);
      if node.passed.Some? {
        RefillTwice(z.lib, z.conf[p].portRange, node.clocks[p], NoTokens());
      }
      assert node.ctx.paths[p].pool[1] == 0;
      RefillTwice(z.lib, z.conf[p].portRange, round.clocks[p], node.ctx.paths[p].pool);
    }
  }

  lemma DeliverPools(z: Setup, w: World, side: Mode, f: Flight, stale: seq<byte>)
    requires PoolsOK(z, w, side) && WellFormed(z, w) && Enabled(z, w, Deliver(side, f, stale))
    ensures PoolsOK(z, AfterDeliver(z, w, side, f, stale), side)
  {
    hide Refill, Decap, Buffer, Received;
  }

  lemma TunPools(z: Setup, w: World, side: Mode, payload: seq<byte>, salt: Salt)
    requires PoolsOK(z, w, side) && WellFormed(z, w) && Enabled(z, w, Tun(side, payload, salt))
    ensures PoolsOK(z, AfterTun(z, w, side, payload, salt), side)
  {
    hide Refill, Pick, Emit, ValidSent;
  }

  /** Steps other than a pass of this end leave its pools alone, or boot it. */
  lemma StepPools(z: Setup, w: World, step: Step, side: Mode)
    requires PoolsOK(z, w, side) && WellFormed(z, w) && Enabled(z, w, step) && Timely(z, w, step)
    ensures PoolsOK(z, Apply(z, w, step), side)
  {
    hide Refill, Token, AfterBeat, AfterDeliver, AfterTun, IsEndpoint, Pick, ValidSent;
    if Actor(step) != Some(side) {
      Bystander(z, w, step, side);
    } else {
      match step
      case Beat(_, round) => BeatPools(z, w, side, round);
      case Deliver(_, f, stale) => DeliverPools(z, w, side, f, stale);
      case Tun(_, payload, salt) => TunPools(z, w, side, payload, salt);
      case Restart(_) =>
      case Hop(_, _) =>
      case Listen(_, _) =>
      case Close(_) =>
    }
  }

  /** Whose process makes a step; the clock's is nobody's. */
  function Actor(step: Step): Option<Mode> {
    match step
    case Hop(_, _) => Some(Client)
    case Listen(_, _) => Some(Server)
    case Close(_) => Some(Client)
    case Deliver(side, _, _) => Some(side)
    case Beat(side, _) => Some(side)
    case Tun(side, _, _) => Some(side)
    case Tick(_) => None
    case Restart(side) => Some(side)
  }

  lemma Bystander(z: Setup, w: World, step: Step, side: Mode)
    requires WellFormed(z, w) && Enabled(z, w, step) && Actor(step) != Some(side)
    ensures NodeOf(Apply(z, w, step), side) == NodeOf(w, side)
    ensures step.Tick? || Apply(z, w, step).now == w.now
  {
    hide Arrival, WellFormed, Enabled, Heartbeats, Pass, Aged, Emit, Choose, StartClient, StartServer, Booted;
  }

  // ---------------------------------------------------------------- passes

  lemma BeatPasses(z: Setup, w: World, side: Mode, round: Round)
    requires PassesOK(z, w, side) && WellFormed(z, w) && Enabled(z, w, Beat(side, round))
    requires Timely(z, w, Beat(side, round))
    ensures PassesOK(z, AfterBeat(z, w, side, round), side)
  {
    hide WellFormed, Enabled, Heartbeats, Pass, HeardTime;
    var node := NodeOf(w, side);
    forall p | 0 <= p < |z.conf| ensures HeardTime(w.now, Some(w.now), Aged(node.heard)[p]) {
      HeardLater(w.now, node.passed, node.heard[p]);
    }
  }

  /** One more pass, in time. */
  lemma HeardLater(now: nat, passed: Option<nat>, heard: Option<Heard>)
    requires HeardTime(now, passed, heard)
    requires passed.Some? ==> passed.value + PAUSE_MIN <= now <= passed.value + PAUSE_MAX
    ensures HeardTime(now, Some(now), Aged([heard])[0])
  {
    assert PAUSE_MIN == 333 && PAUSE_MAX == 665;
  }

  lemma TickPasses(z: Setup, w: World, ms: nat, side: Mode)
    requires PassesOK(z, w, side) && WellFormed(z, w) && Timely(z, w, Tick(ms))
    ensures PassesOK(z, Apply(z, w, Tick(ms)), side)
  {
    hide WellFormed;
    var node := NodeOf(w, side);
    forall p | 0 <= p < |z.conf| ensures HeardTime(w.now + ms, node.passed, node.heard[p]) {
      assert HeardTime(w.now, node.passed, node.heard[p]);
    }
  }

  lemma DeliverPasses(z: Setup, w: World, side: Mode, f: Flight, stale: seq<byte>)
    requires PassesOK(z, w, side) && WellFormed(z, w) && Enabled(z, w, Deliver(side, f, stale))
    ensures PassesOK(z, AfterDeliver(z, w, side, f, stale), side)
  {
    hide Arrival;
  }

  lemma StepPasses(z: Setup, w: World, step: Step, side: Mode)
    requires PassesOK(z, w, side) && WellFormed(z, w) && Enabled(z, w, step) && Timely(z, w, step)
    ensures PassesOK(z, Apply(z, w, step), side)
  {
    hide AfterBeat, AfterDeliver, IsEndpoint, Token, Choose, Emit, Timely, WellFormed, HeardTime;
    BootedTimes(z, w.now);
    if step.Tick? {
      TickPasses(z, w, step.ms, side);
    } else if Actor(step) != Some(side) {
      Bystander(z, w, step, side);
    } else {
      match step
      case Beat(_, round) => BeatPasses(z, w, side, round);
      case Deliver(_, f, stale) => DeliverPasses(z, w, side, f, stale);
      case Tun(_, payload, salt) =>
      case Restart(_) =>
      case Hop(_, _) =>
      case Listen(_, _) =>
      case Close(_) =>
    }
  }

  lemma BootedTimes(z: Setup, now: nat)
    ensures forall passed :: HeardTime(now, passed, None)
  {
  }

  // ---------------------------------------------------------------- client workers

  /** Workers and sockets of the client are as before, or there are none. */
  ghost predicate SocketsKept(z: Setup, w: World, v: World) {
    && v.now == w.now && |v.client.ctx.paths| == |z.conf| == |w.client.ctx.paths|
    && if v.client.workers == map[] then forall p :: 0 <= p < |z.conf| ==> v.client.ctx.paths[p].sock == None
       else v.client.workers == w.client.workers &&
            forall p :: 0 <= p < |z.conf| ==> v.client.ctx.paths[p].sock == w.client.ctx.paths[p].sock
  }

  lemma KeptWorkers(z: Setup, w: World, v: World)
    requires WorkersOK(z, w) && SocketsKept(z, w, v)
    ensures WorkersOK(z, v)
  {
    hide Spaced;
    forall p | 0 <= p < |z.conf| ensures ActiveOK(v, p, v.client.ctx.paths[p].sock) {
      assert ActiveOK(w, p, w.client.ctx.paths[p].sock);
    }
  }

  /** A new worker is a step or more, but less than LIFETIME, younger than the others of its path. */
  lemma HopSpaced(z: Setup, w: World, p: nat, local: Addr)
    requires WorkersOK(z, w) && ClientOK(z, w) && WellFormed(z, w) && Enabled(z, w, Hop(p, local)) && Timely(z, w, Hop(p, local))
    ensures local !in w.client.workers
    ensures forall a :: a in w.client.workers && w.client.workers[a].path == p ==>
              && w.client.workers[a].deadline <= w.now + LIFETIME
              && Spaced(w.client.workers[a].deadline, w.now + LIFETIME) && Spaced(w.now + LIFETIME, w.client.workers[a].deadline)
  {
    hide Token, IsEndpoint, NodeOK, ClientPathOK, WellFormed;
    assert ActiveOK(w, p, w.client.ctx.paths[p].sock);
  }

  lemma HopWorkers(z: Setup, w: World, p: nat, local: Addr)
    requires WorkersOK(z, w) && ClientOK(z, w) && WellFormed(z, w) && Enabled(z, w, Hop(p, local)) && Timely(z, w, Hop(p, local))
    ensures WorkersOK(z, AfterHop(z, w, p, local))
  {
    hide Token, IsEndpoint, NodeOK, ClientPathOK, WellFormed, Enabled, HopDue, Spaced;
    var v := AfterHop(z, w, p, local);
    assert |w.client.ctx.paths| == |v.client.ctx.paths|;
    HopSpaced(z, w, p, local);
    forall q | 0 <= q < |z.conf| ensures ActiveOK(v, q, v.client.ctx.paths[q].sock) {
      assert ActiveOK(w, q, w.client.ctx.paths[q].sock);
    }
  }

  lemma CloseWorkers(z: Setup, w: World, local: Addr)
    requires WorkersOK(z, w) && ClientOK(z, w) && WellFormed(z, w) && Enabled(z, w, Close(local))
    ensures WorkersOK(z, Apply(z, w, Close(local)))
  {
    hide NodeOK, ClientPathOK, WellFormed, Spaced, AfterBeat, AfterDeliver, AfterTun, AfterHop, AfterListen;
    var v := Apply(z, w, Close(local));
    forall q | 0 <= q < |z.conf| ensures ActiveOK(v, q, v.client.ctx.paths[q].sock) {
      assert ActiveOK(w, q, w.client.ctx.paths[q].sock);
    }
  }

  lemma TickWorkers(z: Setup, w: World, ms: nat)
    requires WorkersOK(z, w) && ClientOK(z, w) && WellFormed(z, w) && Timely(z, w, Tick(ms))
    ensures WorkersOK(z, Apply(z, w, Tick(ms)))
  {
    hide NodeOK, ClientPathOK, WellFormed, Spaced, PassInTime;
    var v := Apply(z, w, Tick(ms));
    forall q | 0 <= q < |z.conf| ensures ActiveOK(v, q, v.client.ctx.paths[q].sock) {
      assert ActiveOK(w, q, w.client.ctx.paths[q].sock);
    }
  }

  lemma BeatSockets(z: Setup, w: World, round: Round)
    requires WellFormed(z, w) && Enabled(z, w, Beat(Client, round)) && w.client.workers != map[]
    ensures SocketsKept(z, w, AfterBeat(z, w, Client, round))
  {
    hide Refill, Heartbeats, ValidSent;
  }

  lemma DeliverSockets(z: Setup, w: World, f: Flight, stale: seq<byte>)
    requires WellFormed(z, w) && Enabled(z, w, Deliver(Client, f, stale))
    ensures SocketsKept(z, w, AfterDeliver(z, w, Client, f, stale))
  {
    hide Decap, Buffer, Received, ValidSent;
  }

  lemma TunSockets(z: Setup, w: World, payload: seq<byte>, salt: Salt)
    requires WellFormed(z, w) && Enabled(z, w, Tun(Client, payload, salt)) && w.client.workers != map[]
    ensures SocketsKept(z, w, AfterTun(z, w, Client, payload, salt))
  {
    hide Pick, Emit, ValidSent;
  }

  lemma NoSockets(z: Setup, w: World, step: Step)
    requires WellFormed(z, w) && Enabled(z, w, step) && (step.Beat? || step.Tun?) && step.side == Client
    requires w.client.workers == map[] && forall p :: 0 <= p < |z.conf| ==> w.client.ctx.paths[p].sock == None
    ensures SocketsKept(z, w, Apply(z, w, step))
  {
    hide Refill, Heartbeats, Pick, Emit, ValidSent, AfterDeliver, AfterHop, AfterListen;
  }

  /** The client's other steps do not touch its sockets, unless it is booted. */
  lemma ClientSockets(z: Setup, w: World, step: Step)
    requires WellFormed(z, w) && Enabled(z, w, step) && !step.Hop? && !step.Close? && !step.Tick?
    requires |w.client.ctx.paths| == |z.conf|
    requires w.client.workers == map[] ==> forall p :: 0 <= p < |z.conf| ==> w.client.ctx.paths[p].sock == None
    ensures SocketsKept(z, w, Apply(z, w, step))
  {
    hide AfterBeat, AfterDeliver, AfterTun, AfterHop, AfterListen, IsEndpoint, ValidSent, Token;
    if Actor(step) != Some(Client) {
      Bystander(z, w, step, Client);
    } else if w.client.workers == map[] && !step.Deliver? && !step.Restart? {
      NoSockets(z, w, step);
    } else {
      match step
      case Beat(_, round) => BeatSockets(z, w, round);
      case Deliver(_, f, stale) => DeliverSockets(z, w, f, stale);
      case Tun(_, payload, salt) => TunSockets(z, w, payload, salt);
      case Restart(_) =>
    }
  }

  lemma StepWorkers(z: Setup, w: World, step: Step)
    requires WorkersOK(z, w) && ClientOK(z, w) && WellFormed(z, w) && Enabled(z, w, step) && Timely(z, w, step)
    ensures WorkersOK(z, Apply(z, w, step))
  {
    hide AfterBeat, AfterDeliver, AfterTun, AfterHop, AfterListen, Timely, ClientOK, WellFormed, IsEndpoint;
    match step
    case Hop(p, local) => HopWorkers(z, w, p, local);
    case Close(local) => CloseWorkers(z, w, local);
    case Tick(ms) => TickWorkers(z, w, ms);
    case _ =>
      NoWorkersNoSockets(z, w);
      ClientSockets(z, w, step);
      KeptWorkers(z, w, Apply(z, w, step));
  }

  lemma NoWorkersNoSockets(z: Setup, w: World)
    requires WorkersOK(z, w)
    ensures |w.client.ctx.paths| == |z.conf|
    ensures w.client.workers == map[] ==> forall p :: 0 <= p < |z.conf| ==> w.client.ctx.paths[p].sock == None
  {
    forall p | 0 <= p < |z.conf| && w.client.workers == map[] ensures w.client.ctx.paths[p].sock == None {
      assert ActiveOK(w, p, w.client.ctx.paths[p].sock);
    }
  }

  // ---------------------------------------------------------------- datagrams of the client

  /** The client's active socket sends in time. */
  lemma ActiveSends(z: Setup, w: World, p: nat, payload: seq<byte>, salt: Salt)
    requires WorkersOK(z, w) && ClientOK(z, w) && IssuesOK(z, w) && p < |z.conf| && w.client.ctx.paths[p].sock.Some?
    ensures SentInTime(w, Flight(Through(z.clientMtu, w.client.ctx.paths[p], payload, salt), Client, w.now))
  {
    hide Token, IsEndpoint, NodeOK, ClientPathOK;
    var sock := w.client.ctx.paths[p].sock;
    assert ActiveOK(w, p, sock);
    assert IssuedOK(z, w.now, sock.value, w.issued[sock.value]);
  }

  lemma KeptSends(z: Setup, w: World, v: World)
    requires SendsOK(w) && NetOK(z, w) && v.net <= w.net
    requires forall a :: a in w.issued ==> a in v.issued && v.issued[a] == w.issued[a]
    ensures SendsOK(v)
  {
    forall f | f in v.net ensures SentInTime(v, f) {
      assert SentInTime(w, f) && FlightOK(z, w, f);
    }
  }

  lemma BeatSends(z: Setup, w: World, side: Mode, round: Round)
    requires SendsOK(w) && WorkersOK(z, w) && Inv(z, w) && WellFormed(z, w) && Enabled(z, w, Beat(side, round))
    ensures SendsOK(AfterBeat(z, w, side, round))
  {
    hide WellFormed, WorkersOK, IssuesOK, ClientOK, ServerOK, NetOK, Pass, Aged;
    var v := AfterBeat(z, w, side, round);
    EndsMtu(z, w, side);
    forall f | f in Heartbeats(z, w, side, round) ensures SentInTime(w, f) {
      if side == Client {
        var p :| 0 <= p < |z.conf| && Beats(side, w.client.ctx.paths[p]) &&
                 f == Flight(Through(Mtu(z, side), w.client.ctx.paths[p], [], round.salts[p]), side, w.now);
        ActiveSends(z, w, p, [], round.salts[p]);
      }
    }
    forall f | f in v.net ensures SentInTime(v, f) {
      assert SentInTime(w, f);
    }
  }

  lemma TunSends(z: Setup, w: World, side: Mode, payload: seq<byte>, salt: Salt)
    requires SendsOK(w) && WorkersOK(z, w) && Inv(z, w) && WellFormed(z, w) && Enabled(z, w, Tun(side, payload, salt))
    ensures SendsOK(AfterTun(z, w, side, payload, salt))
  {
    hide WorkersOK, IssuesOK, ClientOK, ServerOK, NetOK, Pick;
    EndsMtu(z, w, side);
    var v := AfterTun(z, w, side, payload, salt);
    forall f | f in v.net ensures SentInTime(v, f) {
      if f in w.net {
        assert SentInTime(w, f);
      } else if side == Client {
        ActiveSends(z, w, Choose(w.client.ctx, z.conf).cursor, payload, salt);
      }
    }
  }

  lemma StepSends(z: Setup, w: World, step: Step)
    requires SendsOK(w) && WorkersOK(z, w) && Inv(z, w) && WellFormed(z, w) && Enabled(z, w, step)
    ensures SendsOK(Apply(z, w, step))
  {
    hide AfterBeat, AfterTun, Arrival, WellFormed, IsEndpoint, WorkersOK, IssuesOK, ClientOK, ServerOK, NetOK, SendsOK,
         StartClient, StartServer, Booted;
    match step
    case Beat(side, round) => BeatSends(z, w, side, round);
    case Tun(side, payload, salt) => TunSends(z, w, side, payload, salt);
    case _ => KeptSends(z, w, Apply(z, w, step));
  }

  // ---------------------------------------------------------------- theorems

  lemma {:induction false} TimelyInv(z: Setup, ws: seq<World>, steps: seq<Step>, i: nat)
    requires ValidSetup(z) && TimelyRun(z, ws, steps) && i < |ws|
    ensures TimeInv(z, ws[i]) && Inv(z, ws[i]) && WellFormed(z, ws[i])
  {
    hide Inv, WellFormed, Enabled, Apply, Timely, WorkersOK, SendsOK, PassesOK, PoolsOK;
    RunInv(z, ws, steps, i);
    if i == 0 {
      StartTime(z);
    } else {
      TimelyInv(z, ws, steps, i - 1);
      var w, step := ws[i - 1], steps[i - 1];
      StepPools(z, w, step, Client);
      StepPools(z, w, step, Server);
      StepPasses(z, w, step, Client);
      StepPasses(z, w, step, Server);
      StepSends(z, w, step);
      ClientPart(z, w);
      StepWorkers(z, w, step);
    }
  }

  lemma ClientPart(z: Setup, w: World)
    requires Inv(z, w)
    ensures ClientOK(z, w)
  {
  }
}
