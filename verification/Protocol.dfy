/** Client, server and the network between them as a transition system. Coroutines switch only at blocking
    calls, so each stretch of code between two of them is one step. */
module Protocol {
  import opened Base
  import opened Codec
  import opened Totp
  import opened Session

  /** What both ends are configured with. The wall clock of an end is its skew ahead of the time of the run. */
  datatype Setup = Setup(
    lib: Library, conf: seq<PathConf>,
    clientMtu: nat, serverMtu: nat,
    clientSkew: nat, serverSkew: nat)

  function Mtu(z: Setup, side: Mode): nat {
    if side == Client then z.clientMtu else z.serverMtu
  }

  function Skew(z: Setup, side: Mode): nat {
    if side == Client then z.clientSkew else z.serverSkew
  }

  function Other(side: Mode): Mode {
    if side == Client then Server else Client
  }

  predicate IsEndpoint(z: Setup, a: Addr) {
    exists p: nat, j: nat :: p < |z.conf| && j <= z.conf[p].portRange && a == Endpoint(z.conf, p, j)
  }

  /** Lawful libraries, MTUs that fit the packet buffer, and no address shared by two paths. */
  ghost predicate ValidSetup(z: Setup) {
    && Lawful(z.lib)
    && |z.conf| > 0
    && z.clientMtu <= CAPACITY && z.serverMtu <= CAPACITY
    && forall p: nat, q: nat, i: nat, j: nat {:trigger Endpoint(z.conf, p, i), Endpoint(z.conf, q, j)} ::
         p < q < |z.conf| && i <= z.conf[p].portRange && j <= z.conf[q].portRange ==>
           Endpoint(z.conf, p, i) != Endpoint(z.conf, q, j)
  }

  /** A running `udp_worker`: its path, its token, and for the client's workers when it ends. */
  datatype Worker = Worker(path: nat, token: nat, deadline: nat)

  /** A datagram on the network, with who sent it and when. Receivers see only addresses and bytes. */
  datatype Flight = Flight(sent: Sent, from: Mode, at: nat)

  /** The last datagram a path accepted, when, and the heartbeat passes since. */
  datatype Heard = Heard(flight: Flight, at: nat, passes: nat)

  /** What a heartbeat pass draws and reads: the randomness of its heartbeats, and the wall clock once for each
      token of each path. */
  datatype Round = Round(salts: seq<Salt>, clocks: seq<seq<nat>>)

  predicate ValidRound(z: Setup, round: Round) {
    |round.salts| == |z.conf| && ValidClocks(round.clocks, |z.conf|) &&
    forall p :: 0 <= p < |z.conf| ==> ValidSalt(round.salts[p])
  }

  /** One end: its `ctx`, its running workers by socket, and a record of its past: the time and the clock
      readings of the last heartbeat pass, what each path heard last, what was read from and written to the tun
      device. */
  datatype Node = Node(
    ctx: Ctx, workers: map<Addr, Worker>,
    passed: Option<nat>, clocks: seq<seq<nat>>, heard: seq<Option<Heard>>, read: set<seq<byte>>, wrote: set<seq<byte>>)

  /** `net` keeps all datagrams ever sent, so that any may arrive late, out of order, repeatedly or never;
      `issued` records all client workers ever started, by socket address. */
  datatype World = World(now: nat, client: Node, server: Node, net: set<Flight>, issued: map<Addr, Worker>)

  function NodeOf(w: World, side: Mode): Node {
    if side == Client then w.client else w.server
  }

  function WithNode(w: World, side: Mode, node: Node): World {
    if side == Client then w.(client := node) else w.(server := node)
  }

  function NoneHeard(z: Setup): seq<Option<Heard>> {
    seq(|z.conf|, p => None)
  }

  /** A process that starts, or starts again after it stopped or was aborted. What its tun device has seen
      stays on record. */
  function Booted(z: Setup, side: Mode, node: Node): Node {
    Node(Initial(side, Mtu(z, side), z.conf), map[], None, [], NoneHeard(z), node.read, node.wrote)
  }

  function Start(z: Setup): World {
    var client := Node(Initial(Client, z.clientMtu, z.conf), map[], None, [], NoneHeard(z), {}, {});
    var server := Node(Initial(Server, z.serverMtu, z.conf), map[], None, [], NoneHeard(z), {}, {});
    World(0, client, server, {}, map[])
  }

  datatype Step =
    | Hop(path: nat, local: Addr)                            // the client opens a worker for the present token
    | Listen(path: nat, token: nat)                          // the server opens the worker of a port
    | Close(local: Addr)                                     // a client worker reaches its deadline
    | Deliver(side: Mode, flight: Flight, stale: seq<byte>)  // a worker receives into a used buffer
    | Beat(side: Mode, round: Round)                         // one pass of the heartbeat loop
    | Tun(side: Mode, payload: seq<byte>, salt: Salt)        // a packet is read from the tun device
    | Tick(ms: nat)
    | Restart(side: Mode)

  predicate WellFormed(z: Setup, w: World) {
    && ValidCtx(w.client.ctx, z.conf) && ValidCtx(w.server.ctx, z.conf)
    && |w.client.heard| == |w.server.heard| == |z.conf|
    && w.client.ctx.mode == Client && w.server.ctx.mode == Server
    && (forall a :: a in w.client.workers ==> w.client.workers[a].path < |z.conf|)
    && (forall a :: a in w.server.workers ==> w.server.workers[a].path < |z.conf|)
    && (forall f :: f in w.net ==> ValidSent(f.sent))
  }

  /** Binds succeed, and the addresses of the client's sockets are new and not the server's. */
  predicate Enabled(z: Setup, w: World, step: Step) {
    match step
    case Hop(p, local) => p < |z.conf| && local !in w.issued && !IsEndpoint(z, local)
    case Listen(p, j) => p < |z.conf| && j <= z.conf[p].portRange && Endpoint(z.conf, p, j) !in w.server.workers
    case Close(local) => local in w.client.workers && w.client.workers[local].deadline <= w.now
    case Deliver(side, f, stale) => f in w.net && f.sent.dst in NodeOf(w, side).workers && |stale| == BUFFER
    case Beat(side, round) => ValidRound(z, round)
    case Tun(side, payload, salt) => 0 < |payload| <= Mtu(z, side) && ValidSalt(salt)
    case Tick(_) => true
    case Restart(_) => true
  }

  /** The length `udprecv` reports, and the buffer it leaves. */
  function Received(z: Setup, side: Mode, f: Flight): nat
    requires ValidSent(f.sent)
  {
    SmallFits(z.lib, f.sent.mtu, f.sent.payload, 0, f.sent.salt);
    Min(|Bytes(z.lib, f.sent)|, Min(Mtu(z, side) + HEADER, BUFFER))
  }

  function Buffer(z: Setup, side: Mode, f: Flight, stale: seq<byte>): (buf: seq<byte>)
    requires ValidSent(f.sent) && |stale| == BUFFER
    ensures |buf| == BUFFER
  {
    SmallFits(z.lib, f.sent.mtu, f.sent.payload, 0, f.sent.salt);
    var n := Received(z, side, f);
    Bytes(z.lib, f.sent)[..n] + stale[n..]
  }

  /** What `udp_worker` makes of a delivery. */
  function Arrival(z: Setup, w: World, side: Mode, f: Flight, stale: seq<byte>): (Ctx, Outcome)
    requires WellFormed(z, w) && Enabled(z, w, Deliver(side, f, stale))
  {
    var node := NodeOf(w, side);
    var worker := node.workers[f.sent.dst];
    Arrive(z.lib, node.ctx, worker.path, worker.token, f.sent.dst, f.sent.src,
           Buffer(z, side, f, stale), Received(z, side, f))
  }

  function AfterDeliver(z: Setup, w: World, side: Mode, f: Flight, stale: seq<byte>): World
    requires WellFormed(z, w) && Enabled(z, w, Deliver(side, f, stale))
  {
    var node := NodeOf(w, side);
    var p := node.workers[f.sent.dst].path;
    var (ctx, outcome) := Arrival(z, w, side, f, stale);
    if !outcome.Judged? || outcome.verdict.Rejected? then w
    else if outcome.verdict.Aborted? then WithNode(w, side, Booted(z, side, node))
    else
      var heard := node.heard[p := Some(Heard(f, w.now, 0))];
      var wrote := if outcome.verdict.Data? then node.wrote + {outcome.verdict.payload} else node.wrote;
      WithNode(w, side, node.(ctx := ctx, heard := heard, wrote := wrote))
  }

  /** The heartbeats of a pass. */
  function Heartbeats(z: Setup, w: World, side: Mode, round: Round): set<Flight>
    requires WellFormed(z, w) && Enabled(z, w, Beat(side, round))
  {
    var ctx := NodeOf(w, side).ctx;
    set p | 0 <= p < |z.conf| && Beats(side, ctx.paths[p]) ::
      Flight(Through(Mtu(z, side), ctx.paths[p], [], round.salts[p]), side, w.now)
  }

  function Aged(heard: seq<Option<Heard>>): (r: seq<Option<Heard>>)
    ensures |r| == |heard|
  {
    seq(|heard|, p requires 0 <= p < |heard| =>
      if heard[p].None? then None else Some(heard[p].value.(passes := heard[p].value.passes + 1)))
  }

  function AfterBeat(z: Setup, w: World, side: Mode, round: Round): World
    requires WellFormed(z, w) && Enabled(z, w, Beat(side, round))
  {
    var node := NodeOf(w, side);
    var passed := node.(
      ctx := Pass(z.lib, node.ctx, z.conf, round.clocks),
      passed := Some(w.now), clocks := round.clocks, heard := Aged(node.heard));
    WithNode(w, side, passed).(net := w.net + Heartbeats(z, w, side, round))
  }

  function AfterTun(z: Setup, w: World, side: Mode, payload: seq<byte>, salt: Salt): World
    requires WellFormed(z, w) && Enabled(z, w, Tun(side, payload, salt))
  {
    var node := NodeOf(w, side);
    var chosen := node.(ctx := Choose(node.ctx, z.conf), read := node.read + {payload});
    match Emit(chosen.ctx, payload, salt)
    case AssertFails => WithNode(w, side, Booted(z, side, chosen))
    case Unsent => WithNode(w, side, chosen)
    case Out(s) => WithNode(w, side, chosen).(net := w.net + {Flight(s, side, w.now)})
  }

  function HopToken(z: Setup, w: World, p: nat): nat
    requires p < |z.conf|
  {
    Token(z.lib, z.conf[p].portRange, w.now + z.clientSkew, 0)
  }

  function AfterHop(z: Setup, w: World, p: nat, local: Addr): World
    requires WellFormed(z, w) && Enabled(z, w, Hop(p, local))
  {
    var token := HopToken(z, w, p);
    var worker := Worker(p, token, w.now + LIFETIME);
    w.(issued := w.issued[local := worker],
       client := w.client.(
         ctx := StartClient(w.client.ctx, z.conf, p, token, local, true),
         workers := w.client.workers[local := worker]))
  }

  function AfterListen(z: Setup, w: World, p: nat, j: nat): World
    requires WellFormed(z, w) && Enabled(z, w, Listen(p, j))
  {
    w.(server := w.server.(
         ctx := StartServer(w.server.ctx, z.conf, p, j, true),
         workers := w.server.workers[Endpoint(z.conf, p, j) := Worker(p, j, 0)],
         heard := w.server.heard[p := None]))
  }

  function Apply(z: Setup, w: World, step: Step): World
    requires WellFormed(z, w) && Enabled(z, w, step)
  {
    match step
    case Hop(p, local) => AfterHop(z, w, p, local)
    case Listen(p, j) => AfterListen(z, w, p, j)
    case Close(local) => w.(client := w.client.(workers := w.client.workers - {local}))
    case Deliver(side, f, stale) => AfterDeliver(z, w, side, f, stale)
    case Beat(side, round) => AfterBeat(z, w, side, round)
    case Tun(side, payload, salt) => AfterTun(z, w, side, payload, salt)
    case Tick(ms) => w.(now := w.now + ms)
    case Restart(side) => WithNode(w, side, Booted(z, side, NodeOf(w, side)))
  }

  /** Worlds each reached from the one before by an enabled step, wherever they begin. */
  ghost predicate Segment(z: Setup, ws: seq<World>, steps: seq<Step>) {
    && |ws| == |steps| + 1
    && forall i :: 0 <= i < |steps| ==>
         WellFormed(z, ws[i]) && Enabled(z, ws[i], steps[i]) && ws[i + 1] == Apply(z, ws[i], steps[i])
  }

  /** A run begins at the start. */
  ghost predicate Run(z: Setup, ws: seq<World>, steps: seq<Step>) {
    Segment(z, ws, steps) && ws[0] == Start(z)
  }

  /** The steps lead from one world to another. */
  ghost predicate Leads(z: Setup, w: World, steps: seq<Step>, v: World)
    decreases |steps|
  {
    if steps == [] then v == w
    else WellFormed(z, w) && Enabled(z, w, steps[0]) && Leads(z, Apply(z, w, steps[0]), steps[1..], v)
  }

  /** One step and then more. */
  lemma LeadsStep(z: Setup, w: World, step: Step, rest: seq<Step>, v: World)
    requires WellFormed(z, w) && Enabled(z, w, step) && Leads(z, Apply(z, w, step), rest, v)
    ensures Leads(z, w, [step] + rest, v)
  {
    hide WellFormed, Enabled, Apply;
    assert ([step] + rest)[1..] == rest;
  }
}
