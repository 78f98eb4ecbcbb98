/** What every reachable world satisfies: agreement on tokens, coherent triples, end-to-end integrity and the
    meaning of the `alive` counter. */
module Safety {
  import opened Base
  import opened Codec
  import opened Totp
  import opened Selection
  import opened Session
  import opened Protocol

  // ---------------------------------------------------------------- the invariant

  /** A client worker was given the token of its time, on a path of the configuration. */
  ghost predicate IssuedOK(z: Setup, now: nat, a: Addr, k: Worker) {
    && k.path < |z.conf| && k.token <= z.conf[k.path].portRange && !IsEndpoint(z, a)
    && LIFETIME <= k.deadline <= now + LIFETIME
    && k.token == Token(z.lib, z.conf[k.path].portRange, k.deadline - LIFETIME + z.clientSkew, 0)
  }

  /** The address belongs to a client worker of this path and token. */
  predicate Holds(issued: map<Addr, Worker>, a: Addr, p: nat, token: int) {
    a in issued && issued[a].path == p && issued[a].token == token
  }

  /** A datagram runs between a client worker and the server's endpoint for that worker's path and token, and
      is encapsulated under that token. Its payload is empty or was read from the sender's tun device. */
  ghost predicate FlightOK(z: Setup, w: World, f: Flight) {
    && ValidSent(f.sent) && f.sent.mtu == Mtu(z, f.from) && f.at <= w.now
    && (f.sent.payload == [] || f.sent.payload in NodeOf(w, f.from).read)
    && var (clientEnd, serverEnd) := if f.from == Client then (f.sent.src, f.sent.dst) else (f.sent.dst, f.sent.src);
       && clientEnd in w.issued && w.issued[clientEnd].path < |z.conf|
       && w.issued[clientEnd].token == f.sent.token
       && serverEnd == Endpoint(z.conf, w.issued[clientEnd].path, f.sent.token)
  }

  /** `alive` is a function of the past of its path. */
  function AliveAfter(heard: Option<Heard>): nat {
    if heard.None? || heard.value.passes >= TTL then 0 else TTL - heard.value.passes
  }

  ghost predicate HeardOK(w: World, side: Mode, p: nat, heard: Option<Heard>) {
    heard.Some? ==>
      && heard.value.flight in w.net && heard.value.flight.from == Other(side) && heard.value.at <= w.now
      && var s := heard.value.flight.sent;
         Holds(w.issued, if side == Client then s.dst else s.src, p, s.token)
  }

  /** A client path with a socket holds the triple of one of its workers. */
  ghost predicate ClientPathOK(z: Setup, w: World, p: nat, path: Path)
    requires p < |z.conf|
  {
    && (path.sock.Some? ==> Holds(w.issued, path.sock.value, p, path.token) && path.remote == Endpoint(z.conf, p, path.token))
    && (path.sock.None? ==> path.alive == 0)
  }

  /** A server path that has heard a datagram holds the triple of that one datagram. */
  ghost predicate ServerPathOK(w: World, path: Path, heard: Option<Heard>) {
    && (path.sock.Some? ==> path.sock.value in w.server.workers)
    && (heard.Some? ==> var s := heard.value.flight.sent;
          path.sock == Some(s.dst) && path.remote == s.src && path.token == s.token)
  }

  ghost predicate NodeOK(z: Setup, w: World, side: Mode) {
    var node := NodeOf(w, side);
    && ValidCtx(node.ctx, z.conf) && node.ctx.mode == side && node.ctx.mtu == Mtu(z, side)
    && |node.heard| == |z.conf|
    && (forall p :: 0 <= p < |z.conf| ==> node.ctx.paths[p].alive == AliveAfter(node.heard[p]))
    && (forall p :: 0 <= p < |z.conf| ==> HeardOK(w, side, p, node.heard[p]))
    && (Mtu(z, Other(side)) <= Mtu(z, side) ==> node.wrote <= NodeOf(w, Other(side)).read)
  }

  ghost predicate ClientOK(z: Setup, w: World) {
    && NodeOK(z, w, Client)
    && (forall a :: a in w.client.workers ==> a in w.issued && w.client.workers[a] == w.issued[a])
    && (forall p :: 0 <= p < |z.conf| ==> ClientPathOK(z, w, p, w.client.ctx.paths[p]))
    && (forall a :: a in w.client.workers && w.client.workers[a].path < |z.conf| ==>
          w.client.ctx.paths[w.client.workers[a].path].sock.Some?)
  }

  ghost predicate ServerOK(z: Setup, w: World) {
    && NodeOK(z, w, Server)
    && (forall a :: a in w.server.workers ==> ListensOK(z, a, w.server.workers[a]))
    && (forall p :: 0 <= p < |z.conf| ==> ServerPathOK(w, w.server.ctx.paths[p], w.server.heard[p]))
  }

  predicate ListensOK(z: Setup, a: Addr, k: Worker) {
    k.path < |z.conf| && k.token <= z.conf[k.path].portRange && a == Endpoint(z.conf, k.path, k.token)
  }

  ghost predicate IssuesOK(z: Setup, w: World) {
    forall a :: a in w.issued ==> IssuedOK(z, w.now, a, w.issued[a])
  }

  ghost predicate NetOK(z: Setup, w: World) {
    forall f :: f in w.net ==> FlightOK(z, w, f)
  }

  ghost predicate Inv(z: Setup, w: World) {
    IssuesOK(z, w) && NetOK(z, w) && ClientOK(z, w) && ServerOK(z, w)
  }

  lemma InvWellFormed(z: Setup, w: World)
    requires Inv(z, w)
    ensures WellFormed(z, w)
  {
    hide Token, IsEndpoint;
    forall a | a in w.client.workers ensures w.client.workers[a].path < |z.conf| {
      assert IssuedOK(z, w.now, a, w.issued[a]);
    }
  }

  lemma StartInv(z: Setup)
    requires ValidSetup(z)
    ensures Inv(z, Start(z))
  {
  }

  // ---------------------------------------------------------------- agreement

  /** Token agreement: a datagram that reaches a worker comes from the other end and was encapsulated under
      the worker's own token. */
  lemma Agreement(z: Setup, w: World, side: Mode, f: Flight)
    requires ValidSetup(z) && Inv(z, w) && f in w.net && f.sent.dst in NodeOf(w, side).workers
    ensures var k := NodeOf(w, side).workers[f.sent.dst];
            && f.from == Other(side) && f.sent.token == k.token && k.path < |z.conf|
            && Holds(w.issued, if side == Client then f.sent.dst else f.sent.src, k.path, k.token)
  {
    hide Token, NodeOK, ClientPathOK, ServerPathOK;
    var k := NodeOf(w, side).workers[f.sent.dst];
    assert FlightOK(z, w, f);
    var a := if f.from == Client then f.sent.src else f.sent.dst;
    var o := w.issued[a];
    assert IssuedOK(z, w.now, a, o);
    assert IsEndpoint(z, Endpoint(z.conf, o.path, o.token));
    if side == Client {
      assert IssuedOK(z, w.now, f.sent.dst, w.issued[f.sent.dst]);
    } else {
      assert ListensOK(z, f.sent.dst, k);
      assert IsEndpoint(z, Endpoint(z.conf, k.path, k.token));
    }
  }

  /** The body of the datagram, compressed or not, fits the MTU of an end; its padding need not. */
  predicate BodyFits(z: Setup, side: Mode, f: Flight) {
    |Squeezed(z.lib, f.sent.payload, 0).0| <= Mtu(z, side)
  }

  /** No datagram that reaches a worker and whose body fits there is rejected: it is dropped outside the token
      window of the server, and otherwise delivers exactly what was sent. */
  lemma DeliveryOutcome(z: Setup, w: World, side: Mode, f: Flight, stale: seq<byte>)
    requires ValidSetup(z) && Inv(z, w) && WellFormed(z, w) && Enabled(z, w, Deliver(side, f, stale))
    requires BodyFits(z, side, f)
    ensures var node := NodeOf(w, side);
            var k := node.workers[f.sent.dst];
            Arrival(z, w, side, f, stale).1 ==
            if side == Server && k.token !in node.ctx.paths[k.path].pool then OutOfWindow
            else Judged(if f.sent.payload == [] then Verdict.Heartbeat else Data(f.sent.payload))
  {
    hide Decap, Wire, Token, IsEndpoint, Fits, Squeezed, Lawful, HeardOK, ClientOK, ServerOK, IssuesOK;
    Agreement(z, w, side, f);
    assert FlightOK(z, w, f);
    var s, n := f.sent, Received(z, side, f);
    SmallFits(z.lib, s.mtu, s.payload, 0, s.salt);
    WireLength(z.lib, s.token, s.mtu, s.payload, 0, s.salt);
    var buf := Buffer(z, side, f, stale);
    assert buf[..n] == Bytes(z.lib, s)[..n];
    RoundTrip(z.lib, s.token, s.mtu, s.payload, 0, s.salt, buf, n);
  }

  /** All bodies fit an end whose MTU is not the smaller one. */
  lemma LargerMtuFits(z: Setup, w: World, side: Mode, f: Flight)
    requires NetOK(z, w) && f in w.net && f.from == Other(side) && Mtu(z, Other(side)) <= Mtu(z, side)
    ensures BodyFits(z, side, f)
  {
    assert FlightOK(z, w, f);
  }

  // ---------------------------------------------------------------- every step keeps the invariant

  /** Later worlds know more. */
  ghost predicate Later(w: World, v: World) {
    && w.now <= v.now && w.net <= v.net
    && (forall a :: a in w.issued ==> a in v.issued && v.issued[a] == w.issued[a])
    && w.client.read <= v.client.read && w.server.read <= v.server.read
  }

  lemma LaterFlights(z: Setup, w: World, v: World)
    requires NetOK(z, w) && Later(w, v)
    ensures forall f :: f in w.net ==> FlightOK(z, v, f)
  {
    hide FlightOK;
    forall f | f in w.net ensures FlightOK(z, v, f) {
      LaterFlight(z, w, v, f);
    }
  }

  lemma LaterFlight(z: Setup, w: World, v: World, f: Flight)
    requires FlightOK(z, w, f) && Later(w, v)
    ensures FlightOK(z, v, f)
  {
  }

  lemma LaterIssues(z: Setup, w: World, v: World)
    requires IssuesOK(z, w) && w.now <= v.now && v.issued == w.issued
    ensures IssuesOK(z, v)
  {
    hide Token, IsEndpoint;
    forall a | a in v.issued ensures IssuedOK(z, v.now, a, v.issued[a]) {
      assert IssuedOK(z, w.now, a, w.issued[a]);
    }
  }

  lemma LaterHeard(z: Setup, w: World, v: World, side: Mode)
    requires NodeOK(z, w, side) && Later(w, v)
    ensures forall p :: 0 <= p < |z.conf| ==> HeardOK(v, side, p, NodeOf(w, side).heard[p])
  {
    hide AliveAfter;
    forall p | 0 <= p < |z.conf| ensures HeardOK(v, side, p, NodeOf(w, side).heard[p]) {
      assert HeardOK(w, side, p, NodeOf(w, side).heard[p]);
    }
  }

  /** An end that a step does not touch stays as it should be. */
  lemma ClientFrame(z: Setup, w: World, v: World)
    requires ClientOK(z, w) && Later(w, v) && v.client == w.client
    ensures ClientOK(z, v)
  {
    hide AliveAfter, HeardOK;
    LaterHeard(z, w, v, Client);
    forall p | 0 <= p < |z.conf| ensures ClientPathOK(z, v, p, v.client.ctx.paths[p]) {
      assert ClientPathOK(z, w, p, w.client.ctx.paths[p]);
    }
  }

  lemma ServerFrame(z: Setup, w: World, v: World)
    requires ServerOK(z, w) && Later(w, v) && v.server == w.server
    ensures ServerOK(z, v)
  {
    hide AliveAfter, HeardOK, ListensOK;
    LaterHeard(z, w, v, Server);
    forall p | 0 <= p < |z.conf| ensures ServerPathOK(v, v.server.ctx.paths[p], v.server.heard[p]) {
      assert ServerPathOK(w, w.server.ctx.paths[p], w.server.heard[p]);
    }
  }

  lemma HopIssues(z: Setup, w: World, p: nat, local: Addr)
    requires IssuesOK(z, w) && WellFormed(z, w) && Enabled(z, w, Hop(p, local))
    ensures IssuesOK(z, AfterHop(z, w, p, local))
  {
    hide Token, IsEndpoint, WellFormed;
    var v := AfterHop(z, w, p, local);
    TokenInRange(z.lib, z.conf[p].portRange, w.now + z.clientSkew, 0);
    forall a | a in v.issued ensures IssuedOK(z, v.now, a, v.issued[a]) {
      if a != local {
        assert IssuedOK(z, w.now, a, w.issued[a]);
      }
    }
  }

  lemma HopKeeps(z: Setup, w: World, p: nat, local: Addr)
    requires ValidSetup(z) && Inv(z, w) && WellFormed(z, w) && Enabled(z, w, Hop(p, local))
    ensures Inv(z, AfterHop(z, w, p, local))
  {
    hide Token, IsEndpoint, FlightOK, ClientOK, ServerOK, WellFormed, IssuesOK;
    var v := AfterHop(z, w, p, local);
    HopIssues(z, w, p, local);
    LaterFlights(z, w, v);
    ServerFrame(z, w, v);
    HopClient(z, w, p, local);
  }

  lemma HopClient(z: Setup, w: World, p: nat, local: Addr)
    requires ClientOK(z, w) && WellFormed(z, w) && Enabled(z, w, Hop(p, local))
    ensures ClientOK(z, AfterHop(z, w, p, local))
  {
    hide Token, IsEndpoint, AliveAfter, HeardOK, WellFormed;
    var v := AfterHop(z, w, p, local);
    LaterHeard(z, w, v, Client);
    forall q | 0 <= q < |z.conf| ensures ClientPathOK(z, v, q, v.client.ctx.paths[q]) {
      assert ClientPathOK(z, w, q, w.client.ctx.paths[q]);
    }
  }

  lemma NothingHeardOK(w: World, side: Mode, p: nat)
    ensures HeardOK(w, side, p, None)
  {
  }

  lemma ListenKeeps(z: Setup, w: World, p: nat, j: nat)
    requires ValidSetup(z) && Inv(z, w) && WellFormed(z, w) && Enabled(z, w, Listen(p, j))
    ensures Inv(z, AfterListen(z, w, p, j))
  {
    hide IsEndpoint, FlightOK, ClientOK, ServerOK, WellFormed, IssuesOK;
    var v := AfterListen(z, w, p, j);
    LaterFlights(z, w, v);
    LaterIssues(z, w, v);
    ClientFrame(z, w, v);
    ListenServer(z, w, p, j);
  }

  lemma ListenServer(z: Setup, w: World, p: nat, j: nat)
    requires ServerOK(z, w) && WellFormed(z, w) && Enabled(z, w, Listen(p, j))
    ensures ServerOK(z, AfterListen(z, w, p, j))
  {
    hide IsEndpoint, HeardOK, WellFormed;
    var v := AfterListen(z, w, p, j);
    LaterHeard(z, w, v, Server);
    NothingHeardOK(v, Server, p);
    forall q | 0 <= q < |z.conf| ensures ServerPathOK(v, v.server.ctx.paths[q], v.server.heard[q]) {
      assert ServerPathOK(w, w.server.ctx.paths[q], w.server.heard[q]);
    }
  }

  lemma CloseKeeps(z: Setup, w: World, local: Addr)
    requires ValidSetup(z) && Inv(z, w) && WellFormed(z, w) && Enabled(z, w, Close(local))
    ensures Inv(z, Apply(z, w, Close(local)))
  {
    hide Token, IsEndpoint, FlightOK, ClientOK, ServerOK, WellFormed, IssuesOK;
    var v := Apply(z, w, Close(local));
    LaterFlights(z, w, v);
    LaterIssues(z, w, v);
    ServerFrame(z, w, v);
    CloseClient(z, w, local);
  }

  lemma CloseClient(z: Setup, w: World, local: Addr)
    requires ClientOK(z, w) && WellFormed(z, w) && Enabled(z, w, Close(local))
    ensures ClientOK(z, Apply(z, w, Close(local)))
  {
    hide Token, IsEndpoint, AliveAfter, HeardOK, WellFormed;
    var v := Apply(z, w, Close(local));
    LaterHeard(z, w, v, Client);
    forall q | 0 <= q < |z.conf| ensures ClientPathOK(z, v, q, v.client.ctx.paths[q]) {
      assert ClientPathOK(z, w, q, w.client.ctx.paths[q]);
    }
  }

  lemma TickKeeps(z: Setup, w: World, ms: nat)
    requires ValidSetup(z) && Inv(z, w) && WellFormed(z, w)
    ensures Inv(z, Apply(z, w, Tick(ms)))
  {
    hide Token, IsEndpoint, ClientOK, ServerOK, FlightOK;
    var v := Apply(z, w, Tick(ms));
    LaterFlights(z, w, v);
    LaterIssues(z, w, v);
    ClientFrame(z, w, v);
    ServerFrame(z, w, v);
  }

  /** A booted process is as it should be, whatever was before. */
  lemma BootKeeps(z: Setup, w: World, v: World, side: Mode)
    requires ValidSetup(z) && Inv(z, w) && Later(w, v) && v.issued == w.issued && v.net == w.net
    requires v == WithNode(w, side, NodeOf(v, side))
    requires NodeOf(v, side) == Booted(z, side, NodeOf(w, side).(read := NodeOf(v, side).read))
    ensures Inv(z, v)
  {
    hide Token, IsEndpoint, FlightOK, NodeOK, IssuesOK;
    LaterFlights(z, w, v);
    LaterIssues(z, w, v);
    BootedNode(z, w, v, side);
    if side == Client {
      hide ServerOK;
      ServerFrame(z, w, v);
    } else {
      hide ClientOK;
      ClientFrame(z, w, v);
    }
  }

  lemma BootedNode(z: Setup, w: World, v: World, side: Mode)
    requires ValidSetup(z) && NodeOK(z, w, side) && Later(w, v) && v == WithNode(w, side, NodeOf(v, side))
    requires NodeOf(v, side) == Booted(z, side, NodeOf(w, side).(read := NodeOf(v, side).read))
    ensures NodeOK(z, v, side)
  {
  }

  lemma BeatKeepsNode(z: Setup, w: World, side: Mode, round: Round)
    requires NodeOK(z, w, side) && WellFormed(z, w) && Enabled(z, w, Beat(side, round))
    ensures NodeOK(z, AfterBeat(z, w, side, round), side)
  {
    hide Refill, Heartbeats, HeardOK, WellFormed, Enabled;
    var v := AfterBeat(z, w, side, round);
    LaterHeard(z, w, v, side);
    var node, passed := NodeOf(w, side), NodeOf(v, side);
    forall p | 0 <= p < |z.conf|
      ensures passed.ctx.paths[p].alive == AliveAfter(passed.heard[p]) && HeardOK(v, side, p, passed.heard[p])
    {
      assert node.ctx.paths[p].alive == AliveAfter(node.heard[p]);
      AgedHeard(v, side, p, node.heard[p]);
    }
  }

  /** Growing older by a pass takes one off `alive` and nothing else. */
  lemma AgedHeard(w: World, side: Mode, p: nat, heard: Option<Heard>)
    requires HeardOK(w, side, p, heard)
    ensures var older := Aged([heard])[0];
            HeardOK(w, side, p, older) && AliveAfter(older) == if AliveAfter(heard) > 0 then AliveAfter(heard) - 1 else 0
  {
  }

  lemma BeatMayLeave(z: Setup, w: World, side: Mode, p: nat)
    requires Inv(z, w) && p < |z.conf|
    ensures |NodeOf(w, side).ctx.paths| == |z.conf|
    ensures Beats(side, NodeOf(w, side).ctx.paths[p]) ==>
              NodeOf(w, side).ctx.paths[p].sock.Some? && (side == Server ==> NodeOf(w, side).ctx.paths[p].alive > 0)
  {
    hide IssuesOK, NetOK, HeardOK;
  }

  lemma BeatFlights(z: Setup, w: World, side: Mode, round: Round)
    requires ValidSetup(z) && Inv(z, w) && WellFormed(z, w) && Enabled(z, w, Beat(side, round))
    ensures NetOK(z, AfterBeat(z, w, side, round))
  {
    hide Token, IsEndpoint, Refill, Pass, ClientOK, ServerOK, WellFormed;
    var v := AfterBeat(z, w, side, round);
    LaterFlights(z, w, v);
    BeatMayLeave(z, w, side, 0);
    forall f | f in Heartbeats(z, w, side, round) ensures FlightOK(z, v, f) {
      var p :| 0 <= p < |z.conf| && Beats(side, NodeOf(w, side).ctx.paths[p]) &&
               f == Flight(Through(Mtu(z, side), NodeOf(w, side).ctx.paths[p], [], round.salts[p]), side, w.now);
      BeatMayLeave(z, w, side, p);
      SendsRight(z, w, side, p, [], round.salts[p]);
      assert FlightOK(z, w, f);
    }
  }

  /** What leaves through a path that may send runs between the right ends under the right token. */
  lemma SendsRight(z: Setup, w: World, side: Mode, p: nat, payload: seq<byte>, salt: Salt)
    requires ValidSetup(z) && Inv(z, w) && p < |z.conf| && ValidSalt(salt) && |payload| <= Mtu(z, side)
    requires payload == [] || payload in NodeOf(w, side).read
    requires p < |NodeOf(w, side).ctx.paths| && NodeOf(w, side).ctx.paths[p].sock.Some?
    requires side == Server ==> NodeOf(w, side).ctx.paths[p].alive > 0
    ensures FlightOK(z, w, Flight(Through(Mtu(z, side), NodeOf(w, side).ctx.paths[p], payload, salt), side, w.now))
  {
    hide Token, IsEndpoint;
    var path := NodeOf(w, side).ctx.paths[p];
    if side == Client {
      assert ClientPathOK(z, w, p, path);
    } else {
      var heard := w.server.heard[p];
      assert ServerPathOK(w, path, heard) && HeardOK(w, Server, p, heard);
      assert FlightOK(z, w, heard.value.flight);
    }
  }

  lemma BeatKeeps(z: Setup, w: World, side: Mode, round: Round)
    requires ValidSetup(z) && Inv(z, w) && WellFormed(z, w) && Enabled(z, w, Beat(side, round))
    ensures Inv(z, AfterBeat(z, w, side, round))
  {
    hide Refill, NetOK, NodeOK, WellFormed, Enabled, Heartbeats, ClientOK, ServerOK, IssuesOK;
    var v := AfterBeat(z, w, side, round);
    BeatFlights(z, w, side, round);
    LaterIssues(z, w, v);
    if side == Client {
      ServerFrame(z, w, v);
      ClientBeat(z, w, round);
    } else {
      ClientFrame(z, w, v);
      ServerBeat(z, w, round);
    }
  }

  lemma ClientBeat(z: Setup, w: World, round: Round)
    requires ClientOK(z, w) && WellFormed(z, w) && Enabled(z, w, Beat(Client, round))
    ensures ClientOK(z, AfterBeat(z, w, Client, round))
  {
    hide Refill, WellFormed, Enabled, Heartbeats, HeardOK, AliveAfter;
    var v := AfterBeat(z, w, Client, round);
    BeatKeepsNode(z, w, Client, round);
    forall q | 0 <= q < |z.conf| ensures ClientPathOK(z, v, q, v.client.ctx.paths[q]) {
      assert ClientPathOK(z, w, q, w.client.ctx.paths[q]);
    }
  }

  lemma ServerBeat(z: Setup, w: World, round: Round)
    requires ServerOK(z, w) && WellFormed(z, w) && Enabled(z, w, Beat(Server, round))
    ensures ServerOK(z, AfterBeat(z, w, Server, round))
  {
    hide Refill, WellFormed, Enabled, Heartbeats, HeardOK, AliveAfter, ListensOK;
    var v := AfterBeat(z, w, Server, round);
    BeatKeepsNode(z, w, Server, round);
    forall q | 0 <= q < |z.conf| ensures ServerPathOK(v, v.server.ctx.paths[q], v.server.heard[q]) {
      assert ServerPathOK(w, w.server.ctx.paths[q], w.server.heard[q]);
    }
  }

  /** Reading a packet and choosing a path changes no path. */
  lemma ChosenKeeps(z: Setup, w: World, v: World, side: Mode)
    requires Inv(z, w) && Later(w, v) && v.issued == w.issued && v.net == w.net && v.now == w.now
    requires v == WithNode(w, side, NodeOf(v, side))
    requires NodeOf(v, side) == NodeOf(w, side).(
               ctx := NodeOf(w, side).ctx.(cursor := NodeOf(v, side).ctx.cursor), read := NodeOf(v, side).read)
    requires ValidCtx(NodeOf(v, side).ctx, z.conf)
    ensures Inv(z, v)
  {
    hide Token, IsEndpoint, FlightOK, HeardOK, AliveAfter, ListensOK, IssuesOK;
    LaterFlights(z, w, v);
    LaterIssues(z, w, v);
    LaterHeard(z, w, v, side);
    if side == Client {
      hide ServerOK;
      ServerFrame(z, w, v);
      forall q | 0 <= q < |z.conf| ensures ClientPathOK(z, v, q, v.client.ctx.paths[q]) {
        assert ClientPathOK(z, w, q, w.client.ctx.paths[q]);
      }
    } else {
      hide ClientOK;
      ClientFrame(z, w, v);
      forall q | 0 <= q < |z.conf| ensures ServerPathOK(v, v.server.ctx.paths[q], v.server.heard[q]) {
        assert ServerPathOK(w, w.server.ctx.paths[q], w.server.heard[q]);
      }
    }
  }

  /** One more datagram on the network. */
  lemma SentKeeps(z: Setup, w: World, f: Flight)
    requires Inv(z, w) && FlightOK(z, w, f)
    ensures Inv(z, w.(net := w.net + {f}))
  {
    hide FlightOK, IssuesOK, ClientOK, ServerOK;
    var v := w.(net := w.net + {f});
    LaterFlights(z, w, v);
    LaterFlight(z, w, v, f);
    LaterIssues(z, w, v);
    ClientFrame(z, w, v);
    ServerFrame(z, w, v);
  }

  lemma TunKeeps(z: Setup, w: World, side: Mode, payload: seq<byte>, salt: Salt)
    requires ValidSetup(z) && Inv(z, w) && WellFormed(z, w) && Enabled(z, w, Tun(side, payload, salt))
    ensures Inv(z, AfterTun(z, w, side, payload, salt))
  {
    hide WellFormed, Inv, Pick, Mtu;
    EndsMtu(z, w, side);
    var node := NodeOf(w, side);
    var chosen := node.(ctx := Choose(node.ctx, z.conf), read := node.read + {payload});
    var u := WithNode(w, side, chosen);
    ChosenKeeps(z, w, u, side);
    match Emit(chosen.ctx, payload, salt)
    case AssertFails => BootKeeps(z, u, WithNode(w, side, Booted(z, side, chosen)), side);
    case Unsent =>
    case Out(s) =>
      EndsMtu(z, u, side);
      SendsRight(z, u, side, chosen.ctx.cursor, payload, salt);
      SentKeeps(z, u, Flight(s, side, w.now));
  }

  lemma EndsMtu(z: Setup, w: World, side: Mode)
    requires Inv(z, w)
    ensures NodeOf(w, side).ctx.mtu == Mtu(z, side) && NodeOf(w, side).ctx.mode == side
    ensures ValidCtx(NodeOf(w, side).ctx, z.conf)
  {
    hide IssuesOK, NetOK, HeardOK;
  }

  /** What an accepted datagram does to its end. */
  ghost predicate Took(z: Setup, w: World, v: World, side: Mode, f: Flight, wrote: set<seq<byte>>)
    requires WellFormed(z, w) && f.sent.dst in NodeOf(w, side).workers
  {
    var node := NodeOf(w, side);
    var k := node.workers[f.sent.dst];
    v == WithNode(w, side, node.(
           ctx := node.ctx.(paths := node.ctx.paths[k.path :=
                    Accepted(side, node.ctx.paths[k.path], k.token, f.sent.dst, f.sent.src)]),
           heard := node.heard[k.path := Some(Heard(f, w.now, 0))],
           wrote := wrote))
  }

  lemma TookNode(z: Setup, w: World, v: World, side: Mode, f: Flight, wrote: set<seq<byte>>)
    requires ValidSetup(z) && Inv(z, w) && WellFormed(z, w) && f in w.net && f.sent.dst in NodeOf(w, side).workers
    requires Took(z, w, v, side, f, wrote)
    requires Mtu(z, Other(side)) <= Mtu(z, side) ==> wrote <= NodeOf(w, Other(side)).read
    ensures NodeOK(z, v, side)
  {
    hide Token, IsEndpoint, FlightOK, WellFormed, HeardOK, NodeOK, ClientOK, ServerOK, IssuesOK, NetOK;
    var k := NodeOf(w, side).workers[f.sent.dst];
    Agreement(z, w, side, f);
    InvNode(z, w, side);
    NewlyHeard(w, v, side, k.path, f);
    TookPaths(z, w, v, side, f, wrote);
  }

  lemma InvNode(z: Setup, w: World, side: Mode)
    requires Inv(z, w)
    ensures NodeOK(z, w, side)
  {
    hide NodeOK, IssuesOK, NetOK;
  }

  lemma NewlyHeard(w: World, v: World, side: Mode, p: nat, f: Flight)
    requires f in v.net && f.from == Other(side) && v.issued == w.issued
    requires Holds(w.issued, if side == Client then f.sent.dst else f.sent.src, p, f.sent.token)
    ensures HeardOK(v, side, p, Some(Heard(f, v.now, 0))) && AliveAfter(Some(Heard(f, v.now, 0))) == TTL
  {
  }

  lemma TookPaths(z: Setup, w: World, v: World, side: Mode, f: Flight, wrote: set<seq<byte>>)
    requires NodeOK(z, w, side) && WellFormed(z, w) && f.sent.dst in NodeOf(w, side).workers
    requires Took(z, w, v, side, f, wrote)
    requires var p := NodeOf(w, side).workers[f.sent.dst].path;
             HeardOK(v, side, p, Some(Heard(f, v.now, 0))) && AliveAfter(Some(Heard(f, v.now, 0))) == TTL
    requires Mtu(z, Other(side)) <= Mtu(z, side) ==> wrote <= NodeOf(w, Other(side)).read
    ensures NodeOK(z, v, side)
  {
    hide HeardOK, AliveAfter;
    LaterHeard(z, w, v, side);
  }

  lemma TookKeeps(z: Setup, w: World, v: World, side: Mode, f: Flight, wrote: set<seq<byte>>)
    requires ValidSetup(z) && Inv(z, w) && WellFormed(z, w) && f in w.net && f.sent.dst in NodeOf(w, side).workers
    requires Took(z, w, v, side, f, wrote)
    requires Mtu(z, Other(side)) <= Mtu(z, side) ==> wrote <= NodeOf(w, Other(side)).read
    ensures Inv(z, v)
  {
    hide Token, IsEndpoint, FlightOK, NodeOK, IssuesOK, HeardOK, ListensOK;
    LaterFlights(z, w, v);
    LaterIssues(z, w, v);
    TookNode(z, w, v, side, f, wrote);
    Agreement(z, w, side, f);
    if side == Client {
      hide ServerOK;
      ServerFrame(z, w, v);
      forall q | 0 <= q < |z.conf| ensures ClientPathOK(z, v, q, v.client.ctx.paths[q]) {
        assert ClientPathOK(z, w, q, w.client.ctx.paths[q]);
      }
    } else {
      hide ClientOK;
      ClientFrame(z, w, v);
      forall q | 0 <= q < |z.conf| ensures ServerPathOK(v, v.server.ctx.paths[q], v.server.heard[q]) {
        assert ServerPathOK(w, w.server.ctx.paths[q], w.server.heard[q]);
      }
    }
  }

  lemma DeliverKeeps(z: Setup, w: World, side: Mode, f: Flight, stale: seq<byte>)
    requires ValidSetup(z) && Inv(z, w) && WellFormed(z, w) && Enabled(z, w, Deliver(side, f, stale))
    ensures Inv(z, AfterDeliver(z, w, side, f, stale))
  {
    hide Decap, Buffer, Received, Inv, WellFormed;
    var v := AfterDeliver(z, w, side, f, stale);
    var node := NodeOf(w, side);
    var outcome := Arrival(z, w, side, f, stale).1;
    EndsMtu(z, w, side);
    Agreement(z, w, side, f);
    if Mtu(z, Other(side)) <= Mtu(z, side) {
      WroteRead(z, w, side);
      InvNet(z, w);
      LargerMtuFits(z, w, side, f);
      DeliveryOutcome(z, w, side, f, stale);
    }
    if outcome.Judged? && outcome.verdict.Aborted? {
      BootKeeps(z, w, v, side);
    } else if outcome.Judged? && !outcome.verdict.Rejected? {
      TookKeeps(z, w, v, side, f, NodeOf(v, side).wrote);
    }
  }

  lemma InvNet(z: Setup, w: World)
    requires Inv(z, w)
    ensures NetOK(z, w)
  {
  }

  lemma WroteRead(z: Setup, w: World, side: Mode)
    requires Inv(z, w) && Mtu(z, Other(side)) <= Mtu(z, side)
    ensures NodeOf(w, side).wrote <= NodeOf(w, Other(side)).read
    ensures forall f :: f in w.net && f.sent.payload != [] ==> f.sent.payload in NodeOf(w, f.from).read
  {
    hide IssuesOK, HeardOK;
    forall f | f in w.net && f.sent.payload != [] ensures f.sent.payload in NodeOf(w, f.from).read {
      assert FlightOK(z, w, f);
    }
  }
}
