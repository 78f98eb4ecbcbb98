/** One heartbeat each way repairs a path whatever the server remembered before. */
module Stabilise {
  import opened Base
  import opened Codec
  import opened Totp
  import opened Session
  import opened Window
  import opened Protocol
  import opened Safety
  import opened Theorems

  /** The client's path has an open socket and sends to the server's endpoint for its token. */
  ghost predicate Aimed(z: Setup, w: World, p: nat) {
    && p < |z.conf| && ValidCtx(w.client.ctx, z.conf) && w.client.ctx.mode == Client
    && var path := w.client.ctx.paths[p];
       && path.sock.Some? && path.sock.value in w.client.workers
       && w.client.workers[path.sock.value].path == p && w.client.workers[path.sock.value].token == path.token
       && path.remote == Endpoint(z.conf, p, path.token)
  }

  /** The server listens on the endpoint of a token that is in its pool. Nothing else is asked of it. */
  ghost predicate Hears(z: Setup, w: World, p: nat, token: int) {
    && p < |z.conf| && ValidCtx(w.server.ctx, z.conf) && w.server.ctx.mode == Server
    && Endpoint(z.conf, p, token) in w.server.workers
    && w.server.workers[Endpoint(z.conf, p, token)].path == p && w.server.workers[Endpoint(z.conf, p, token)].token == token
    && token in w.server.ctx.paths[p].pool
  }

  /** Both ends of a path send to each other's socket under one token. */
  ghost predicate Matched(z: Setup, w: World, p: nat) {
    && p < |z.conf| && ValidCtx(w.client.ctx, z.conf) && ValidCtx(w.server.ctx, z.conf)
    && var (c, s) := (w.client.ctx.paths[p], w.server.ctx.paths[p]);
       c.token == s.token && c.sock == Some(s.remote) && s.sock == Some(c.remote)
  }

  /** ... and are alive. */
  ghost predicate Connected(z: Setup, w: World, p: nat) {
    Matched(z, w, p) && w.client.ctx.paths[p].alive > 0 && w.server.ctx.paths[p].alive > 0
  }

  /** The heartbeat that a pass sends on a path. */
  function BeatFlight(z: Setup, w: World, side: Mode, p: nat, round: Round): Flight
    requires p < |NodeOf(w, side).ctx.paths| && NodeOf(w, side).ctx.paths[p].sock.Some? && p < |round.salts|
  {
    Flight(Through(Mtu(z, side), NodeOf(w, side).ctx.paths[p], [], round.salts[p]), side, w.now)
  }

  /** A heartbeat is accepted by any worker of its token that may look at it, whatever the MTUs are. */
  lemma BeatAccepted(z: Setup, w: World, side: Mode, f: Flight, stale: seq<byte>)
    requires ValidSetup(z) && WellFormed(z, w) && Enabled(z, w, Deliver(side, f, stale)) && f.sent.payload == []
    requires var k := NodeOf(w, side).workers[f.sent.dst];
             k.token == f.sent.token && Admits(NodeOf(w, side).ctx, k.path, k.token)
    ensures Arrival(z, w, side, f, stale) ==
            (NodeOf(w, side).ctx.(paths := NodeOf(w, side).ctx.paths[NodeOf(w, side).workers[f.sent.dst].path :=
               Accepted(side, NodeOf(w, side).ctx.paths[NodeOf(w, side).workers[f.sent.dst].path],
                        f.sent.token, f.sent.dst, f.sent.src)]),
             Judged(Verdict.Heartbeat))
  {
    hide Decap, Wire, IsEndpoint;
    var s, n := f.sent, Received(z, side, f);
    SmallFits(z.lib, s.mtu, s.payload, 0, s.salt);
    WireLength(z.lib, s.token, s.mtu, s.payload, 0, s.salt);
    var buf := Buffer(z, side, f, stale);
    assert buf[..n] == Bytes(z.lib, s)[..n];
    RoundTrip(z.lib, s.token, s.mtu, s.payload, 0, s.salt, buf, n);
  }

  /** A pass sends the heartbeat of a path that may send, and keeps what the path is aimed at. */
  lemma BeatLeaves(z: Setup, w: World, side: Mode, p: nat, round: Round)
    requires ValidSetup(z) && WellFormed(z, w) && Enabled(z, w, Beat(side, round)) && p < |z.conf|
    requires Beats(side, NodeOf(w, side).ctx.paths[p])
    ensures var v := AfterBeat(z, w, side, round);
            && WellFormed(z, v) && v.now == w.now && BeatFlight(z, w, side, p, round) in v.net
            && NodeOf(v, Other(side)) == NodeOf(w, Other(side)) && NodeOf(v, side).workers == NodeOf(w, side).workers
            && v.issued == w.issued && NodeOf(v, side).passed == Some(w.now)
            && (forall q :: 0 <= q < |z.conf| ==> NodeOf(v, side).ctx.paths[q].sock == NodeOf(w, side).ctx.paths[q].sock)
            && NodeOf(v, side).ctx.paths[p] ==
               Aging(NodeOf(w, side).ctx.paths[p],
                     Refill(z.lib, z.conf[p].portRange, round.clocks[p], NodeOf(w, side).ctx.paths[p].pool))
  {
    hide Refill, WellFormed;
    BeatWellFormed(z, w, side, round);
    Shapes(z, w);
  }

  lemma BeatWellFormed(z: Setup, w: World, side: Mode, round: Round)
    requires ValidSetup(z) && WellFormed(z, w) && Enabled(z, w, Beat(side, round))
    ensures WellFormed(z, AfterBeat(z, w, side, round))
  {
    hide Refill, Heartbeats;
    HeartbeatsValid(z, w, side, round);
  }

  lemma HeartbeatsValid(z: Setup, w: World, side: Mode, round: Round)
    requires ValidSetup(z) && WellFormed(z, w) && Enabled(z, w, Beat(side, round))
    ensures forall f :: f in Heartbeats(z, w, side, round) ==> ValidSent(f.sent)
  {
  }

  lemma DeliveryLeaves(z: Setup, w: World, side: Mode, f: Flight, stale: seq<byte>)
    requires WellFormed(z, w) && Enabled(z, w, Deliver(side, f, stale))
    requires Arrival(z, w, side, f, stale).1 == Judged(Verdict.Heartbeat)
    ensures var v := AfterDeliver(z, w, side, f, stale);
            && NodeOf(v, side).ctx == Arrival(z, w, side, f, stale).0
            && NodeOf(v, side).workers == NodeOf(w, side).workers && NodeOf(v, Other(side)) == NodeOf(w, Other(side))
            && v.net == w.net && v.now == w.now && v.issued == w.issued && NodeOf(v, side).passed == NodeOf(w, side).passed
            && (ValidCtx(NodeOf(v, side).ctx, z.conf) && NodeOf(v, side).ctx.mode == side ==> WellFormed(z, v))
  {
    hide Arrival;
  }

  /** The client's half: its heartbeat reaches the server, which takes over the client's triple. */
  lemma ServerLearns(z: Setup, w: World, p: nat, round: Round, stale: seq<byte>) returns (v: World)
    requires ValidSetup(z) && WellFormed(z, w) && Aimed(z, w, p) && Hears(z, w, p, w.client.ctx.paths[p].token)
    requires Enabled(z, w, Beat(Client, round)) && |stale| == BUFFER
    ensures WellFormed(z, AfterBeat(z, w, Client, round))
    ensures var u, f := AfterBeat(z, w, Client, round), BeatFlight(z, w, Client, p, round);
            Enabled(z, u, Deliver(Server, f, stale)) && v == AfterDeliver(z, u, Server, f, stale)
    ensures WellFormed(z, v) && Aimed(z, v, p) && v.now == w.now && v.issued == w.issued
    ensures v.client.workers == w.client.workers && v.client.passed == Some(w.now) && v.server.passed == w.server.passed
    ensures forall q :: 0 <= q < |z.conf| ==> v.client.ctx.paths[q].sock == w.client.ctx.paths[q].sock
    ensures var (c, s) := (v.client.ctx.paths[p], v.server.ctx.paths[p]);
            s.alive == TTL && s.token == c.token && s.sock == Some(c.remote) && c.sock == Some(s.remote)
  {
    hide Refill, Arrival, Decap, Wire, WellFormed, IsEndpoint, AfterBeat, AfterDeliver;
    BeatLeaves(z, w, Client, p, round);
    var u, f := AfterBeat(z, w, Client, round), BeatFlight(z, w, Client, p, round);
    assert f.sent.dst == Endpoint(z.conf, p, f.sent.token);
    BeatAccepted(z, u, Server, f, stale);
    DeliveryLeaves(z, u, Server, f, stale);
    Shapes(z, u);
    v := AfterDeliver(z, u, Server, f, stale);
  }

  /** The server's half: its next heartbeat reaches the client. */
  lemma ClientLearns(z: Setup, w: World, p: nat, round: Round, stale: seq<byte>) returns (f: Flight, v: World)
    requires ValidSetup(z) && WellFormed(z, w) && Aimed(z, w, p)
    requires var (c, s) := (w.client.ctx.paths[p], w.server.ctx.paths[p]);
             s.alive == TTL && s.token == c.token && s.sock == Some(c.remote) && c.sock == Some(s.remote)
    requires Enabled(z, w, Beat(Server, round)) && |stale| == BUFFER
    ensures Leads(z, w, [Beat(Server, round), Deliver(Client, f, stale)], v) && Connected(z, v, p)
    ensures Beats(Server, w.server.ctx.paths[p]) && f == BeatFlight(z, w, Server, p, round) && v.now == w.now
  {
    hide Refill, Arrival, Decap, Wire, WellFormed, IsEndpoint, AfterBeat, AfterDeliver;
    Shapes(z, w);
    BeatLeaves(z, w, Server, p, round);
    var u := AfterBeat(z, w, Server, round);
    f := BeatFlight(z, w, Server, p, round);
    Shapes(z, u);
    assert f.sent.dst == u.client.ctx.paths[p].sock.value;
    BeatAccepted(z, u, Client, f, stale);
    DeliveryLeaves(z, u, Client, f, stale);
    v := AfterDeliver(z, u, Client, f, stale);
    LeadsStep(z, u, Deliver(Client, f, stale), [], v);
    LeadsStep(z, w, Beat(Server, round), [Deliver(Client, f, stale)], v);
  }

  /** One exchange is possible from any world in which the client has an open socket on a path and the server,
      whatever else its state, listens there with the client's token in its pool: these five steps may follow
      one another and connect the path. What any other steps in between do to it is told in
      SelfStabilisation.dfy. */
  lemma OneExchange(z: Setup, w: World, p: nat, cs: Round, stale: seq<byte>, ms: nat, ss: Round, stale': seq<byte>)
    returns (f: Flight, g: Flight, v: World)
    requires ValidSetup(z) && WellFormed(z, w) && Aimed(z, w, p) && Hears(z, w, p, w.client.ctx.paths[p].token)
    requires Enabled(z, w, Beat(Client, cs)) && Enabled(z, w, Beat(Server, ss)) && |stale| == |stale'| == BUFFER
    ensures Leads(z, w, [Beat(Client, cs), Deliver(Server, f, stale), Tick(ms), Beat(Server, ss), Deliver(Client, g, stale')], v)
    ensures f.from == Client && f.at == w.now && f.sent.payload == []
    ensures g.from == Server && g.at == w.now + ms && g.sent.payload == []
    ensures Connected(z, v, p)
  {
    hide Refill, WellFormed, AfterBeat, AfterDeliver, Connected, Leads, Hears, Aimed;
    f := BeatFlight(z, w, Client, p, cs) by {
      Sockets(z, w, p);
    }
    var u := ServerLearns(z, w, p, cs, stale);
    var t := Apply(z, u, Tick(ms));
    TickAimed(z, u, p, ms);
    g, v := ClientLearns(z, t, p, ss, stale');
    LeadsStep(z, u, Tick(ms), [Beat(Server, ss), Deliver(Client, g, stale')], v);
    LeadsStep(z, AfterBeat(z, w, Client, cs), Deliver(Server, f, stale),
              [Tick(ms)] + [Beat(Server, ss), Deliver(Client, g, stale')], v);
    var rest := [Deliver(Server, f, stale)] + ([Tick(ms)] + [Beat(Server, ss), Deliver(Client, g, stale')]);
    LeadsStep(z, w, Beat(Client, cs), rest, v);
    assert [Beat(Client, cs)] + rest ==
           [Beat(Client, cs), Deliver(Server, f, stale), Tick(ms), Beat(Server, ss), Deliver(Client, g, stale')];
  }

  lemma Sockets(z: Setup, w: World, p: nat)
    requires WellFormed(z, w) && Aimed(z, w, p)
    ensures p < |w.client.ctx.paths| && w.client.ctx.paths[p].sock.Some? && p < |z.conf|
  {
  }

  lemma TickAimed(z: Setup, w: World, p: nat, ms: nat)
    requires WellFormed(z, w) && Aimed(z, w, p)
    ensures WellFormed(z, Apply(z, w, Tick(ms))) && Aimed(z, Apply(z, w, Tick(ms)), p)
  {
  }

  lemma Shapes(z: Setup, w: World)
    requires WellFormed(z, w)
    ensures ValidCtx(w.client.ctx, z.conf) && ValidCtx(w.server.ctx, z.conf)
    ensures w.client.ctx.mode == Client && w.server.ctx.mode == Server
  {
  }

  /** When the server's pool was last filled by a pass that kept the step of the client's hop, it hears the
      client, whatever its pool held before. */
  lemma InWindowIsHeard(z: Setup, w: World, p: nat, c: nat, clock: seq<nat>, wall: nat, n: nat, before: seq<int>)
    requires p < |z.conf| && ValidCtx(w.server.ctx, z.conf) && w.server.ctx.mode == Server
    requires var token := Token(z.lib, z.conf[p].portRange, c, 0);
             Endpoint(z.conf, p, token) in w.server.workers &&
             w.server.workers[Endpoint(z.conf, p, token)].path == p &&
             w.server.workers[Endpoint(z.conf, p, token)].token == token
    requires |clock| == READINGS && n <= READINGS && Straddles(clock, wall, n)
    requires |before| == POOL && w.server.ctx.paths[p].pool == Refill(z.lib, z.conf[p].portRange, clock, before)
    requires Kept(n, c / TOTP_STEP - wall / TOTP_STEP)
    ensures Hears(z, w, p, Token(z.lib, z.conf[p].portRange, c, 0))
  {
    hide Token, Refill, Kept, Straddles;
    WindowAdmits(z.lib, z.conf[p].portRange, c, clock, wall, n, before);
  }

  /** In every run a client path whose socket is open is aimed, whatever state the server is put in. */
  lemma ReachableClientIsAimed(z: Setup, ws: seq<World>, steps: seq<Step>, i: nat, p: nat, server: Node)
    requires ValidSetup(z) && Run(z, ws, steps) && i < |ws| && p < |z.conf| && p < |ws[i].client.ctx.paths|
    requires var sock := ws[i].client.ctx.paths[p].sock; sock.Some? && sock.value in ws[i].client.workers
    ensures Aimed(z, ws[i].(server := server), p)
  {
    hide Run, WellFormed, IssuesOK, NodeOK, ServerOK;
    RunInv(z, ws, steps, i);
    EndsMtu(z, ws[i], Client);
    ClientTriple(z, ws, steps, i, p);
  }
}
