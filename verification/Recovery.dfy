/** Worlds whose client is reachable and whose server is in any state, and what every step keeps of them. */
module Recovery {
  import opened Base
  import opened Codec
  import opened Totp
  import opened Selection
  import opened Session
  import opened Protocol
  import opened Safety

  // ---------------------------------------------------------------- a server in any state

  /** The server's workers listen where they should, and no alive path is aimed at the server itself.
      Otherwise counters, sockets, remote addresses, tokens, pools and cursor are arbitrary. */
  ghost predicate AnyServer(z: Setup, server: Node) {
    && ValidCtx(server.ctx, z.conf) && server.ctx.mode == Server && server.ctx.mtu == z.serverMtu
    && |server.heard| == |z.conf|
    && (forall a :: a in server.workers ==> ListensOK(z, a, server.workers[a]))
    && (forall p :: 0 <= p < |z.conf| ==> NotAtItself(z, server.ctx.paths[p]))
  }

  predicate NotAtItself(z: Setup, path: Path) {
    path.alive > 0 ==> !IsEndpoint(z, path.remote)
  }

  predicate Aims(z: Setup, issued: map<Addr, Worker>, p: nat, path: Path)
    requires p < |z.conf|
  {
    path.sock.Some? ==> Holds(issued, path.sock.value, p, path.token) && path.remote == Endpoint(z.conf, p, path.token)
  }

  /** The client's own part of the invariant; it asks nothing of the server. */
  ghost predicate ClientSound(z: Setup, issued: map<Addr, Worker>, client: Node) {
    && ValidCtx(client.ctx, z.conf) && client.ctx.mode == Client && client.ctx.mtu == z.clientMtu
    && |client.heard| == |z.conf|
    && (forall a :: a in client.workers ==> a in issued && client.workers[a] == issued[a])
    && (forall p :: 0 <= p < |z.conf| ==> Aims(z, issued, p, client.ctx.paths[p]))
  }

  /** The client's datagrams run from a worker to its endpoint under its token. The server's may be anything
      but addressed to the server. */
  ghost predicate FlightSound(z: Setup, issued: map<Addr, Worker>, f: Flight) {
    && ValidSent(f.sent)
    && if f.from == Client then
         && f.sent.src in issued && issued[f.sent.src].path < |z.conf| && issued[f.sent.src].token == f.sent.token
         && f.sent.dst == Endpoint(z.conf, issued[f.sent.src].path, f.sent.token)
       else !IsEndpoint(z, f.sent.dst)
  }

  ghost predicate NetSound(z: Setup, issued: map<Addr, Worker>, net: set<Flight>) {
    forall f :: f in net ==> FlightSound(z, issued, f)
  }

  ghost predicate Sound(z: Setup, w: World) {
    IssuesOK(z, w) && NetSound(z, w.issued, w.net) && ClientSound(z, w.issued, w.client) && AnyServer(z, w.server)
  }

  lemma SoundWellFormed(z: Setup, w: World)
    requires Sound(z, w)
    ensures WellFormed(z, w)
  {
    hide Token, IsEndpoint;
    forall a | a in w.client.workers ensures w.client.workers[a].path < |z.conf| {
      assert IssuedOK(z, w.now, a, w.issued[a]);
    }
    forall a | a in w.server.workers ensures w.server.workers[a].path < |z.conf| {
      assert ListensOK(z, a, w.server.workers[a]);
    }
    forall f | f in w.net ensures ValidSent(f.sent) {
      assert FlightSound(z, w.issued, f);
    }
  }

  /** A reachable world stays sound when its server is put in any state. */
  lemma ReachableIsSound(z: Setup, w: World, server: Node)
    requires ValidSetup(z) && Inv(z, w) && AnyServer(z, server)
    ensures Sound(z, w.(server := server))
  {
    hide Token, IsEndpoint, AnyServer;
    forall p | 0 <= p < |z.conf| ensures Aims(z, w.issued, p, w.client.ctx.paths[p]) {
      assert ClientPathOK(z, w, p, w.client.ctx.paths[p]);
    }
    forall f | f in w.net ensures FlightSound(z, w.issued, f) {
      assert FlightOK(z, w, f);
      if f.from == Server {
        assert IssuedOK(z, w.now, f.sent.dst, w.issued[f.sent.dst]);
      }
    }
    forall a | a in w.issued ensures IssuedOK(z, w.now, a, w.issued[a]) {
    }
  }

  /** The state of a reachable server, however old, is such a state; so is that of a server just started. */
  lemma ReachableServer(z: Setup, w: World)
    requires ValidSetup(z) && Inv(z, w)
    ensures AnyServer(z, w.server)
  {
    hide Token, IsEndpoint;
    forall p | 0 <= p < |z.conf| ensures NotAtItself(z, w.server.ctx.paths[p]) {
      var heard := w.server.heard[p];
      assert w.server.ctx.paths[p].alive == AliveAfter(heard);
      assert ServerPathOK(w, w.server.ctx.paths[p], heard) && HeardOK(w, Server, p, heard);
      if heard.Some? {
        assert IssuedOK(z, w.now, heard.value.flight.sent.src, w.issued[heard.value.flight.sent.src]);
      }
    }
  }

  lemma BootedServer(z: Setup, server: Node)
    ensures AnyServer(z, Booted(z, Server, server))
  {
  }

  lemma BootedClient(z: Setup, issued: map<Addr, Worker>, client: Node)
    ensures ClientSound(z, issued, Booted(z, Client, client))
  {
  }

  /** What reaches a server worker, whatever the state of the server, was made by the client under the
      worker's token. */
  lemma ServerAgreement(z: Setup, w: World, f: Flight)
    requires ValidSetup(z) && Sound(z, w) && f in w.net && f.sent.dst in w.server.workers
    ensures var k := w.server.workers[f.sent.dst];
            && f.from == Client && f.sent.token == k.token && k.path < |z.conf|
            && Holds(w.issued, f.sent.src, k.path, k.token) && f.sent.dst == Endpoint(z.conf, k.path, k.token)
            && !IsEndpoint(z, f.sent.src)
  {
    hide Token, ClientSound;
    var k := w.server.workers[f.sent.dst];
    assert ListensOK(z, f.sent.dst, k) && FlightSound(z, w.issued, f);
    assert IsEndpoint(z, Endpoint(z.conf, k.path, k.token));
    var o := w.issued[f.sent.src];
    assert IssuedOK(z, w.now, f.sent.src, o);
  }

  // ---------------------------------------------------------------- every step keeps it

  lemma HopSound(z: Setup, w: World, p: nat, local: Addr)
    requires ValidSetup(z) && Sound(z, w) && WellFormed(z, w) && Enabled(z, w, Hop(p, local))
    ensures Sound(z, AfterHop(z, w, p, local))
  {
    hide Token, IsEndpoint, WellFormed, AnyServer, IssuesOK;
    var v := AfterHop(z, w, p, local);
    HopIssues(z, w, p, local);
    forall f | f in v.net ensures FlightSound(z, v.issued, f) {
      assert FlightSound(z, w.issued, f);
    }
    forall q | 0 <= q < |z.conf| ensures Aims(z, v.issued, q, v.client.ctx.paths[q]) {
      assert Aims(z, w.issued, q, w.client.ctx.paths[q]);
    }
  }

  lemma ListenSound(z: Setup, w: World, p: nat, j: nat)
    requires Sound(z, w) && WellFormed(z, w) && Enabled(z, w, Listen(p, j))
    ensures Sound(z, AfterListen(z, w, p, j))
  {
    hide IsEndpoint, WellFormed, IssuesOK, NetSound, ClientSound;
    var v := AfterListen(z, w, p, j);
    LaterIssues(z, w, v);
    forall q | 0 <= q < |z.conf| ensures NotAtItself(z, v.server.ctx.paths[q]) {
      assert NotAtItself(z, w.server.ctx.paths[q]);
    }
  }

  lemma ClosedSound(z: Setup, w: World, step: Step)
    requires Sound(z, w) && WellFormed(z, w) && Enabled(z, w, step) && (step.Close? || step.Tick?)
    ensures Sound(z, Apply(z, w, step))
  {
    hide IsEndpoint, WellFormed, IssuesOK, NetSound, Aims, AnyServer;
    LaterIssues(z, w, Apply(z, w, step));
  }

  /** What a pass sends is sound. */
  lemma SendsSound(z: Setup, w: World, side: Mode, p: nat, payload: seq<byte>, salt: Salt)
    requires ValidSetup(z) && Sound(z, w) && p < |z.conf| && ValidSalt(salt) && |payload| <= Mtu(z, side)
    requires p < |NodeOf(w, side).ctx.paths| && NodeOf(w, side).ctx.paths[p].sock.Some?
    requires side == Server ==> NodeOf(w, side).ctx.paths[p].alive > 0
    ensures FlightSound(z, w.issued, Flight(Through(Mtu(z, side), NodeOf(w, side).ctx.paths[p], payload, salt), side, w.now))
  {
    hide IsEndpoint, IssuesOK, NetSound;
    if side == Client {
      assert Aims(z, w.issued, p, w.client.ctx.paths[p]);
    } else {
      assert NotAtItself(z, w.server.ctx.paths[p]);
    }
  }

  lemma HeartbeatsSound(z: Setup, w: World, side: Mode, round: Round)
    requires ValidSetup(z) && Sound(z, w) && WellFormed(z, w) && Enabled(z, w, Beat(side, round))
    ensures NetSound(z, w.issued, w.net + Heartbeats(z, w, side, round))
  {
    hide IsEndpoint, IssuesOK, ClientSound, AnyServer, FlightSound;
    forall f | f in Heartbeats(z, w, side, round) ensures FlightSound(z, w.issued, f) {
      var p :| 0 <= p < |z.conf| && Beats(side, NodeOf(w, side).ctx.paths[p]) &&
               f == Flight(Through(Mtu(z, side), NodeOf(w, side).ctx.paths[p], [], round.salts[p]), side, w.now);
      SendsSound(z, w, side, p, [], round.salts[p]);
    }
  }

  lemma BeatSound(z: Setup, w: World, side: Mode, round: Round)
    requires ValidSetup(z) && Sound(z, w) && WellFormed(z, w) && Enabled(z, w, Beat(side, round))
    ensures Sound(z, AfterBeat(z, w, side, round))
  {
    hide Refill, IsEndpoint, WellFormed, Enabled, Heartbeats, IssuesOK, NetSound;
    var v := AfterBeat(z, w, side, round);
    LaterIssues(z, w, v);
    HeartbeatsSound(z, w, side, round);
    if side == Client {
      hide AnyServer;
      forall q | 0 <= q < |z.conf| ensures Aims(z, v.issued, q, v.client.ctx.paths[q]) {
        assert Aims(z, w.issued, q, w.client.ctx.paths[q]);
      }
    } else {
      hide ClientSound;
      forall q | 0 <= q < |z.conf| ensures NotAtItself(z, v.server.ctx.paths[q]) {
        assert NotAtItself(z, w.server.ctx.paths[q]);
      }
    }
  }

  /** Moving the cursor and recording what was read or written changes nothing of this. */
  lemma CursorSound(z: Setup, w: World, v: World, side: Mode)
    requires Sound(z, w) && v.issued == w.issued && v.net == w.net && v.now == w.now
    requires v == WithNode(w, side, NodeOf(v, side))
    requires NodeOf(v, side) == NodeOf(w, side).(
               ctx := NodeOf(w, side).ctx.(cursor := NodeOf(v, side).ctx.cursor), read := NodeOf(v, side).read)
    requires ValidCtx(NodeOf(v, side).ctx, z.conf)
    ensures Sound(z, v)
  {
    hide IssuesOK, NetSound, Aims, NotAtItself, ListensOK;
    LaterIssues(z, w, v);
  }

  lemma TunSound(z: Setup, w: World, side: Mode, payload: seq<byte>, salt: Salt)
    requires ValidSetup(z) && Sound(z, w) && WellFormed(z, w) && Enabled(z, w, Tun(side, payload, salt))
    ensures Sound(z, AfterTun(z, w, side, payload, salt))
  {
    hide WellFormed, Sound, Pick, Mtu, FlightSound;
    SoundEnds(z, w, side);
    var node := NodeOf(w, side);
    var chosen := node.(ctx := Choose(node.ctx, z.conf), read := node.read + {payload});
    var u := WithNode(w, side, chosen);
    CursorSound(z, w, u, side);
    match Emit(chosen.ctx, payload, salt)
    case AssertFails => BootSound(z, u, side, chosen);
    case Unsent =>
    case Out(s) =>
      SoundEnds(z, u, side);
      SendsSound(z, u, side, chosen.ctx.cursor, payload, salt);
      SentSound(z, u, Flight(s, side, w.now));
  }

  lemma SoundEnds(z: Setup, w: World, side: Mode)
    requires Sound(z, w)
    ensures ValidCtx(NodeOf(w, side).ctx, z.conf) && NodeOf(w, side).ctx.mode == side && NodeOf(w, side).ctx.mtu == Mtu(z, side)
  {
    hide IssuesOK, NetSound, Aims, NotAtItself, ListensOK;
  }

  lemma SentSound(z: Setup, w: World, f: Flight)
    requires Sound(z, w) && FlightSound(z, w.issued, f)
    ensures Sound(z, w.(net := w.net + {f}))
  {
    hide FlightSound, IssuesOK, ClientSound, AnyServer;
    LaterIssues(z, w, w.(net := w.net + {f}));
  }

  lemma BootSound(z: Setup, w: World, side: Mode, node: Node)
    requires Sound(z, w)
    ensures Sound(z, WithNode(w, side, Booted(z, side, node)))
  {
    hide IssuesOK, NetSound, ClientSound, AnyServer, Booted;
    BootedServer(z, node);
    BootedClient(z, w.issued, node);
    LaterIssues(z, w, WithNode(w, side, Booted(z, side, node)));
  }

  lemma TookSound(z: Setup, w: World, v: World, side: Mode, f: Flight, wrote: set<seq<byte>>)
    requires ValidSetup(z) && Sound(z, w) && WellFormed(z, w) && f in w.net && f.sent.dst in NodeOf(w, side).workers
    requires Took(z, w, v, side, f, wrote)
    ensures Sound(z, v)
  {
    hide IsEndpoint, IssuesOK, NetSound, WellFormed, ListensOK;
    LaterIssues(z, w, v);
    if side == Client {
      hide AnyServer;
      TookClient(z, w, v, f, wrote);
    } else {
      hide ClientSound;
      ServerAgreement(z, w, f);
      forall q | 0 <= q < |z.conf| ensures NotAtItself(z, v.server.ctx.paths[q]) {
        assert NotAtItself(z, w.server.ctx.paths[q]);
      }
    }
  }

  lemma TookClient(z: Setup, w: World, v: World, f: Flight, wrote: set<seq<byte>>)
    requires ClientSound(z, w.issued, w.client) && WellFormed(z, w) && f.sent.dst in w.client.workers
    requires Took(z, w, v, Client, f, wrote)
    ensures ClientSound(z, v.issued, v.client)
  {
    hide IsEndpoint;
    forall q | 0 <= q < |z.conf| ensures Aims(z, v.issued, q, v.client.ctx.paths[q]) {
      assert Aims(z, w.issued, q, w.client.ctx.paths[q]);
    }
  }

  lemma DeliverSound(z: Setup, w: World, side: Mode, f: Flight, stale: seq<byte>)
    requires ValidSetup(z) && Sound(z, w) && WellFormed(z, w) && Enabled(z, w, Deliver(side, f, stale))
    ensures Sound(z, AfterDeliver(z, w, side, f, stale))
  {
    hide Decap, Buffer, Received, Sound, WellFormed;
    var v := AfterDeliver(z, w, side, f, stale);
    var outcome := Arrival(z, w, side, f, stale).1;
    SoundEnds(z, w, side);
    if outcome.Judged? && outcome.verdict.Aborted? {
      BootSound(z, w, side, NodeOf(w, side));
    } else if outcome.Judged? && !outcome.verdict.Rejected? {
      TookSound(z, w, v, side, f, NodeOf(v, side).wrote);
    }
  }

  lemma StepSound(z: Setup, w: World, step: Step)
    requires ValidSetup(z) && Sound(z, w) && WellFormed(z, w) && Enabled(z, w, step)
    ensures Sound(z, Apply(z, w, step)) && WellFormed(z, Apply(z, w, step))
  {
    hide Sound, WellFormed, AfterDeliver, AfterBeat, AfterTun, AfterHop, AfterListen, IsEndpoint, Booted;
    match step {
      case Hop(p, local) => HopSound(z, w, p, local);
      case Listen(p, j) => ListenSound(z, w, p, j);
      case Deliver(side, f, stale) => DeliverSound(z, w, side, f, stale);
      case Beat(side, round) => BeatSound(z, w, side, round);
      case Tun(side, payload, salt) => TunSound(z, w, side, payload, salt);
      case Restart(side) => BootSound(z, w, side, NodeOf(w, side));
      case _ => ClosedSound(z, w, step);
    }
    SoundWellFormed(z, Apply(z, w, step));
  }

  lemma {:induction false} SegmentSound(z: Setup, ws: seq<World>, steps: seq<Step>, i: nat)
    requires ValidSetup(z) && Segment(z, ws, steps) && Sound(z, ws[0]) && i < |ws|
    ensures Sound(z, ws[i]) && WellFormed(z, ws[i])
  {
    hide Sound, WellFormed, Enabled, Apply;
    if i == 0 {
      SoundWellFormed(z, ws[0]);
    } else {
      SegmentSound(z, ws, steps, i - 1);
      StepSound(z, ws[i - 1], steps[i - 1]);
    }
  }
}
