/** What the steps of a run do to the tunnel, written out: what is read from and written to the tun devices, which
    datagrams are sent, and between which ports. */
module Tunnel {
  import opened Base
  import opened Codec
  import opened Totp
  import opened Selection
  import opened Session
  import opened Protocol
  import opened Safety
  import opened Theorems

  // ---------------------------------------------------------------- what is written

  /** The datagram is not dropped by the server's token window. */
  predicate InWindow(w: World, side: Mode, f: Flight)
    requires f.sent.dst in NodeOf(w, side).workers
    requires NodeOf(w, side).workers[f.sent.dst].path < |NodeOf(w, side).ctx.paths|
  {
    side == Client || f.sent.token in NodeOf(w, side).ctx.paths[NodeOf(w, side).workers[f.sent.dst].path].pool
  }

  /** A delivery in full: dropped outside the window without a trace; otherwise a payload that is not empty is
      written to the tun device, the worker's path is renewed, and at the server takes over the datagram's
      addresses and token. */
  lemma DeliveryInFull(z: Setup, w: World, side: Mode, f: Flight, stale: seq<byte>)
    requires ValidSetup(z) && Inv(z, w) && WellFormed(z, w) && Enabled(z, w, Deliver(side, f, stale)) && BodyFits(z, side, f)
    ensures var node, v, p := NodeOf(w, side), Apply(z, w, Deliver(side, f, stale)), NodeOf(w, side).workers[f.sent.dst].path;
            if !InWindow(w, side, f) then v == w
            else
              && NodeOf(v, side).wrote == (if f.sent.payload == [] then node.wrote else node.wrote + {f.sent.payload})
              && NodeOf(v, side).read == node.read && NodeOf(v, side).workers == node.workers
              && NodeOf(v, side).ctx.paths == node.ctx.paths[p :=
                   if side == Server
                   then Path(5, f.sent.token, Some(f.sent.dst), f.sent.src, node.ctx.paths[p].pool)
                   else node.ctx.paths[p].(alive := 5)]
              && NodeOf(v, side).ctx.cursor == node.ctx.cursor
              && NodeOf(v, Other(side)) == NodeOf(w, Other(side))
              && v.net == w.net && v.issued == w.issued && v.now == w.now
  {
    hide Decap, Buffer, Received, Inv, IsEndpoint, ValidSent, BodyFits;
    Agreement(z, w, side, f);
    DeliveryOutcome(z, w, side, f, stale);
  }

  /** In every run the tun device of an end is written to by exactly the deliveries that the window lets through
      and whose payload is not empty, and what is written is the payload. */
  lemma WrittenByDelivery(z: Setup, ws: seq<World>, steps: seq<Step>, i: nat, side: Mode)
    requires ValidSetup(z) && Run(z, ws, steps) && i < |steps|
    requires steps[i].Deliver? && steps[i].side == side ==> BodyFits(z, side, steps[i].flight)
    ensures WellFormed(z, ws[i]) && Enabled(z, ws[i], steps[i])
    ensures NodeOf(ws[i + 1], side).wrote ==
            if steps[i].Deliver? && steps[i].side == side && InWindow(ws[i], side, steps[i].flight) &&
               steps[i].flight.sent.payload != []
            then NodeOf(ws[i], side).wrote + {steps[i].flight.sent.payload}
            else NodeOf(ws[i], side).wrote
  {
    hide Inv, WellFormed, Enabled, Apply, BodyFits, InWindow;
    RunInv(z, ws, steps, i);
    if steps[i].Deliver? && steps[i].side == side {
      DeliveryInFull(z, ws[i], side, steps[i].flight, steps[i].stale);
    } else {
      OthersWriteNothing(z, ws[i], steps[i], side);
    }
  }

  lemma OthersWriteNothing(z: Setup, w: World, step: Step, side: Mode)
    requires WellFormed(z, w) && Enabled(z, w, step) && !(step.Deliver? && step.side == side)
    ensures NodeOf(Apply(z, w, step), side).wrote == NodeOf(w, side).wrote
  {
    hide Pass, Heartbeats, Aged, Choose, Emit, Arrival, StartClient, StartServer, HopToken, IsEndpoint;
  }

  /** In every run what is read from the tun device of an end is recorded, and nothing else is. */
  lemma ReadByTun(z: Setup, ws: seq<World>, steps: seq<Step>, i: nat, side: Mode)
    requires Run(z, ws, steps) && i < |steps|
    ensures NodeOf(ws[i + 1], side).read ==
            if steps[i].Tun? && steps[i].side == side then NodeOf(ws[i], side).read + {steps[i].payload}
            else NodeOf(ws[i], side).read
  {
    hide Pass, Heartbeats, Aged, Choose, Emit, Arrival, StartClient, StartServer, HopToken, IsEndpoint, WellFormed, Start;
  }

  // ---------------------------------------------------------------- what is sent

  predicate Alive(w: World, side: Mode, q: nat) {
    q < |NodeOf(w, side).ctx.paths| && NodeOf(w, side).ctx.paths[q].alive > 0
  }

  /** How far path q is ahead of the path used last, going forward at least one. */
  function Ahead(w: World, side: Mode, q: nat): int {
    var last, n := NodeOf(w, side).ctx.cursor, |NodeOf(w, side).ctx.paths|;
    if q > last then q - last else q + n - last
  }

  /** q is alive and the first such path after the one used last. */
  ghost predicate Next(w: World, side: Mode, q: nat) {
    Alive(w, side, q) && forall x: nat :: Alive(w, side, x) ==> Ahead(w, side, q) <= Ahead(w, side, x)
  }

  /** The datagram that leaves through a path: from its socket to its remote address under its token. */
  function Outgoing(z: Setup, w: World, side: Mode, q: nat, payload: seq<byte>, salt: Salt): Flight
    requires q < |NodeOf(w, side).ctx.paths| && NodeOf(w, side).ctx.paths[q].sock.Some?
  {
    var path := NodeOf(w, side).ctx.paths[q];
    Flight(Sent(path.sock.value, path.remote, path.token, if side == Client then z.clientMtu else z.serverMtu, payload, salt),
           side, w.now)
  }

  /** In every run a packet read while some path is alive leaves whole, as exactly one datagram, through the
      next alive path; read while none is alive it is not sent. */
  lemma SentByTun(z: Setup, ws: seq<World>, steps: seq<Step>, i: nat, side: Mode, payload: seq<byte>, salt: Salt)
    returns (q: nat)
    requires ValidSetup(z) && Run(z, ws, steps) && i < |steps| && steps[i] == Tun(side, payload, salt)
    ensures (exists x: nat :: Alive(ws[i], side, x)) ==>
              && Next(ws[i], side, q) && NodeOf(ws[i], side).ctx.paths[q].sock.Some?
              && NodeOf(ws[i + 1], side).ctx == NodeOf(ws[i], side).ctx.(cursor := q)
              && ws[i + 1].net == ws[i].net + {Outgoing(z, ws[i], side, q, payload, salt)}
    ensures !(exists x: nat :: Alive(ws[i], side, x)) ==> ws[i + 1].net == ws[i].net
  {
    hide Inv, Run, WellFormed;
    RunStep(z, ws, steps, i);
    RunInv(z, ws, steps, i);
    q := TunSends(z, ws[i], side, payload, salt);
  }

  lemma RunStep(z: Setup, ws: seq<World>, steps: seq<Step>, i: nat)
    requires Run(z, ws, steps) && i < |steps|
    ensures |ws| == |steps| + 1 && WellFormed(z, ws[i]) && Enabled(z, ws[i], steps[i])
    ensures ws[i + 1] == Apply(z, ws[i], steps[i])
  {
    hide WellFormed, Enabled, Apply;
  }

  lemma TunSends(z: Setup, w: World, side: Mode, payload: seq<byte>, salt: Salt) returns (q: nat)
    requires ValidSetup(z) && Inv(z, w) && WellFormed(z, w) && Enabled(z, w, Tun(side, payload, salt))
    ensures var v := Apply(z, w, Tun(side, payload, salt));
            && ((exists x: nat :: Alive(w, side, x)) ==>
                  && Next(w, side, q) && NodeOf(w, side).ctx.paths[q].sock.Some?
                  && NodeOf(v, side).ctx == NodeOf(w, side).ctx.(cursor := q)
                  && v.net == w.net + {Outgoing(z, w, side, q, payload, salt)})
            && (!(exists x: nat :: Alive(w, side, x)) ==> v.net == w.net)
  {
    hide Inv, Pick, ValidSent, Scan, IsEndpoint;
    EndsMtu(z, w, side);
    AliveHasSocket(z, w, side);
    var ctx := NodeOf(w, side).ctx;
    q := Choose(ctx, z.conf).cursor;
    PickNearest(AliveFlags(ctx), ctx.cursor);
    FlagsAreAlive(w, side);
  }

  lemma FlagsAreAlive(w: World, side: Mode)
    ensures var flags := AliveFlags(NodeOf(w, side).ctx);
            && (forall x: nat :: x < |flags| ==> flags[x] == Alive(w, side, x))
            && (true in flags <==> exists x: nat :: Alive(w, side, x))
  {
    var flags := AliveFlags(NodeOf(w, side).ctx);
    if true in flags {
      var x: nat :| x < |flags| && flags[x];
      assert Alive(w, side, x);
    }
    if x: nat :| Alive(w, side, x) {
      assert flags[x];
    }
  }

  /** In every run a heartbeat pass sends exactly this: on each path with a socket, at the server only when it is
      alive, one empty datagram through the path's triple. */
  lemma SentByBeat(z: Setup, ws: seq<World>, steps: seq<Step>, i: nat, side: Mode, round: Round, f: Flight)
    requires Run(z, ws, steps) && i < |steps| && steps[i] == Beat(side, round)
    ensures |round.salts| == |z.conf| == |NodeOf(ws[i], side).ctx.paths|
    ensures f in ws[i + 1].net <==>
            || f in ws[i].net
            || exists p: nat :: p < |z.conf| && (side == Client || Alive(ws[i], side, p)) &&
                 NodeOf(ws[i], side).ctx.paths[p].sock.Some? && f == Outgoing(z, ws[i], side, p, [], round.salts[p])
  {
    hide Run, Pass, Aged, ValidSent, IsEndpoint;
    RunStep(z, ws, steps, i);
    var w := ws[i];
    if f in Heartbeats(z, w, side, round) {
      var p :| 0 <= p < |z.conf| && Beats(side, NodeOf(w, side).ctx.paths[p]) &&
               f == Flight(Through(Mtu(z, side), NodeOf(w, side).ctx.paths[p], [], round.salts[p]), side, w.now);
      assert p >= 0 && f == Outgoing(z, w, side, p, [], round.salts[p]);
    }
    if p: nat :| p < |z.conf| && (side == Client || Alive(w, side, p)) &&
                 NodeOf(w, side).ctx.paths[p].sock.Some? && f == Outgoing(z, w, side, p, [], round.salts[p]) {
      assert Beats(side, NodeOf(w, side).ctx.paths[p]);
    }
  }

  /** Nothing else sends. */
  lemma OthersSendNothing(z: Setup, ws: seq<World>, steps: seq<Step>, i: nat)
    requires Run(z, ws, steps) && i < |steps| && !steps[i].Tun? && !steps[i].Beat?
    ensures ws[i + 1].net == ws[i].net
  {
    hide Arrival, StartClient, StartServer, HopToken, IsEndpoint, WellFormed, Start, Booted;
  }

  /** What a worker gets of a datagram: its bytes, cut to the receiver's MTU and header and to the buffer. */
  lemma ReceivedBytes(z: Setup, side: Mode, f: Flight, stale: seq<byte>)
    requires ValidSent(f.sent) && |stale| == 2068
    ensures Fits(z.lib, f.sent.mtu, f.sent.payload, 0, f.sent.salt)
    ensures var bytes, mtu := Bytes(z.lib, f.sent), if side == Client then z.clientMtu else z.serverMtu;
            var n := Received(z, side, f);
            && n <= |bytes| && n <= mtu + 20 && n <= 2068 && (n == |bytes| || n == mtu + 20 || n == 2068)
            && Buffer(z, side, f, stale) == bytes[..n] + stale[n..]
  {
    SmallFits(z.lib, f.sent.mtu, f.sent.payload, 0, f.sent.salt);
    hide Bytes;
  }

  // ---------------------------------------------------------------- from end to end

  /** A packet read from a tun device while a path is alive is sent in one datagram, and whenever that datagram is
      delivered, now or later, once or again, and the window lets it through, the other end writes the packet to
      its tun device. */
  lemma PacketCrosses(z: Setup, ws: seq<World>, steps: seq<Step>, side: Mode, payload: seq<byte>, salt: Salt,
                      i: nat, k: nat, stale: seq<byte>) returns (q: nat)
    requires ValidSetup(z) && Run(z, ws, steps) && i < k < |steps|
    requires steps[i] == Tun(side, payload, salt) && exists x: nat :: Alive(ws[i], side, x)
    ensures Next(ws[i], side, q) && NodeOf(ws[i], side).ctx.paths[q].sock.Some?
    ensures var f := Outgoing(z, ws[i], side, q, payload, salt);
            && f in ws[i + 1].net
            && (steps[k] == Deliver(Other(side), f, stale) && BodyFits(z, Other(side), f) ==>
                  && WellFormed(z, ws[k]) && Enabled(z, ws[k], steps[k])
                  && (InWindow(ws[k], Other(side), f) ==> payload in NodeOf(ws[k + 1], Other(side)).wrote))
  {
    hide Run, Inv, WellFormed, Apply, BodyFits, InWindow;
    RunStep(z, ws, steps, i);
    q := SentByTun(z, ws, steps, i, side, payload, salt);
    var f := Outgoing(z, ws[i], side, q, payload, salt);
    if steps[k] == Deliver(Other(side), f, stale) && BodyFits(z, Other(side), f) {
      WrittenByDelivery(z, ws, steps, k, Other(side));
    }
  }

  // ---------------------------------------------------------------- ports

  /** In every run a datagram of the client under a token goes, from a worker of one path, to that path's port
      number `token`, counted from its first. */
  lemma ClientPorts(z: Setup, ws: seq<World>, steps: seq<Step>, i: nat, f: Flight)
    requires ValidSetup(z) && Run(z, ws, steps) && i < |ws| && f in ws[i].net && f.from == Client
    ensures f.sent.src in ws[i].issued
    ensures var p := ws[i].issued[f.sent.src].path;
            && p < |z.conf| && 0 <= f.sent.token <= z.conf[p].portRange
            && f.sent.dst == Addr(z.conf[p].host, z.conf[p].portStart + f.sent.token)
  {
    hide Run, WellFormed, ClientOK, ServerOK, Token, IsEndpoint;
    RunInv(z, ws, steps, i);
    assert FlightOK(z, ws[i], f) && IssuedOK(z, ws[i].now, f.sent.src, ws[i].issued[f.sent.src]);
  }

  /** ... where the server's worker of that token listens. */
  lemma ServerPorts(z: Setup, ws: seq<World>, steps: seq<Step>, i: nat, a: Addr)
    requires ValidSetup(z) && Run(z, ws, steps) && i < |ws| && a in ws[i].server.workers
    ensures var k := ws[i].server.workers[a];
            k.path < |z.conf| && k.token <= z.conf[k.path].portRange &&
            a == Addr(z.conf[k.path].host, z.conf[k.path].portStart + k.token)
  {
    hide Run, WellFormed, ClientOK, NodeOK, IssuesOK, NetOK, ServerPathOK;
    RunInv(z, ws, steps, i);
    assert ListensOK(z, a, ws[i].server.workers[a]);
  }

  /** A hop in full. */
  lemma HopInFull(z: Setup, w: World, p: nat, local: Addr)
    requires WellFormed(z, w) && Enabled(z, w, Hop(p, local))
    ensures var v, token := Apply(z, w, Hop(p, local)), Token(z.lib, z.conf[p].portRange, w.now + z.clientSkew, 0);
            && v.client.workers == w.client.workers[local := Worker(p, token, w.now + 5000)]
            && v.issued == w.issued[local := Worker(p, token, w.now + 5000)]
            && v.client.ctx.paths == w.client.ctx.paths[p :=
                 Path(w.client.ctx.paths[p].alive, token, Some(local),
                      Addr(z.conf[p].host, z.conf[p].portStart + token), w.client.ctx.paths[p].pool)]
            && v.client.ctx.cursor == w.client.ctx.cursor && v.client.read == w.client.read && v.client.wrote == w.client.wrote
            && v.server == w.server && v.net == w.net && v.now == w.now
  {
    hide Token, IsEndpoint, ValidSent;
  }

  /** A server worker's start in full. */
  lemma ListenInFull(z: Setup, w: World, p: nat, j: nat)
    requires WellFormed(z, w) && Enabled(z, w, Listen(p, j))
    ensures var v, a := Apply(z, w, Listen(p, j)), Addr(z.conf[p].host, z.conf[p].portStart + j);
            && a in v.server.workers && v.server.workers[a].path == p && v.server.workers[a].token == j
            && (forall b :: b in v.server.workers && b != a <==> b in w.server.workers)
            && (forall b :: b in w.server.workers ==> v.server.workers[b] == w.server.workers[b])
            && v.server.ctx.paths == w.server.ctx.paths[p := w.server.ctx.paths[p].(alive := 0, sock := Some(a))]
            && v.server.ctx.cursor == w.server.ctx.cursor && v.server.read == w.server.read && v.server.wrote == w.server.wrote
            && v.client == w.client && v.net == w.net && v.now == w.now && v.issued == w.issued
  {
    hide IsEndpoint, ValidSent;
  }

  /** A worker's end in full: only this one closes, and the active socket stays what it is. */
  lemma CloseInFull(z: Setup, w: World, local: Addr)
    requires WellFormed(z, w) && Enabled(z, w, Close(local))
    ensures var v := Apply(z, w, Close(local));
            && local !in v.client.workers
            && (forall b :: b in v.client.workers && b != local <==> b in w.client.workers && b != local)
            && (forall b :: b in v.client.workers ==> v.client.workers[b] == w.client.workers[b])
            && v.client == w.client.(workers := v.client.workers)
            && v.server == w.server && v.net == w.net && v.now == w.now && v.issued == w.issued
  {
    hide ValidSent;
  }

  /** A new start in full: every path is dead, without socket and token, and all its slots are 0; no worker is open. */
  lemma RestartInFull(z: Setup, w: World, side: Mode)
    requires WellFormed(z, w)
    ensures Enabled(z, w, Restart(side))
    ensures var v := Apply(z, w, Restart(side));
            && |NodeOf(v, side).ctx.paths| == |z.conf| && NodeOf(v, side).ctx.cursor == 0
            && (forall q :: 0 <= q < |z.conf| ==> var path := NodeOf(v, side).ctx.paths[q];
                  path.alive == 0 && path.token == 0 && path.sock == None && |path.pool| == 40 &&
                  forall k :: 0 <= k < 40 ==> path.pool[k] == 0)
            && NodeOf(v, side).workers == map[]
            && NodeOf(v, side).read == NodeOf(w, side).read && NodeOf(v, side).wrote == NodeOf(w, side).wrote
            && NodeOf(v, Other(side)) == NodeOf(w, Other(side))
            && v.net == w.net && v.now == w.now && v.issued == w.issued
  {
    hide ValidSent;
  }
}
