/** A fresh client and a fresh server find each other: there is a timely run that connects them. */
module Connect {
  import opened Base
  import opened Codec
  import opened Totp
  import opened Session
  import opened Window
  import opened Protocol
  import opened Safety
  import opened Theorems
  import opened TimedTheorems
  import opened Tunnel
  import opened Timing
  import opened Recovery
  import opened History
  import opened Stabilise
  import opened SelfStabilisation

  /** What a pass of an end made at a moment may draw and read. */
  predicate RoundAt(z: Setup, side: Mode, now: nat, round: Round) {
    ValidRound(z, round) && forall p :: 0 <= p < |z.conf| ==> ReadInTime(round.clocks[p], now + Skew(z, side))
  }

  /** The server listens on the endpoint of the client's first token, the client hops, and the server makes
      its first pass. */
  lemma Opens(z: Setup, p: nat, local: Addr, round: Round) returns (a: World, b: World, w: World)
    requires ValidSetup(z) && p < |z.conf| && !IsEndpoint(z, local)
    requires RoundAt(z, Server, 0, round) && OneStep(round.clocks[p], z.serverSkew)
    requires -9500 <= z.serverSkew - z.clientSkew <= 9500
    ensures TimelyTo(z, Start(z), Listen(p, HopToken(z, Start(z), p)), a)
    ensures b.now == 0 && TimelyTo(z, a, Hop(p, local), b) && TimelyTo(z, b, Beat(Server, round), w) && WellFormed(z, w)
    ensures Aimed(z, w, p) && Hears(z, w, p, w.client.ctx.paths[p].token)
    ensures Young(w, local, 0, None, Some(0))
  {
    hide Token, Refill, Heartbeats, Kept, ReadInTime, Aged, Straddles, AfterListen, AfterHop, IsEndpoint, WellFormed;
    a, b := Listens(z, p, local);
    w := AfterBeat(z, b, Server, round);
    BeatWellFormed(z, b, Server, round);
    KeptInTime(z.clientSkew, z.serverSkew, READINGS);
    WholeStep(round.clocks[p], z.serverSkew);
    Shapes(z, b);
    InWindowIsHeard(z, w, p, z.clientSkew, round.clocks[p], z.serverSkew, READINGS, b.server.ctx.paths[p].pool);
  }

  lemma Listens(z: Setup, p: nat, local: Addr) returns (a: World, b: World)
    requires ValidSetup(z) && p < |z.conf| && !IsEndpoint(z, local)
    ensures TimelyTo(z, Start(z), Listen(p, HopToken(z, Start(z), p)), a) && TimelyTo(z, a, Hop(p, local), b)
    ensures WellFormed(z, b) && Aimed(z, b, p) && Young(b, local, 0, None, None)
    ensures var token := Token(z.lib, z.conf[p].portRange, z.clientSkew, 0);
            && b.client.ctx.paths[p].token == token
            && b.server.workers == map[Endpoint(z.conf, p, token) := Worker(p, token, 0)]
  {
    hide Token;
    var token := HopToken(z, Start(z), p);
    TokenInRange(z.lib, z.conf[p].portRange, z.clientSkew, 0);
    a := AfterListen(z, Start(z), p, token);
    b := AfterHop(z, a, p, local);
  }

  /** The client has opened one worker, at time 0; the ends made their last passes at the given times. */
  ghost predicate Young(w: World, local: Addr, now: nat, client: Option<nat>, server: Option<nat>) {
    && w.now == now && w.client.passed == client && w.server.passed == server
    && w.client.workers == w.issued && w.issued.Keys == {local} && w.issued[local].deadline == LIFETIME
  }

  /** The client's first pass and its heartbeat delivered; afterwards 333 ms may pass. */
  lemma FirstExchange(z: Setup, w: World, p: nat, local: Addr, cs: Round, stale: seq<byte>)
    returns (f: Flight, m: World, u: World, t: World)
    requires ValidSetup(z) && WellFormed(z, w) && Aimed(z, w, p) && Hears(z, w, p, w.client.ctx.paths[p].token)
    requires Young(w, local, 0, None, Some(0)) && RoundAt(z, Client, 0, cs) && |stale| == BUFFER
    ensures SentBy(z, w, Beat(Client, cs), Client, p, f) && f.sent.src == local
    ensures TimelyTo(z, w, Beat(Client, cs), m) && TimelyTo(z, m, Deliver(Server, f, stale), u)
    ensures TimelyTo(z, u, Tick(333), t)
    ensures Young(t, local, 333, Some(0), Some(0)) && WellFormed(z, t) && Aimed(z, t, p) && Followed(z, t, p)
  {
    hide AfterBeat, AfterDeliver, WellFormed, Hears, Idle, ReadInTime;
    Sockets(z, w, p);
    f := BeatFlight(z, w, Client, p, cs);
    m := AfterBeat(z, w, Client, cs);
    u := ServerLearns(z, w, p, cs, stale);
    t := Apply(z, u, Tick(333));
    TickAimed(z, u, p, 333);
    Shapes(z, u);
  }

  /** The server has taken over the client's triple. */
  ghost predicate Followed(z: Setup, w: World, p: nat) {
    p < |w.client.ctx.paths| && p < |w.server.ctx.paths| &&
    var (c, s) := (w.client.ctx.paths[p], w.server.ctx.paths[p]);
    s.alive == TTL && s.token == c.token && s.sock == Some(c.remote) && c.sock == Some(s.remote)
  }

  /** The server's next pass, and its heartbeat delivered. */
  lemma LastExchange(z: Setup, w: World, p: nat, local: Addr, round: Round, stale: seq<byte>)
    returns (g: Flight, u: World, v: World)
    requires ValidSetup(z) && WellFormed(z, w) && Aimed(z, w, p) && Followed(z, w, p)
    requires Young(w, local, 333, Some(0), Some(0)) && RoundAt(z, Server, 333, round) && |stale| == BUFFER
    ensures TimelyTo(z, w, Beat(Server, round), u) && TimelyTo(z, u, Deliver(Client, g, stale), v)
    ensures Connected(z, v, p) && v.now == 333 && SentBy(z, w, Beat(Server, round), Server, p, g)
    ensures Young(u, local, 333, Some(0), Some(333)) && v.server.passed == Some(333)
  {
    hide AfterDeliver, WellFormed, Connected, Heartbeats, Pass, Aged, ReadInTime;
    g, v := ClientLearns(z, w, p, round, stale);
    var steps := [Beat(Server, round), Deliver(Client, g, stale)];
    u := Apply(z, w, steps[0]);
    assert steps[1..] == [steps[1]] && [steps[1]][1..] == [];
    assert Leads(z, u, [steps[1]], v);
    assert Leads(z, Apply(z, u, steps[1]), [], v);
    Bystander(z, u, steps[1], Server);
  }

  /** Instead, at 500 ms the client hops first. */
  lemma HopFirst(z: Setup, w: World, p: nat, local: Addr, other: Addr, g: Flight, stale: seq<byte>)
    returns (a: World, b: World, v: World)
    requires ValidSetup(z) && p < |z.conf| && Young(w, local, 333, Some(0), Some(333)) && WellFormed(z, w)
    requires other != local && !IsEndpoint(z, other)
    requires Enabled(z, w, Deliver(Client, g, stale))
    ensures TimelyTo(z, w, Tick(167), a) && TimelyTo(z, a, Hop(p, other), b) && TimelyTo(z, b, Deliver(Client, g, stale), v)
    ensures a.now == 500
  {
    hide Token, AfterDeliver, IsEndpoint, ValidSent;
    a := Apply(z, w, Tick(167));
    b := AfterHop(z, a, p, other);
    v := AfterDeliver(z, b, Client, g, stale);
  }

  /** Timely steps from the start make a timely run. */
  lemma StepByStep(z: Setup, ws: seq<World>, steps: seq<Step>)
    requires |ws| == |steps| + 1 && 8 <= |steps| && ws[0] == Start(z)
    requires TimelyTo(z, ws[0], steps[0], ws[1]) && TimelyTo(z, ws[1], steps[1], ws[2])
    requires TimelyTo(z, ws[2], steps[2], ws[3]) && TimelyTo(z, ws[3], steps[3], ws[4])
    requires TimelyTo(z, ws[4], steps[4], ws[5]) && TimelyTo(z, ws[5], steps[5], ws[6])
    requires TimelyTo(z, ws[6], steps[6], ws[7]) && TimelyTo(z, ws[7], steps[7], ws[8])
    requires forall i :: 8 <= i < |steps| ==> TimelyTo(z, ws[i], steps[i], ws[i + 1])
    ensures Segment(z, ws, steps) && TimelyRun(z, ws, steps)
  {
    hide WellFormed, Enabled, Apply, Timely;
    forall i | 0 <= i < |steps|
      ensures WellFormed(z, ws[i]) && Enabled(z, ws[i], steps[i])
      ensures Timely(z, ws[i], steps[i]) && ws[i + 1] == Apply(z, ws[i], steps[i])
    {
      assert 8 <= i ==> TimelyTo(z, ws[i], steps[i], ws[i + 1]);
    }
  }

  /** The steps contain an exchange of the kind that repairs a path. */
  lemma Exchange(z: Setup, ws: seq<World>, steps: seq<Step>, p: nat, local: Addr,
                 first: Round, cs: Round, stale: seq<byte>, ss: Round, stale': seq<byte>, f: Flight, g: Flight)
    requires ValidSetup(z) && Segment(z, ws, steps) && 8 <= |steps| && p < |z.conf|
    requires -9500 <= z.serverSkew - z.clientSkew <= 9500
    requires steps[2] == Beat(Server, first) && steps[3] == Beat(Client, cs) && steps[4] == Deliver(Server, f, stale)
    requires steps[5] == Tick(333) && steps[6] == Beat(Server, ss) && steps[|steps| - 1] == Deliver(Client, g, stale')
    requires forall t :: 7 <= t < |steps| - 1 ==> steps[t].Tick? || steps[t].Hop?
    requires Young(ws[3], local, 0, None, Some(0)) && f.sent.src == local
    requires RoundAt(z, Server, 0, first) && OneStep(first.clocks[p], z.serverSkew)
    requires SentBy(z, ws[3], steps[3], Client, p, f) && SentBy(z, ws[6], steps[6], Server, p, g)
    ensures Forward(z, ws, steps, p, Marks(2, 3, 4, 6, |steps| - 1)) && Back(z, ws, steps, p, Marks(2, 3, 4, 6, |steps| - 1))
  {
    hide Apply, WellFormed, SentBy, FilledBefore, ReadInTime, Kept;
    var x := Marks(2, 3, 4, 6, |steps| - 1);
    WholeStep(first.clocks[p], z.serverSkew);
    PassFills(z, ws, steps, p, x, f, z.serverSkew, READINGS);
    ServerPaths(z, ws[4], p);
  }

  lemma ServerPaths(z: Setup, w: World, p: nat)
    requires WellFormed(z, w) && p < |z.conf|
    ensures p < |w.server.ctx.paths|
  {
  }

  /** From the start, with wall clocks at most 9500 ms apart, eight steps connect the two ends on a path: the
      server listens, the client hops, the server's first pass, the client's first pass and its heartbeat
      delivered, 333 ms, the server's next pass and its heartbeat delivered. The steps make a timely run, and the
      last six of them are an exchange as in SelfStabilises. */
  lemma FreshStartConnects(z: Setup, p: nat, local: Addr, first: Round, cs: Round, stale: seq<byte>,
                           ss: Round, stale': seq<byte>)
    returns (ws: seq<World>, steps: seq<Step>)
    requires ValidSetup(z) && p < |z.conf| && !IsEndpoint(z, local)
    requires RoundAt(z, Server, 0, first) && RoundAt(z, Client, 0, cs) && RoundAt(z, Server, 333, ss)
    requires OneStep(first.clocks[p], z.serverSkew) && |stale| == |stale'| == BUFFER
    requires -9500 <= z.serverSkew - z.clientSkew <= 9500
    ensures |steps| == 8 && TimelyRun(z, ws, steps) && Connected(z, ws[8], p) && ws[8].now == 333
    ensures Forward(z, ws, steps, p, Marks(2, 3, 4, 6, 7)) && Back(z, ws, steps, p, Marks(2, 3, 4, 6, 7))
    ensures steps[4].Deliver? && steps[7].Deliver? && steps[4].flight.sent.src == local
    ensures steps == [Listen(p, HopToken(z, Start(z), p)), Hop(p, local), Beat(Server, first), Beat(Client, cs),
                      Deliver(Server, steps[4].flight, stale), Tick(333), Beat(Server, ss),
                      Deliver(Client, steps[7].flight, stale')]
    ensures Young(ws[3], local, 0, None, Some(0)) && ws[8].server.passed == Some(333)
  {
    hide Token, Refill, IsEndpoint, WellFormed, Enabled, Apply, Timely, Connected, Aimed, Hears, Followed, Young, SentBy,
         Forward, Back, TimelyTo, ValidSetup, RoundAt, Segment, OneStep;
    var a, b, w := Opens(z, p, local, first);
    var f, m, u, t := FirstExchange(z, w, p, local, cs, stale);
    var g, n, v := LastExchange(z, t, p, local, ss, stale');
    ws := [Start(z), a, b, w, m, u, t, n, v];
    steps := [Listen(p, HopToken(z, Start(z), p)), Hop(p, local), Beat(Server, first), Beat(Client, cs),
              Deliver(Server, f, stale), Tick(333), Beat(Server, ss), Deliver(Client, g, stale')];
    StepByStep(z, ws, steps);
    Exchange(z, ws, steps, p, local, first, cs, stale, ss, stale', f, g);
  }

  /** What SelfStabilises says of an exchange with a hop in it. */
  lemma Apart(z: Setup, ws: seq<World>, steps: seq<Step>, p: nat, local: Addr)
    requires ValidSetup(z) && Run(z, ws, steps) && |steps| == 10 && p < |z.conf|
    requires Forward(z, ws, steps, p, Marks(2, 3, 4, 6, 9)) && Back(z, ws, steps, p, Marks(2, 3, 4, 6, 9))
    requires forall t :: 4 < t < 9 ==> !steps[t].Deliver?
    requires HopsOn(steps[8], p) && ws[8].now == 500
    requires Young(ws[3], local, 0, None, Some(0)) && steps[4].flight.sent.src == local
    ensures !Matched(z, ws[10], p)
    ensures p < |ws[10].client.ctx.paths| && p < |ws[10].server.ctx.paths|
    ensures ws[10].client.ctx.paths[p].token == ws[10].server.ctx.paths[p].token <==>
            Token(z.lib, z.conf[p].portRange, 500 + z.clientSkew, 0) == Token(z.lib, z.conf[p].portRange, z.clientSkew, 0)
  {
    hide Token, WellFormed, Enabled, Apply, Matched, Inv, AnyServer, Sound, SentBy, Back, Steady, Quiet, Accepts, Start,
         FilledBefore, ValidSetup, PassesIn;
    StartSound(z);
    var m, n := SelfStabilises(z, [Start(z)], [], 0, Start(z).server, ws, steps, p, Marks(2, 3, 4, 6, 9));
    assert n == 4;
    assert HopsOn(steps[8], p) && 3 <= 8 < 9;
    SegmentSound(z, ws, steps, 3);
    ClientHeartbeat(z, ws[3], steps[3], p, steps[4].flight);
  }

  lemma StartSound(z: Setup)
    requires ValidSetup(z)
    ensures Sound(z, Start(z)) && AnyServer(z, Start(z).server) && Start(z).(server := Start(z).server) == Start(z)
  {
    hide Inv, AnyServer, Sound, Start;
    StartInv(z);
    ReachableServer(z, Start(z));
    ReachableIsSound(z, Start(z), Start(z).server);
  }

  /** When the client hops before the server's heartbeat arrives, the same exchange leaves the ends apart; their
      tokens then agree exactly when the two hops led to the same one. */
  lemma HopSetsApart(z: Setup, p: nat, local: Addr, other: Addr, first: Round, cs: Round, stale: seq<byte>,
                     ss: Round, stale': seq<byte>)
    returns (ws: seq<World>, steps: seq<Step>)
    requires ValidSetup(z) && p < |z.conf| && !IsEndpoint(z, local) && !IsEndpoint(z, other) && local != other
    requires RoundAt(z, Server, 0, first) && RoundAt(z, Client, 0, cs) && RoundAt(z, Server, 333, ss)
    requires OneStep(first.clocks[p], z.serverSkew) && |stale| == |stale'| == BUFFER
    requires -9500 <= z.serverSkew - z.clientSkew <= 9500
    ensures |steps| == 10 && TimelyRun(z, ws, steps)
    ensures Forward(z, ws, steps, p, Marks(2, 3, 4, 6, 9)) && Back(z, ws, steps, p, Marks(2, 3, 4, 6, 9))
    ensures !Matched(z, ws[10], p)
    ensures p < |ws[10].client.ctx.paths| && p < |ws[10].server.ctx.paths|
    ensures ws[10].client.ctx.paths[p].token == ws[10].server.ctx.paths[p].token <==>
            Token(z.lib, z.conf[p].portRange, 500 + z.clientSkew, 0) == Token(z.lib, z.conf[p].portRange, z.clientSkew, 0)
  {
    hide Token, Refill, IsEndpoint, WellFormed, Enabled, Apply, Timely, Connected, Aimed, Hears, Followed, Young, SentBy,
         Forward, Back, TimelyTo, ValidSetup, RoundAt, Segment, OneStep, Matched;
    var a, b, w := Opens(z, p, local, first);
    var f, m, u, t := FirstExchange(z, w, p, local, cs, stale);
    var g, n, skipped := LastExchange(z, t, p, local, ss, stale');
    DeliverStep(z, n, g, stale', skipped);
    var h, k, v := HopFirst(z, n, p, local, other, g, stale');
    ws := [Start(z), a, b, w, m, u, t, n, h, k, v];
    steps := [Listen(p, HopToken(z, Start(z), p)), Hop(p, local), Beat(Server, first), Beat(Client, cs),
              Deliver(Server, f, stale), Tick(333), Beat(Server, ss), Tick(167), Hop(p, other), Deliver(Client, g, stale')];
    StepByStep(z, ws, steps);
    Exchange(z, ws, steps, p, local, first, cs, stale, ss, stale', f, g);
    Apart(z, ws, steps, p, local);
  }

  lemma DeliverStep(z: Setup, w: World, g: Flight, stale: seq<byte>, v: World)
    requires TimelyTo(z, w, Deliver(Client, g, stale), v)
    ensures WellFormed(z, w) && Enabled(z, w, Deliver(Client, g, stale))
  {
    hide WellFormed, Apply, Timely;
  }

  // ---------------------------------------------------------------- a packet gets through

  /** One more timely step. */
  lemma Longer(z: Setup, ws: seq<World>, steps: seq<Step>, step: Step, v: World)
    requires TimelyRun(z, ws, steps) && TimelyTo(z, ws[|steps|], step, v)
    ensures TimelyRun(z, ws + [v], steps + [step])
  {
    hide WellFormed, Enabled, Apply, Timely, Start;
    var us, vs := ws + [v], steps + [step];
    forall i | 0 <= i < |vs|
      ensures WellFormed(z, us[i]) && Enabled(z, us[i], vs[i]) && Timely(z, us[i], vs[i]) && us[i + 1] == Apply(z, us[i], vs[i])
    {
      assert us[i] == ws[i] && (i < |steps| ==> vs[i] == steps[i] && us[i + 1] == ws[i + 1]);
    }
  }

  lemma NoHopStep(z: Setup, w: World, step: Step, q: nat)
    requires WellFormed(z, w) && Enabled(z, w, step) && q < |z.conf| && !HopsOn(step, q)
    requires q < |w.client.ctx.paths| && w.client.ctx.paths[q].sock == None
    ensures q < |Apply(z, w, step).client.ctx.paths| && Apply(z, w, step).client.ctx.paths[q].sock == None
  {
    if Boots(z, w, step, Client) {
      hide Arrival, Choose, Emit, WellFormed, IsEndpoint;
    } else {
      hide Apply, WellFormed, Enabled, Boots, HopsOn;
      ClientStep(z, w, step, q);
    }
  }

  /** A path that never hopped has no socket, and is not alive. */
  lemma {:induction false} NeverHopped(z: Setup, ws: seq<World>, steps: seq<Step>, q: nat, j: nat)
    requires ValidSetup(z) && Run(z, ws, steps) && j < |ws| && q < |z.conf| && forall t :: 0 <= t < j ==> !HopsOn(steps[t], q)
    ensures q < |ws[j].client.ctx.paths| && ws[j].client.ctx.paths[q].sock == None
    decreases j
  {
    hide Apply, WellFormed, Enabled, HopsOn;
    if j > 0 {
      NeverHopped(z, ws, steps, q, j - 1);
      RunStep(z, ws, steps, j - 1);
      NoHopStep(z, ws[j - 1], steps[j - 1], q);
    }
  }

  /** After the eight steps the client's path holds the token of its hop, and no other path is alive. */
  lemma OnlyPath(z: Setup, ws: seq<World>, steps: seq<Step>, p: nat, local: Addr)
    requires ValidSetup(z) && Run(z, ws, steps) && |steps| == 8 && p < |z.conf| && Connected(z, ws[8], p)
    requires Forward(z, ws, steps, p, Marks(2, 3, 4, 6, 7)) && Back(z, ws, steps, p, Marks(2, 3, 4, 6, 7))
    requires forall t :: 0 <= t < 8 && steps[t].Hop? ==> steps[t].path == p
    requires steps[7].Deliver? && forall t :: 4 < t < 8 && steps[t].Deliver? ==> steps[t].side == Client
    requires Young(ws[3], local, 0, None, Some(0)) && steps[4].flight.sent.src == local
    ensures ws[8].client.ctx.paths[p].token == Token(z.lib, z.conf[p].portRange, z.clientSkew, 0)
    ensures forall x: nat :: Alive(ws[8], Client, x) <==> x == p
  {
    hide Token, WellFormed, Enabled, Apply, Inv, AnyServer, Sound, SentBy, Back, Steady, Quiet, Accepts, Start,
         FilledBefore, ValidSetup, PassesIn;
    StartSound(z);
    var m, n := SelfStabilises(z, [Start(z)], [], 0, Start(z).server, ws, steps, p, Marks(2, 3, 4, 6, 7));
    assert n == 4;
    Stays(z, ws, steps, p, n);
    SegmentSound(z, ws, steps, 3);
    ClientHeartbeat(z, ws[3], steps[3], p, steps[4].flight);
    forall x: nat ensures Alive(ws[8], Client, x) <==> x == p {
      if x != p && Alive(ws[8], Client, x) {
        RunInv(z, ws, steps, 8);
        EndsMtu(z, ws[8], Client);
        NeverHopped(z, ws, steps, x, 8);
        AliveHasSocket(z, ws[8], Client);
        assert false;
      }
    }
  }

  /** The server's token is that of the datagram accepted last. */
  lemma Stays(z: Setup, ws: seq<World>, steps: seq<Step>, p: nat, n: nat)
    requires ValidSetup(z) && Segment(z, ws, steps) && Sound(z, ws[0]) && |steps| == 8 && p < |z.conf|
    requires LastHeard(z, ws, steps, p, n, 7) && steps[7].Deliver? && steps[7].side == Client
    ensures p < |ws[8].server.ctx.paths| && ws[8].server.ctx.paths[p].token == steps[n].flight.sent.token
  {
    hide WellFormed, Enabled, Apply, Sound, ValidSetup, LastHeard;
    StillLast(z, ws, steps, p, n, 7);
    HoldsLastHeard(z, ws, steps, p, n, 8);
  }

  /** A packet gets through: after those eight steps one more reads any packet within the MTU from the client's tun
      device, and another delivers its datagram, upon which the server writes the packet to its own. */
  lemma PacketGetsThrough(z: Setup, p: nat, local: Addr, first: Round, cs: Round, stale: seq<byte>, ss: Round, stale': seq<byte>,
                          payload: seq<byte>, salt: Salt, stale'': seq<byte>)
    returns (ws: seq<World>, steps: seq<Step>)
    requires ValidSetup(z) && p < |z.conf| && !IsEndpoint(z, local)
    requires RoundAt(z, Server, 0, first) && RoundAt(z, Client, 0, cs) && RoundAt(z, Server, 333, ss)
    requires OneStep(first.clocks[p], z.serverSkew) && |stale| == |stale'| == |stale''| == BUFFER
    requires -333 <= z.serverSkew - z.clientSkew <= 8667
    requires 0 < |payload| <= z.clientMtu <= z.serverMtu && ValidSalt(salt)
    ensures |steps| == 10 && TimelyRun(z, ws, steps) && steps[8] == Tun(Client, payload, salt)
    ensures payload in ws[10].server.wrote
  {
    hide Token, Refill, IsEndpoint, WellFormed, Enabled, Apply, Timely, Forward, Back, TimelyTo, ValidSetup, RoundAt, Segment,
         OneStep, Inv, Matched, Young;
    ws, steps := FreshStartConnects(z, p, local, first, cs, stale, ss, stale');
    LengthOf(z, ws, steps);
    OnlyPath(z, ws, steps, p, local);
    var a := Reads(z, ws, steps, payload, salt);
    Longer(z, ws, steps, Tun(Client, payload, salt), a);
    var us, vs := ws + [a], steps + [Tun(Client, payload, salt)];
    assert us[8] == ws[8] && vs[8] == Tun(Client, payload, salt);
    var f, b := Arrives(z, us, vs, p, payload, salt, stale'');
    Longer(z, us, vs, Deliver(Server, f, stale''), b);
    ws, steps := us + [b], vs + [Deliver(Server, f, stale'')];
  }

  lemma Reads(z: Setup, ws: seq<World>, steps: seq<Step>, payload: seq<byte>, salt: Salt) returns (a: World)
    requires ValidSetup(z) && Run(z, ws, steps) && 0 < |payload| <= z.clientMtu && ValidSalt(salt)
    ensures TimelyTo(z, ws[|steps|], Tun(Client, payload, salt), a)
  {
    hide Run, Inv, WellFormed, Apply;
    LengthOf(z, ws, steps);
    RunInv(z, ws, steps, |steps|);
    a := Apply(z, ws[|steps|], Tun(Client, payload, salt));
  }

  lemma LengthOf(z: Setup, ws: seq<World>, steps: seq<Step>)
    requires Run(z, ws, steps)
    ensures |ws| == |steps| + 1
  {
    hide Start, WellFormed, Enabled, Apply;
  }

  lemma Arrives(z: Setup, ws: seq<World>, steps: seq<Step>, p: nat, payload: seq<byte>, salt: Salt, stale: seq<byte>)
    returns (f: Flight, b: World)
    requires ValidSetup(z) && TimelyRun(z, ws, steps) && |steps| == 9 && p < |z.conf| && |stale| == BUFFER
    requires steps[8] == Tun(Client, payload, salt) && payload != [] && Connected(z, ws[8], p)
    requires forall x: nat :: Alive(ws[8], Client, x) <==> x == p
    requires ws[8].client.ctx.paths[p].token == Token(z.lib, z.conf[p].portRange, z.clientSkew, 0)
    requires ws[8].now == 333 && -333 <= z.serverSkew - z.clientSkew <= 8667 && z.clientMtu <= z.serverMtu
    requires ws[8].server.passed == Some(333)
    ensures TimelyTo(z, ws[9], Deliver(Server, f, stale), b) && payload in b.server.wrote
  {
    hide Token, WellFormed, Apply, Inv, BodyFits, Enabled, TimelyRun, Timely, Run, Next, InWindow;
    TimelyIsRun(z, ws, steps);
    LengthOf(z, ws, steps);
    RunStep(z, ws, steps, 8);
    var q := SentByTun(z, ws, steps, 8, Client, payload, salt);
    assert Alive(ws[8], Client, p);
    NextIsAlive(ws[8], Client, q);
    f := Outgoing(z, ws[8], Client, p, payload, salt);
    RunInv(z, ws, steps, 9);
    TunKeepsServer(z, ws[8], payload, salt);
    ReachesWorker(z, ws, steps, p, f, stale);
    AdmittedThere(z, ws, steps, p, f);
    b := Apply(z, ws[9], Deliver(Server, f, stale));
    NetOf(z, ws[9]);
    LargerMtuFits(z, ws[9], Server, f);
    DeliveryInFull(z, ws[9], Server, f, stale);
    AlwaysTimely(z, ws[9], f, stale);
  }

  lemma TimelyIsRun(z: Setup, ws: seq<World>, steps: seq<Step>)
    requires TimelyRun(z, ws, steps)
    ensures Run(z, ws, steps)
  {
  }

  lemma NextIsAlive(w: World, side: Mode, q: nat)
    requires Next(w, side, q)
    ensures Alive(w, side, q)
  {
  }

  lemma NetOf(z: Setup, w: World)
    requires Inv(z, w)
    ensures NetOK(z, w)
  {
  }

  lemma AlwaysTimely(z: Setup, w: World, f: Flight, stale: seq<byte>)
    requires WellFormed(z, w) && Enabled(z, w, Deliver(Server, f, stale))
    ensures TimelyTo(z, w, Deliver(Server, f, stale), Apply(z, w, Deliver(Server, f, stale)))
  {
    hide Apply, WellFormed, Enabled;
  }

  lemma TunKeepsServer(z: Setup, w: World, payload: seq<byte>, salt: Salt)
    requires WellFormed(z, w) && Enabled(z, w, Tun(Client, payload, salt))
    ensures var v := Apply(z, w, Tun(Client, payload, salt)); v.server == w.server && v.now == w.now && v.issued == w.issued
  {
    hide Choose, Emit, WellFormed;
  }

  /** The datagram goes to the server worker of the path. */
  lemma ReachesWorker(z: Setup, ws: seq<World>, steps: seq<Step>, p: nat, f: Flight, stale: seq<byte>)
    requires ValidSetup(z) && Run(z, ws, steps) && |ws| == 10 && p < |z.conf| && |stale| == BUFFER
    requires Connected(z, ws[8], p) && ws[9].server == ws[8].server && ws[9].issued == ws[8].issued && f in ws[9].net
    requires ws[8].client.ctx.paths[p].sock == Some(f.sent.src) && ws[8].client.ctx.paths[p].remote == f.sent.dst
    ensures WellFormed(z, ws[9]) && Enabled(z, ws[9], Deliver(Server, f, stale))
    ensures f.sent.dst in ws[9].server.workers && ws[9].server.workers[f.sent.dst].path == p
  {
    hide Run, WellFormed, Inv;
    TripleFromOneDatagram(z, ws, steps, 8, p);
    ClientTriple(z, ws, steps, 8, p);
    RunInv(z, ws, steps, 9);
    Agreement(z, ws[9], Server, f);
  }

  lemma AdmittedThere(z: Setup, ws: seq<World>, steps: seq<Step>, p: nat, f: Flight)
    requires ValidSetup(z) && TimelyRun(z, ws, steps) && |ws| == 10 && p < |z.conf|
    requires f.sent.token == Token(z.lib, z.conf[p].portRange, z.clientSkew, 0)
    requires ws[9].now == 333 && ws[9].server.passed == Some(333) && -333 <= z.serverSkew - z.clientSkew <= 8667
    requires f.sent.dst in ws[9].server.workers && ws[9].server.workers[f.sent.dst].path == p
    ensures p < |ws[9].server.ctx.paths| && InWindow(ws[9], Server, f)
  {
    hide Token, TimelyRun;
    var n := WindowInTime(z, ws, steps, 9, p, z.clientSkew);
  }
}
