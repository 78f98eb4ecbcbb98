/** Self-stabilisation over run segments: one heartbeat each way repairs a path whatever the server
    remembered before and whatever else happens in between. */
module SelfStabilisation {
  import opened Base
  import opened Codec
  import opened Totp
  import opened Selection
  import opened Session
  import opened Window
  import opened Protocol
  import opened Safety
  import opened Theorems
  import opened History
  import opened Recovery
  import opened Stabilise

  // ---------------------------------------------------------------- the client's triple

  predicate HopsOn(step: Step, p: nat) {
    step.Hop? && step.path == p
  }

  function Triple(path: Path): (Option<Addr>, Addr, int) {
    (path.sock, path.remote, path.token)
  }

  /** Only a hop of the path and a start of the process touch the client's triple; a hop's socket is new. */
  lemma ClientStep(z: Setup, w: World, step: Step, p: nat)
    requires WellFormed(z, w) && Enabled(z, w, step) && p < |z.conf| && !Boots(z, w, step, Client)
    ensures p < |w.client.ctx.paths| == |Apply(z, w, step).client.ctx.paths|
    ensures var path := Apply(z, w, step).client.ctx.paths[p];
            if HopsOn(step, p) then
              path.sock == Some(step.local) && step.local !in w.issued && path.token == HopToken(z, w, p)
            else Triple(path) == Triple(w.client.ctx.paths[p])
  {
    hide WellFormed, Apply, Boots, Accepts, Refill, HopToken, IsEndpoint;
    PathStep(z, w, step, Client, p);
  }

  /** Records of issued addresses stay, and a worker that is gone does not come back. */
  lemma IssuedStep(z: Setup, w: World, step: Step, a: Addr)
    requires WellFormed(z, w) && Enabled(z, w, step) && a in w.issued
    ensures a in Apply(z, w, step).issued && Apply(z, w, step).issued[a] == w.issued[a]
    ensures a in Apply(z, w, step).client.workers ==> a in w.client.workers && !Boots(z, w, step, Client)
  {
    hide Pick, Token, IsEndpoint, Heartbeats, Refill, Aged, Decap, Buffer, Received, Bytes, WellFormed, Choose, Emit;
    match step
    case Deliver(_, _, _) => hide AfterBeat, AfterTun, AfterHop, AfterListen;
    case Beat(_, _) => hide AfterDeliver, AfterTun, AfterHop, AfterListen, Arrival;
    case Tun(_, _, _) => hide AfterDeliver, AfterBeat, AfterHop, AfterListen, Arrival;
    case _ => hide AfterDeliver, AfterBeat, AfterTun, Arrival;
  }

  lemma {:induction false} IssuedStays(z: Setup, ws: seq<World>, steps: seq<Step>, a: Addr, i: nat, j: nat)
    requires Segment(z, ws, steps) && i <= j <= |steps| && a in ws[i].issued
    ensures a in ws[j].issued && ws[j].issued[a] == ws[i].issued[a]
    ensures a in ws[j].client.workers ==> forall t :: i <= t < j ==> !Boots(z, ws[t], steps[t], Client)
    ensures a in ws[j].client.workers ==> a in ws[i].client.workers
    decreases j - i
  {
    hide Boots, Apply, Enabled, WellFormed;
    if i < j {
      assert WellFormed(z, ws[i]) && Enabled(z, ws[i], steps[i]) && ws[i + 1] == Apply(z, ws[i], steps[i]);
      IssuedStep(z, ws[i], steps[i], a);
      IssuedStays(z, ws, steps, a, i + 1, j);
    }
  }

  /** An active socket stays the active one exactly until the next hop of its path. */
  lemma {:induction false} ActiveUntilHop(z: Setup, ws: seq<World>, steps: seq<Step>, p: nat, a: Addr, i: nat, j: nat)
    requires Segment(z, ws, steps) && i <= j <= |steps| && p < |z.conf| && a in ws[i].issued
    requires p < |ws[i].client.ctx.paths| && ws[i].client.ctx.paths[p].sock == Some(a)
    requires forall t :: i <= t < j ==> !Boots(z, ws[t], steps[t], Client)
    ensures p < |ws[j].client.ctx.paths|
    ensures ws[j].client.ctx.paths[p].sock == Some(a) <==> forall t :: i <= t < j ==> !HopsOn(steps[t], p)
    decreases j
  {
    hide Boots, Apply, Enabled, WellFormed, HopToken, HopsOn;
    if i < j {
      ActiveUntilHop(z, ws, steps, p, a, i, j - 1);
      assert WellFormed(z, ws[j - 1]) && Enabled(z, ws[j - 1], steps[j - 1]) && ws[j] == Apply(z, ws[j - 1], steps[j - 1]);
      ClientStep(z, ws[j - 1], steps[j - 1], p);
      IssuedStays(z, ws, steps, a, i, j - 1);
    }
  }

  /** The token of the client's last hop on a path among steps i to j, or `token` when it made none. */
  ghost function HoppedTo(z: Setup, ws: seq<World>, steps: seq<Step>, p: nat, token: int, i: nat, j: nat): int
    requires i <= j <= |steps| < |ws| && p < |z.conf|
    decreases j
  {
    if i == j then token
    else if HopsOn(steps[j - 1], p) then HopToken(z, ws[j - 1], p)
    else HoppedTo(z, ws, steps, p, token, i, j - 1)
  }

  lemma {:induction false} TokenAfterHops(z: Setup, ws: seq<World>, steps: seq<Step>, p: nat, i: nat, j: nat)
    requires Segment(z, ws, steps) && i <= j <= |steps| && p < |z.conf| && p < |ws[i].client.ctx.paths|
    requires forall t :: i <= t < j ==> !Boots(z, ws[t], steps[t], Client)
    ensures p < |ws[j].client.ctx.paths|
    ensures ws[j].client.ctx.paths[p].token == HoppedTo(z, ws, steps, p, ws[i].client.ctx.paths[p].token, i, j)
    decreases j
  {
    hide Boots, Apply, Enabled, WellFormed, HopToken, HopsOn;
    if i < j {
      TokenAfterHops(z, ws, steps, p, i, j - 1);
      assert WellFormed(z, ws[j - 1]) && Enabled(z, ws[j - 1], steps[j - 1]) && ws[j] == Apply(z, ws[j - 1], steps[j - 1]);
      ClientStep(z, ws[j - 1], steps[j - 1], p);
    }
  }

  // ---------------------------------------------------------------- the server's pool

  /** Between two passes the pools stay as they are, unless the process is started again. */
  lemma PoolStep(z: Setup, w: World, step: Step, p: nat)
    requires WellFormed(z, w) && Enabled(z, w, step) && p < |z.conf| && !IsBeat(step, Server) && !Boots(z, w, step, Server)
    ensures p < |w.server.ctx.paths| == |Apply(z, w, step).server.ctx.paths|
    ensures Apply(z, w, step).server.ctx.paths[p].pool == w.server.ctx.paths[p].pool
  {
    hide WellFormed, Enabled, Apply, Boots, Accepts, Refill;
    PathStep(z, w, step, Server, p);
  }

  lemma {:induction false} PoolStays(z: Setup, ws: seq<World>, steps: seq<Step>, p: nat, i: nat, j: nat)
    requires Segment(z, ws, steps) && i <= j <= |steps| && p < |z.conf| && p < |ws[i].server.ctx.paths|
    requires forall t :: i <= t < j ==> !IsBeat(steps[t], Server) && !Boots(z, ws[t], steps[t], Server)
    ensures p < |ws[j].server.ctx.paths| && ws[j].server.ctx.paths[p].pool == ws[i].server.ctx.paths[p].pool
    decreases j
  {
    hide Boots, Apply, Enabled, WellFormed, IsBeat;
    if i < j {
      PoolStays(z, ws, steps, p, i, j - 1);
      assert WellFormed(z, ws[j - 1]) && Enabled(z, ws[j - 1], steps[j - 1]) && ws[j] == Apply(z, ws[j - 1], steps[j - 1]);
      PoolStep(z, ws[j - 1], steps[j - 1], p);
    }
  }

  lemma PoolFilled(z: Setup, w: World, round: Round, p: nat)
    requires WellFormed(z, w) && Enabled(z, w, Beat(Server, round)) && p < |z.conf|
    ensures p < |w.server.ctx.paths| == |AfterBeat(z, w, Server, round).server.ctx.paths|
    ensures |w.server.ctx.paths[p].pool| == POOL && |round.clocks| == |z.conf| && |round.clocks[p]| == READINGS
    ensures AfterBeat(z, w, Server, round).server.ctx.paths[p].pool ==
            Refill(z.lib, z.conf[p].portRange, round.clocks[p], w.server.ctx.paths[p].pool)
  {
    hide Refill, Heartbeats, Aged;
  }

  // ---------------------------------------------------------------- the server's triple

  /** Steps that bring the path nothing new leave the server's triple. */
  lemma ServerStep(z: Setup, w: World, step: Step, p: nat)
    requires WellFormed(z, w) && Enabled(z, w, step) && p < |z.conf| && Quiet(z, w, step, Server, p)
    ensures p < |w.server.ctx.paths| == |Apply(z, w, step).server.ctx.paths|
    ensures Triple(Apply(z, w, step).server.ctx.paths[p]) == Triple(w.server.ctx.paths[p])
  {
    hide WellFormed, Enabled, Apply, Boots, Accepts, Refill;
    PathStep(z, w, step, Server, p);
  }

  lemma {:induction false} ServerTripleStays(z: Setup, ws: seq<World>, steps: seq<Step>, p: nat, i: nat, j: nat)
    requires Segment(z, ws, steps) && i <= j <= |steps| && p < |z.conf| && p < |ws[i].server.ctx.paths|
    requires forall t :: i <= t < j ==> Quiet(z, ws[t], steps[t], Server, p)
    ensures p < |ws[j].server.ctx.paths| && Triple(ws[j].server.ctx.paths[p]) == Triple(ws[i].server.ctx.paths[p])
    decreases j
  {
    hide Quiet, Apply, Enabled, WellFormed, Triple;
    if i < j {
      ServerTripleStays(z, ws, steps, p, i, j - 1);
      assert WellFormed(z, ws[j - 1]) && Enabled(z, ws[j - 1], steps[j - 1]) && ws[j] == Apply(z, ws[j - 1], steps[j - 1]);
      ServerStep(z, ws[j - 1], steps[j - 1], p);
    }
  }

  /** Step m is the last before j at which the server accepts a datagram on the path. */
  ghost predicate LastHeard(z: Setup, ws: seq<World>, steps: seq<Step>, p: nat, m: nat, j: nat)
    requires Segment(z, ws, steps) && j <= |steps|
  {
    m < j && Accepting(z, ws[m], steps[m], Server, p) && forall t :: m < t < j ==> Quiet(z, ws[t], steps[t], Server, p)
  }

  /** While the server and the path's workers stay up there is such a step. */
  lemma {:induction false} LastHeardExists(z: Setup, ws: seq<World>, steps: seq<Step>, p: nat, i: nat, j: nat) returns (m: nat)
    requires Segment(z, ws, steps) && i < j <= |steps| && Accepting(z, ws[i], steps[i], Server, p)
    requires forall t :: i < t < j ==> Steady(z, ws[t], steps[t], Server, p)
    ensures i <= m && LastHeard(z, ws, steps, p, m, j)
    decreases j
  {
    hide Accepting, Steady, Apply, Enabled, WellFormed;
    if i + 1 == j {
      m := i;
    } else if Accepting(z, ws[j - 1], steps[j - 1], Server, p) {
      m := j - 1;
    } else {
      m := LastHeardExists(z, ws, steps, p, i, j - 1);
      forall t | m < t < j ensures Quiet(z, ws[t], steps[t], Server, p) {
      }
    }
  }

  /** The server's path holds the triple of the datagram accepted last, which is one of the client's. */
  lemma HoldsLastHeard(z: Setup, ws: seq<World>, steps: seq<Step>, p: nat, m: nat, j: nat)
    requires ValidSetup(z) && Segment(z, ws, steps) && Sound(z, ws[0]) && p < |z.conf| && j <= |steps|
    requires LastHeard(z, ws, steps, p, m, j)
    ensures p < |ws[j].server.ctx.paths|
    ensures var f := steps[m].flight;
            && f.from == Client && Holds(ws[j].issued, f.sent.src, p, f.sent.token)
            && f.sent.dst == Endpoint(z.conf, p, f.sent.token)
            && Triple(ws[j].server.ctx.paths[p]) == (Some(f.sent.dst), f.sent.src, f.sent.token)
  {
    hide Sound, Quiet, Apply, WellFormed, IsEndpoint, ValidSetup, Boots;
    SegmentSound(z, ws, steps, m);
    var f := steps[m].flight;
    AcceptedOn(z, ws[m], steps[m], Server, p);
    ServerAgreement(z, ws[m], f);
    AcceptedStep(z, ws, steps, Server, p, m);
    ServerTripleStays(z, ws, steps, p, m + 1, j);
    IssuedStays(z, ws, steps, f.sent.src, m, j);
  }

  lemma AcceptedOn(z: Setup, w: World, step: Step, side: Mode, p: nat)
    requires WellFormed(z, w) && Enabled(z, w, step) && Accepting(z, w, step, side, p)
    ensures step.flight in w.net && step.flight.sent.dst in NodeOf(w, side).workers
    ensures NodeOf(w, side).workers[step.flight.sent.dst].path == p
  {
    hide Arrival, WellFormed;
  }

  // ---------------------------------------------------------------- counters

  /** While the process stays up, n passes take at most n off a counter, whatever the path accepts meanwhile. */
  lemma {:induction false} AliveAtLeast(z: Setup, ws: seq<World>, steps: seq<Step>, side: Mode, p: nat,
                                        least: int, i: nat, j: nat)
    requires Segment(z, ws, steps) && i <= j <= |steps| && p < |z.conf| && p < |NodeOf(ws[i], side).ctx.paths|
    requires least <= TTL && least <= NodeOf(ws[i], side).ctx.paths[p].alive
    requires forall t :: i <= t < j ==> Steady(z, ws[t], steps[t], side, p)
    ensures p < |NodeOf(ws[j], side).ctx.paths|
    ensures least - PassesIn(steps, side, i, j) <= NodeOf(ws[j], side).ctx.paths[p].alive
    decreases j - i
  {
    hide Steady, Accepting, Apply, Enabled, WellFormed;
    if i < j {
      assert WellFormed(z, ws[i]) && Enabled(z, ws[i], steps[i]) && ws[i + 1] == Apply(z, ws[i], steps[i]);
      var beats := if IsBeat(steps[i], side) then 1 else 0;
      if Accepting(z, ws[i], steps[i], side, p) {
        AcceptedStep(z, ws, steps, side, p, i);
      } else {
        QuietStep(z, ws[i], steps[i], side, p);
      }
      AliveAtLeast(z, ws, steps, side, p, least - beats, i + 1, j);
    }
  }

  // ---------------------------------------------------------------- the exchange

  /** f is the heartbeat that the pass `step`, made in world w, sends on the path. */
  predicate SentBy(z: Setup, w: World, step: Step, side: Mode, p: nat, f: Flight) {
    && IsBeat(step, side) && p < |step.round.salts| && p < |NodeOf(w, side).ctx.paths|
    && Beats(side, NodeOf(w, side).ctx.paths[p]) && f == BeatFlight(z, w, side, p, step.round)
  }

  /** Five steps of a segment: a pass of the server, a pass of the client, the client's heartbeat delivered, a
      later pass of the server, and its heartbeat delivered. */
  datatype Marks = Marks(pass: nat, sent: nat, heard: nat, reply: nat, arrival: nat)

  /** The wall-clock time of the hop that opened the worker from which a datagram came. */
  function HopTime(z: Setup, w: World, f: Flight): int
    requires f.sent.src in w.issued
  {
    w.issued[f.sent.src].deadline - LIFETIME + z.clientSkew
  }

  /** The marked pass is the server's last one before the heartbeat arrives, its process has not been started
      since, and among the steps for which the pass filled the path's pool is that of the hop. */
  ghost predicate FilledBefore(z: Setup, ws: seq<World>, steps: seq<Step>, p: nat, x: Marks, f: Flight)
    requires Segment(z, ws, steps) && p < |z.conf| && x.heard < |steps| && x.sent < |ws|
  {
    && x.pass < x.heard && IsBeat(steps[x.pass], Server)
    && (forall t :: x.pass < t < x.heard ==> !IsBeat(steps[t], Server) && !Boots(z, ws[t], steps[t], Server))
    && f.sent.src in ws[x.sent].issued && 0 <= HopTime(z, ws[x.sent], f)
    && Filled(steps[x.pass].round.clocks[p], Totp.Step(HopTime(z, ws[x.sent], f), 0))
  }

  /** A heartbeat of the client reaches the server, and its token is in the pool, as it is when the marked pass
      filled it. */
  ghost predicate Forward(z: Setup, ws: seq<World>, steps: seq<Step>, p: nat, x: Marks)
    requires Segment(z, ws, steps)
  {
    && p < |z.conf| && x.sent < x.heard < |steps|
    && steps[x.heard].Deliver? && steps[x.heard].side == Server
    && var f := steps[x.heard].flight;
       && SentBy(z, ws[x.sent], steps[x.sent], Client, p, f)
       && p < |ws[x.heard].server.ctx.paths|
       && (f.sent.token in ws[x.heard].server.ctx.paths[p].pool || FilledBefore(z, ws, steps, p, x, f))
  }

  /** A pass fills the pool for every hop whose step it keeps: always within 9500 ms of it when its readings fall
      into one step. */
  lemma PassFills(z: Setup, ws: seq<World>, steps: seq<Step>, p: nat, x: Marks, f: Flight, wall: nat, n: nat)
    requires Segment(z, ws, steps) && p < |z.conf| && x.heard < |steps| && x.sent < |ws|
    requires x.pass < x.heard && IsBeat(steps[x.pass], Server) && ValidRound(z, steps[x.pass].round)
    requires forall t :: x.pass < t < x.heard ==> !IsBeat(steps[t], Server) && !Boots(z, ws[t], steps[t], Server)
    requires f.sent.src in ws[x.sent].issued && 0 <= HopTime(z, ws[x.sent], f)
    requires n <= READINGS && Straddles(steps[x.pass].round.clocks[p], wall, n)
    requires var hop := HopTime(z, ws[x.sent], f);
             Kept(n, hop / TOTP_STEP - wall / TOTP_STEP) || (n == READINGS && -9500 <= wall - hop <= 9500)
    ensures FilledBefore(z, ws, steps, p, x, f)
  {
    hide Boots, WellFormed, Enabled, Apply, HopTime, Straddles, Filled, Kept;
    var hop := HopTime(z, ws[x.sent], f);
    KeptInTime(hop, wall, n);
    FilledWhenKept(steps[x.pass].round.clocks[p], wall, n, hop);
  }

  /** A later heartbeat of the server reaches the client, and meanwhile neither the server nor a worker of the
      path on its side has been started. */
  ghost predicate Back(z: Setup, ws: seq<World>, steps: seq<Step>, p: nat, x: Marks)
    requires Segment(z, ws, steps)
  {
    && x.heard < x.reply < x.arrival < |steps|
    && steps[x.arrival].Deliver? && steps[x.arrival].side == Client
    && SentBy(z, ws[x.reply], steps[x.reply], Server, p, steps[x.arrival].flight)
    && forall t :: x.heard < t < x.arrival ==> Steady(z, ws[t], steps[t], Server, p)
  }

  /** What the client's heartbeat is: it belongs to a worker of the path. */
  lemma ClientHeartbeat(z: Setup, w: World, step: Step, p: nat, f: Flight)
    requires Sound(z, w) && p < |z.conf| && SentBy(z, w, step, Client, p, f)
    ensures f.sent.payload == [] && Holds(w.issued, f.sent.src, p, f.sent.token)
    ensures LIFETIME <= w.issued[f.sent.src].deadline
    ensures p < |w.client.ctx.paths|
    ensures w.client.ctx.paths[p].sock == Some(f.sent.src) && w.client.ctx.paths[p].token == f.sent.token
    ensures f.sent.token == Token(z.lib, z.conf[p].portRange, w.issued[f.sent.src].deadline - LIFETIME + z.clientSkew, 0)
  {
    hide Token, IsEndpoint, NetSound, AnyServer;
    assert Aims(z, w.issued, p, w.client.ctx.paths[p]);
    assert IssuedOK(z, w.now, f.sent.src, w.issued[f.sent.src]);
  }

  lemma AcceptsHeartbeat(z: Setup, w: World, side: Mode, f: Flight, stale: seq<byte>)
    requires ValidSetup(z) && WellFormed(z, w) && Enabled(z, w, Deliver(side, f, stale)) && f.sent.payload == []
    requires var k := NodeOf(w, side).workers[f.sent.dst];
             k.token == f.sent.token && Admits(NodeOf(w, side).ctx, k.path, k.token)
    ensures Accepting(z, w, Deliver(side, f, stale), side, NodeOf(w, side).workers[f.sent.dst].path)
  {
    hide Arrival, WellFormed, IsEndpoint, Admits;
    BeatAccepted(z, w, side, f, stale);
  }

  lemma PoolAtArrival(z: Setup, ws: seq<World>, steps: seq<Step>, p: nat, x: Marks, f: Flight) returns (before: seq<int>)
    requires Segment(z, ws, steps) && p < |z.conf| && x.heard < |steps| && x.sent < |ws|
    requires FilledBefore(z, ws, steps, p, x, f)
    ensures |before| == POOL && p < |ws[x.heard].server.ctx.paths|
    ensures p < |steps[x.pass].round.clocks| && |steps[x.pass].round.clocks[p]| == READINGS
    ensures ws[x.heard].server.ctx.paths[p].pool ==
            Refill(z.lib, z.conf[p].portRange, steps[x.pass].round.clocks[p], before)
  {
    hide WellFormed, IsEndpoint, Boots, Refill, AfterBeat, AfterDeliver, AfterTun, AfterHop, AfterListen, Enabled, Filled,
         HopTime;
    var round := steps[x.pass].round;
    assert steps[x.pass] == Beat(Server, round);
    PoolFilled(z, ws[x.pass], round, p);
    PoolStays(z, ws, steps, p, x.pass + 1, x.heard);
    before := ws[x.pass].server.ctx.paths[p].pool;
  }

  /** The client's token is in the pool when its heartbeat arrives. */
  lemma TokenInPool(z: Setup, ws: seq<World>, steps: seq<Step>, p: nat, x: Marks)
    requires ValidSetup(z) && Segment(z, ws, steps) && Sound(z, ws[0]) && Forward(z, ws, steps, p, x)
    ensures steps[x.heard].flight.sent.token in ws[x.heard].server.ctx.paths[p].pool
  {
    hide Sound, WellFormed, Enabled, Boots, SentBy, Refill, Token, Apply, ValidSetup, Filled, FilledBefore;
    var f := steps[x.heard].flight;
    if FilledBefore(z, ws, steps, p, x, f) {
      SegmentSound(z, ws, steps, x.sent);
      ClientHeartbeat(z, ws[x.sent], steps[x.sent], p, f);
      FilledOf(z, ws, steps, p, x, f);
      var before := PoolAtArrival(z, ws, steps, p, x, f);
      FilledAdmits(z.lib, z.conf[p].portRange, HopTime(z, ws[x.sent], f), steps[x.pass].round.clocks[p], before);
    }
  }

  lemma FilledOf(z: Setup, ws: seq<World>, steps: seq<Step>, p: nat, x: Marks, f: Flight)
    requires Segment(z, ws, steps) && p < |z.conf| && x.heard < |steps| && x.sent < |ws|
    requires FilledBefore(z, ws, steps, p, x, f) && f.sent.src in ws[x.sent].issued
    ensures x.pass < |steps| && steps[x.pass].Beat?
    ensures p < |steps[x.pass].round.clocks| && |steps[x.pass].round.clocks[p]| == READINGS
    ensures 0 <= HopTime(z, ws[x.sent], f)
    ensures Filled(steps[x.pass].round.clocks[p], Totp.Step(HopTime(z, ws[x.sent], f), 0))
  {
    hide WellFormed, Boots, Apply, Filled, HopTime;
  }

  /** The server accepts the client's heartbeat, in whatever state it was. */
  lemma ForwardAccepted(z: Setup, ws: seq<World>, steps: seq<Step>, p: nat, x: Marks)
    requires ValidSetup(z) && Segment(z, ws, steps) && Sound(z, ws[0]) && Forward(z, ws, steps, p, x)
    ensures Accepting(z, ws[x.heard], steps[x.heard], Server, p)
  {
    hide Sound, WellFormed, IsEndpoint, Boots, SentBy, Accepting, Apply, ValidSetup;
    var w, f, stale := ws[x.heard], steps[x.heard].flight, steps[x.heard].stale;
    SegmentSound(z, ws, steps, x.sent);
    SegmentSound(z, ws, steps, x.heard);
    ClientHeartbeat(z, ws[x.sent], steps[x.sent], p, f);
    assert steps[x.heard] == Deliver(Server, f, stale) && Enabled(z, w, Deliver(Server, f, stale));
    ServerAgreement(z, w, f);
    IssuedStays(z, ws, steps, f.sent.src, x.sent, x.heard);
    TokenInPool(z, ws, steps, p, x);
    AcceptsHeartbeat(z, w, Server, f, stale);
  }

  /** The server's next pass does reply, and so do all that are made before its counter runs out: while fewer
      than five passes lie in between, a pass sends a heartbeat back along the datagram accepted last. */
  lemma ServerReplies(z: Setup, ws: seq<World>, steps: seq<Step>, p: nat, x: Marks) returns (m: nat, g: Flight)
    requires ValidSetup(z) && Segment(z, ws, steps) && Sound(z, ws[0]) && Forward(z, ws, steps, p, x)
    requires x.heard < x.reply < |steps| && IsBeat(steps[x.reply], Server)
    requires forall t :: x.heard < t < x.reply ==> Steady(z, ws[t], steps[t], Server, p)
    requires PassesIn(steps, Server, x.heard + 1, x.reply) < TTL
    ensures SentBy(z, ws[x.reply], steps[x.reply], Server, p, g) && g in ws[x.reply + 1].net
    ensures x.heard <= m && LastHeard(z, ws, steps, p, m, x.reply)
    ensures var f := steps[m].flight.sent; g.sent.src == f.dst && g.sent.dst == f.src && g.sent.token == f.token
  {
    hide Sound, WellFormed, IsEndpoint, Accepting, Steady, ValidSetup, PassesIn, Boots, SentBy, LastHeard, Apply, Enabled;
    ForwardAccepted(z, ws, steps, p, x);
    AcceptedStep(z, ws, steps, Server, p, x.heard);
    AliveAtLeast(z, ws, steps, Server, p, TTL, x.heard + 1, x.reply);
    m := LastHeardExists(z, ws, steps, p, x.heard, x.reply);
    HoldsLastHeard(z, ws, steps, p, m, x.reply);
    g := PassSends(z, ws[x.reply], steps[x.reply], p);
  }

  lemma PassSends(z: Setup, w: World, step: Step, p: nat) returns (g: Flight)
    requires WellFormed(z, w) && Enabled(z, w, step) && IsBeat(step, Server) && p < |z.conf|
    requires p < |w.server.ctx.paths| && w.server.ctx.paths[p].alive > 0 && w.server.ctx.paths[p].sock.Some?
    ensures SentBy(z, w, step, Server, p, g) && g in Apply(z, w, step).net
    ensures (Some(g.sent.src), g.sent.dst, g.sent.token) == Triple(w.server.ctx.paths[p])
  {
    hide Pass, Aged;
    g := BeatFlight(z, w, Server, p, step.round);
  }

  /** The reply revives the client's path and touches nothing else of it. */
  lemma ReplyArrives(z: Setup, ws: seq<World>, steps: seq<Step>, p: nat, x: Marks, m: nat)
    requires ValidSetup(z) && Segment(z, ws, steps) && Sound(z, ws[0]) && p < |z.conf| && Back(z, ws, steps, p, x)
    requires LastHeard(z, ws, steps, p, m, x.reply)
    ensures var (f, g) := (steps[m].flight.sent, steps[x.arrival].flight.sent);
            g.src == f.dst && g.dst == f.src && g.token == f.token && f.src in ws[x.arrival].client.workers
    ensures p < |ws[x.arrival].client.ctx.paths| && p < |ws[x.arrival + 1].client.ctx.paths|
    ensures ws[x.arrival + 1].client.ctx.paths[p] == ws[x.arrival].client.ctx.paths[p].(alive := TTL)
  {
    hide Sound, WellFormed, IsEndpoint, Accepting, Steady, ValidSetup, Apply, LastHeard, BeatFlight;
    HoldsLastHeard(z, ws, steps, p, m, x.reply);
    var w, g, stale := ws[x.arrival], steps[x.arrival].flight, steps[x.arrival].stale;
    ReplyTriple(z, ws[x.reply], steps[x.reply], p, g);
    assert steps[x.arrival] == Deliver(Client, g, stale) && Enabled(z, w, Deliver(Client, g, stale));
    IssuedStays(z, ws, steps, g.sent.dst, x.reply, x.arrival);
    SegmentSound(z, ws, steps, x.arrival);
    ClientWorker(z, w, g.sent.dst);
    AcceptsHeartbeat(z, w, Client, g, stale);
    AcceptedStep(z, ws, steps, Client, p, x.arrival);
  }

  lemma ReplyTriple(z: Setup, w: World, step: Step, p: nat, g: Flight)
    requires SentBy(z, w, step, Server, p, g)
    ensures g.sent.payload == [] && (Some(g.sent.src), g.sent.dst, g.sent.token) == Triple(w.server.ctx.paths[p])
  {
  }

  lemma ClientWorker(z: Setup, w: World, a: Addr)
    requires Sound(z, w) && a in w.client.workers
    ensures a in w.issued && w.client.workers[a] == w.issued[a] && w.client.ctx.mode == Client
  {
    hide IssuesOK, NetSound, AnyServer, Aims;
  }

  /** The two ends of a path match exactly when the client's active worker is the one that the server heard
      last. */
  lemma MatchedIffHeard(z: Setup, ws: seq<World>, steps: seq<Step>, p: nat, n: nat, j: nat)
    requires ValidSetup(z) && Segment(z, ws, steps) && Sound(z, ws[0]) && p < |z.conf| && j <= |steps|
    requires LastHeard(z, ws, steps, p, n, j)
    ensures p < |ws[j].client.ctx.paths|
    ensures Matched(z, ws[j], p) <==> ws[j].client.ctx.paths[p].sock == Some(steps[n].flight.sent.src)
  {
    hide Sound, LastHeard, WellFormed, Enabled, Apply, ValidSetup, IsEndpoint;
    HoldsLastHeard(z, ws, steps, p, n, j);
    SegmentSound(z, ws, steps, j);
    SoundAims(z, ws[j], p);
  }

  lemma SoundAims(z: Setup, w: World, p: nat)
    requires Sound(z, w) && p < |z.conf|
    ensures ValidCtx(w.client.ctx, z.conf) && ValidCtx(w.server.ctx, z.conf) && Aims(z, w.issued, p, w.client.ctx.paths[p])
  {
    hide IssuesOK, NetSound, Aims, NotAtItself, ListensOK;
  }

  /** A delivery to the client is nothing to the server. */
  lemma StillLast(z: Setup, ws: seq<World>, steps: seq<Step>, p: nat, n: nat, j: nat)
    requires Segment(z, ws, steps) && j < |steps| && LastHeard(z, ws, steps, p, n, j)
    requires steps[j].Deliver? && steps[j].side == Client
    ensures LastHeard(z, ws, steps, p, n, j + 1)
    ensures Quiet(z, ws[j], steps[j], Server, p) && !IsBeat(steps[j], Server)
  {
    hide Arrival, Accepts, WellFormed, Enabled, Apply;
  }

  lemma AliveSinceHeard(z: Setup, ws: seq<World>, steps: seq<Step>, p: nat, n: nat, j: nat)
    requires Segment(z, ws, steps) && j < |steps| && p < |z.conf| && LastHeard(z, ws, steps, p, n, j)
    requires steps[j].Deliver? && steps[j].side == Client
    ensures p < |ws[j + 1].server.ctx.paths|
    ensures var passes := PassesIn(steps, Server, n + 1, j);
            ws[j + 1].server.ctx.paths[p].alive == if passes < TTL then TTL - passes else 0
  {
    hide Quiet, Accepting, WellFormed, Enabled, Apply, PassesIn;
    AcceptedStep(z, ws, steps, Server, p, n);
    SegmentAges(z, ws, steps, Server, p, n + 1, j);
    StillLast(z, ws, steps, p, n, j);
    QuietStep(z, ws[j], steps[j], Server, p);
  }

  /** When the server has heard nothing since the heartbeat, hops alone decide. */
  lemma SameHeartbeat(z: Setup, ws: seq<World>, steps: seq<Step>, p: nat, x: Marks, m: nat)
    requires ValidSetup(z) && Segment(z, ws, steps) && Sound(z, ws[0])
    requires Forward(z, ws, steps, p, x) && Back(z, ws, steps, p, x)
    requires x.heard <= m && LastHeard(z, ws, steps, p, m, x.reply) && LastHeard(z, ws, steps, p, x.heard, x.arrival)
    ensures var (v, f) := (ws[x.arrival + 1], steps[x.heard].flight.sent);
            && p < |v.client.ctx.paths| && p < |v.server.ctx.paths|
            && var (c, s) := (v.client.ctx.paths[p], v.server.ctx.paths[p]);
               && (c.sock == Some(f.src) <==> forall t :: x.sent <= t < x.arrival ==> !HopsOn(steps[t], p))
               && (c.token == s.token <==> HoppedTo(z, ws, steps, p, f.token, x.sent, x.arrival) == f.token)
  {
    hide Sound, WellFormed, Enabled, Apply, ValidSetup, Accepting, Steady, HoppedTo, HopsOn, SentBy, Boots;
    var f := steps[x.heard].flight;
    assert m == x.heard;
    ReplyArrives(z, ws, steps, p, x, m);
    SegmentSound(z, ws, steps, x.sent);
    ClientHeartbeat(z, ws[x.sent], steps[x.sent], p, f);
    IssuedStays(z, ws, steps, f.sent.src, x.sent, x.arrival);
    ActiveUntilHop(z, ws, steps, p, f.sent.src, x.sent, x.arrival);
    TokenAfterHops(z, ws, steps, p, x.sent, x.arrival);
    StillLast(z, ws, steps, p, x.heard, x.arrival);
    HoldsLastHeard(z, ws, steps, p, x.heard, x.arrival + 1);
  }

  /** Self-stabilisation. Take any reachable world, put its server in any state, and let anything happen from
      there. If a heartbeat of the client on a path reaches the server while its token is in the pool, as it is
      after a pass that filled the pool for the hop's step, and a later heartbeat of the server reaches the
      client, with neither the server nor the path's workers on its side started in between, then the server's
      heartbeat ran back along the datagram that the server accepted last, the client's path is alive, and the
      server's counter tells the passes since it last accepted one. The ends match exactly when the client's
      active worker is the one heard last; if that is still the heartbeat's, exactly when the client has not
      hopped since it was sent, and the tokens agree exactly when its last hop led to the same token again. */
  lemma SelfStabilises(z: Setup, us: seq<World>, vs: seq<Step>, i: nat, server: Node,
                       ws: seq<World>, steps: seq<Step>, p: nat, x: Marks)
    returns (m: nat, n: nat)
    requires ValidSetup(z) && Run(z, us, vs) && i < |us| && AnyServer(z, server)
    requires Segment(z, ws, steps) && ws[0] == us[i].(server := server)
    requires Forward(z, ws, steps, p, x) && Back(z, ws, steps, p, x)
    ensures x.heard <= m && LastHeard(z, ws, steps, p, m, x.reply)
    ensures x.heard <= n && LastHeard(z, ws, steps, p, n, x.arrival)
    ensures var (f, g) := (steps[m].flight.sent, steps[x.arrival].flight.sent);
            g.src == f.dst && g.dst == f.src && g.token == f.token
    ensures var v, f, passes := ws[x.arrival + 1], steps[n].flight.sent, PassesIn(steps, Server, n + 1, x.arrival);
            && p < |v.client.ctx.paths| && p < |v.server.ctx.paths|
            && var (c, s) := (v.client.ctx.paths[p], v.server.ctx.paths[p]);
               && c.alive == TTL
               && s.alive == (if passes < TTL then TTL - passes else 0)
               && (Matched(z, v, p) <==> c.sock == Some(f.src))
               && (n == x.heard ==>
                     && (Matched(z, v, p) <==> forall t :: x.sent <= t < x.arrival ==> !HopsOn(steps[t], p))
                     && (c.token == s.token <==> HoppedTo(z, ws, steps, p, f.token, x.sent, x.arrival) == f.token))
  {
    hide Sound, LastHeard, WellFormed, Enabled, Apply, ValidSetup, AnyServer, Run, Inv, Accepting, Steady, PassesIn,
         Matched, HoppedTo, HopsOn, SentBy, Boots;
    RunInv(z, us, vs, i);
    ReachableIsSound(z, us[i], server);
    ForwardAccepted(z, ws, steps, p, x);
    m := LastHeardExists(z, ws, steps, p, x.heard, x.reply);
    n := LastHeardExists(z, ws, steps, p, x.heard, x.arrival);
    ReplyArrives(z, ws, steps, p, x, m);
    StillLast(z, ws, steps, p, n, x.arrival);
    MatchedIffHeard(z, ws, steps, p, n, x.arrival + 1);
    AliveSinceHeard(z, ws, steps, p, n, x.arrival);
    if n == x.heard {
      SameHeartbeat(z, ws, steps, p, x, m);
    }
  }
}
