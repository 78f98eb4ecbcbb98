/** What timely runs guarantee in milliseconds: hop timing, liveness of a path, and the token window. */
module TimedTheorems {
  import opened Base
  import opened Codec
  import opened Totp
  import opened Session
  import opened Window
  import opened Protocol
  import opened Safety
  import opened Theorems
  import opened Timing

  // ---------------------------------------------------------------- hop timing

  /** The open client workers of a path. */
  function OpenOn(w: World, p: nat): set<Addr> {
    set a | a in w.client.workers && w.client.workers[a].path == p
  }

  /** Addresses with different slots below k are at most k. */
  lemma {:induction false} AtMost(xs: set<Addr>, slot: map<Addr, nat>, k: nat)
    requires forall a :: a in xs ==> a in slot && slot[a] < k
    requires forall a, b :: a in xs && b in xs && a != b ==> slot[a] != slot[b]
    ensures |xs| <= k
    decreases k
  {
    if xs == {} {
    } else if last :| last in xs && slot[last] == k - 1 {
      AtMost(xs - {last}, slot, k - 1);
    } else {
      var a :| a in xs;
      assert slot[a] < k;
      AtMost(xs, slot, k - 1);
    }
  }

  /** In a timely run the active socket of the client on a path is always one that is still open, and at most
      10 workers of a path are open at any time. */
  lemma HopTiming(z: Setup, ws: seq<World>, steps: seq<Step>, i: nat, p: nat)
    requires ValidSetup(z) && TimelyRun(z, ws, steps) && i < |ws| && p < |z.conf|
    ensures p < |ws[i].client.ctx.paths|
    ensures var sock := ws[i].client.ctx.paths[p].sock; sock.Some? ==> sock.value in ws[i].client.workers
    ensures |OpenOn(ws[i], p)| <= 10
  {
    hide TimelyRun, Inv, WellFormed, SendsOK, PassesOK, PoolsOK, NodeOK, ClientPathOK;
    var w := ws[i];
    TimelyInv(z, ws, steps, i);
    ClientPart(z, w);
    OwnSocket(z, ws, steps, i, p);
    var sock := w.client.ctx.paths[p].sock;
    assert ActiveOK(w, p, sock);
    if OpenOn(w, p) != {} {
      var some :| some in OpenOn(w, p);
      assert sock.Some?;
      var d := w.client.workers[sock.value].deadline;
      assert forall a :: a in OpenOn(w, p) ==> 0 <= d - w.client.workers[a].deadline < LIFETIME;
      var slot := map a | a in OpenOn(w, p) :: (d - w.client.workers[a].deadline) / TOTP_STEP;
      AtMost(OpenOn(w, p), slot, 10);
    }
  }

  predicate ActivePath(w: World, p: nat, a: Addr) {
    a in w.client.workers && w.client.workers[a].path == p
  }

  lemma OwnSocket(z: Setup, ws: seq<World>, steps: seq<Step>, i: nat, p: nat)
    requires ValidSetup(z) && TimelyRun(z, ws, steps) && i < |ws| && p < |z.conf|
    ensures p < |ws[i].client.ctx.paths|
    ensures var sock := ws[i].client.ctx.paths[p].sock; sock.Some? ==> ActivePath(ws[i], p, sock.value)
  {
    hide Run, Inv, WellFormed, SendsOK, PassesOK, PoolsOK, NodeOK, ClientPathOK, Timely;
    TimelyInv(z, ws, steps, i);
    ClientPart(z, ws[i]);
    ClientTriple(z, ws, steps, i, p);
    assert ActiveOK(ws[i], p, ws[i].client.ctx.paths[p].sock);
  }

  // ---------------------------------------------------------------- how long a path stays usable

  /** In a timely run a path that accepted a datagram is alive for at least 1332 ms from then on, and dead once
      3325 ms have passed without another. */
  lemma AliveTiming(z: Setup, ws: seq<World>, steps: seq<Step>, i: nat, side: Mode, p: nat)
    requires ValidSetup(z) && TimelyRun(z, ws, steps) && i < |ws| && p < |z.conf|
    ensures p < |NodeOf(ws[i], side).ctx.paths| && p < |NodeOf(ws[i], side).heard|
    ensures var heard := NodeOf(ws[i], side).heard[p];
            heard.Some? ==>
              && (ws[i].now < heard.value.at + 1332 ==> NodeOf(ws[i], side).ctx.paths[p].alive > 0)
              && (ws[i].now > heard.value.at + 3325 ==> NodeOf(ws[i], side).ctx.paths[p].alive == 0)
  {
    hide Run, Inv, WellFormed, SendsOK, WorkersOK, PoolsOK, Timely;
    TimelyInv(z, ws, steps, i);
    AliveIsHistory(z, ws, steps, i, side, p);
    var node := NodeOf(ws[i], side);
    assert HeardTime(ws[i].now, node.passed, node.heard[p]);
  }

  // ---------------------------------------------------------------- the window in a run

  /** During the last pass of an end the step changed after n readings for the path. */
  predicate ChangedAfter(z: Setup, node: Node, side: Mode, p: nat, n: nat) {
    node.passed.Some? && p < |node.clocks| && n <= READINGS && |node.clocks[p]| == READINGS &&
    Straddles(node.clocks[p], node.passed.value + Skew(z, side), n)
  }

  /** In a timely run the pool of a path, once filled, is exactly 0 and the tokens of the kept steps around the
      last pass, which was at most 665 ms ago; these are the 39 steps from -19 to 19 exactly when all readings of
      the pass for this path fall into the step in which the pass began. */
  lemma PoolIsWindow(z: Setup, ws: seq<World>, steps: seq<Step>, i: nat, side: Mode, p: nat) returns (n: nat)
    requires ValidSetup(z) && TimelyRun(z, ws, steps) && i < |ws| && p < |z.conf|
    requires NodeOf(ws[i], side).passed.Some?
    ensures p < |NodeOf(ws[i], side).ctx.paths| && ChangedAfter(z, NodeOf(ws[i], side), side, p, n)
    ensures forall v :: v in NodeOf(ws[i], side).ctx.paths[p].pool <==>
              v == 0 || InPool(z.lib, z.conf[p].portRange, NodeOf(ws[i], side).passed.value + Skew(z, side), n, v)
    ensures n == READINGS <==> OneStep(NodeOf(ws[i], side).clocks[p], NodeOf(ws[i], side).passed.value + Skew(z, side))
    ensures NodeOf(ws[i], side).passed.value <= ws[i].now <= NodeOf(ws[i], side).passed.value + 665
  {
    hide Run, Inv, WellFormed, SendsOK, WorkersOK, HeardTime, Timely, InPool, Refill, ReadInTime, Straddles, OneStep;
    TimelyInv(z, ws, steps, i);
    var node := NodeOf(ws[i], side);
    var wall := node.passed.value + Skew(z, side);
    assert PoolOK(z, node.passed, node.clocks, side, p, node.ctx.paths[p].pool);
    n := StraddleExists(node.clocks[p], wall, READINGS);
    StepChanges(node.clocks[p], wall, n);
    forall v ensures v in node.ctx.paths[p].pool <==> v == 0 || InPool(z.lib, z.conf[p].portRange, wall, n, v) {
      PoolContents(z.lib, z.conf[p].portRange, node.clocks[p], wall, n, NoTokens(), v);
    }
  }

  lemma StepChanges(clock: seq<nat>, wall: nat, n: nat)
    requires |clock| == READINGS && n <= READINGS && Straddles(clock, wall, n)
    ensures n == READINGS <==> OneStep(clock, wall)
  {
    if n < READINGS {
      assert clock[n] / TOTP_STEP != wall / TOTP_STEP;
    }
  }

  /** In a timely run take a token computed by the client at its wall time c, when the server's wall time is at
      most 9500 ms later and at most 8835 ms earlier. It is in the server's pool if its step is kept, and that it
      is unless the step changed during the server's last pass and it is the earliest step or the hole; in
      particular if that pass fell into one step, or began no earlier and at most 9000 ms later than c. */
  lemma WindowInTime(z: Setup, ws: seq<World>, steps: seq<Step>, i: nat, p: nat, c: nat) returns (n: nat)
    requires ValidSetup(z) && TimelyRun(z, ws, steps) && i < |ws| && p < |z.conf| && ws[i].server.passed.Some?
    requires var r := ws[i].now + z.serverSkew; r - c <= 9500 && c - r <= 8835
    ensures p < |ws[i].server.ctx.paths| && ChangedAfter(z, ws[i].server, Server, p, n)
    ensures var wall := ws[i].server.passed.value + z.serverSkew;
            var k := c / TOTP_STEP - wall / TOTP_STEP;
            && (Kept(n, k) ==> Token(z.lib, z.conf[p].portRange, c, 0) in ws[i].server.ctx.paths[p].pool)
            && (Kept(n, k) <==> !(n < READINGS && (k == -19 || k == n > 0)))
            && (0 <= wall - c <= 9000 ==> Kept(n, k))
  {
    hide Run, Inv, WellFormed, SendsOK, WorkersOK, HeardTime, Timely, Token, Refill, ReadInTime, Straddles;
    TimelyInv(z, ws, steps, i);
    var node := ws[i].server;
    var wall := node.passed.value + z.serverSkew;
    assert PoolOK(z, node.passed, node.clocks, Server, p, node.ctx.paths[p].pool);
    n := StraddleExists(node.clocks[p], wall, READINGS);
    KeptInTime(c, wall, n);
    if Kept(n, c / TOTP_STEP - wall / TOTP_STEP) {
      WindowAdmits(z.lib, z.conf[p].portRange, c, node.clocks[p], wall, n, NoTokens());
    }
  }

  /** In a timely run a datagram of the client whose body fits the server, and which arrives before the server's
      clock is 4500 ms past the client's at sending, the client's clock being at most 8835 ms ahead, is taken, in
      any order and however often it arrives, if the step of its hop is kept: always when the server's last
      pass fell into one step, and otherwise unless that is the earliest step or the hole. */
  lemma InTimeIsTaken(z: Setup, ws: seq<World>, steps: seq<Step>, i: nat, f: Flight, stale: seq<byte>)
    returns (hop: nat, n: nat)
    requires ValidSetup(z) && TimelyRun(z, ws, steps) && i < |ws| && BodyFits(z, Server, f)
    requires Enabled(z, ws[i], Deliver(Server, f, stale)) && ws[i].server.passed.Some?
    requires ws[i].now + z.serverSkew - (f.at + z.clientSkew) <= 4500 && z.clientSkew - z.serverSkew <= 8835
    ensures WellFormed(z, ws[i]) && f.sent.src in ws[i].issued
    ensures hop == ws[i].issued[f.sent.src].deadline - LIFETIME + z.clientSkew
    ensures ChangedAfter(z, ws[i].server, Server, ws[i].issued[f.sent.src].path, n)
    ensures var wall := ws[i].server.passed.value + z.serverSkew;
            var k := hop / TOTP_STEP - wall / TOTP_STEP;
            && (Kept(n, k) <==> !(n < READINGS && (k == -19 || k == n > 0)))
            && (0 <= wall - hop <= 9000 ==> Kept(n, k))
            && (Kept(n, k) ==>
                  Arrival(z, ws[i], Server, f, stale).1 ==
                  Judged(if f.sent.payload == [] then Verdict.Heartbeat else Data(f.sent.payload)))
  {
    hide Run, WellFormed, WorkersOK, HeardTime, Timely, Token, PassesOK, PoolsOK, Arrival, ClientOK, ServerOK,
         IsEndpoint, Kept, ChangedAfter;
    var w := ws[i];
    TimelyInv(z, ws, steps, i);
    Agreement(z, w, Server, f);
    var k := w.issued[f.sent.src];
    hop := k.deadline - LIFETIME + z.clientSkew;
    assert SentInTime(w, f) && FlightOK(z, w, f) && IssuedOK(z, w.now, f.sent.src, k);
    n := WindowInTime(z, ws, steps, i, k.path, hop);
    NeverRejected(z, ws, steps, i, Server, f, stale);
  }
}
