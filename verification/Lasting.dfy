/** How long a connection lasts: while heartbeats arrive in time, a path stays alive at both ends. */
module Lasting {
  import opened Base
  import opened Totp
  import opened Session
  import opened Window
  import opened Protocol
  import opened Safety
  import opened Theorems
  import opened Timing
  import opened TimedTheorems
  import opened History
  import opened StartUp
  import opened SelfStabilisation

  // ---------------------------------------------------------------- the record of a path's past

  /** What a step that does not start the process again does to the record of an end: the time of its last pass,
      and what a path heard last. */
  predicate RecordKept(z: Setup, w: World, step: Step, side: Mode, p: nat, v: World)
    requires WellFormed(z, w) && Enabled(z, w, step) && p < |z.conf|
  {
    && w.now <= v.now && (step.Tick? || v.now == w.now)
    && NodeOf(v, side).passed == (if IsBeat(step, side) then Some(w.now) else NodeOf(w, side).passed)
    && |NodeOf(v, side).heard| == |z.conf|
    && var (before, after) := (NodeOf(w, side).heard[p], NodeOf(v, side).heard[p]);
       && (Accepting(z, w, step, side, p) ==> after.Some? && after.value.at == w.now)
       && (Quiet(z, w, step, side, p) && before.Some? ==> after.Some? && after.value.at == before.value.at)
  }

  lemma RecordStep(z: Setup, w: World, step: Step, side: Mode, p: nat)
    requires WellFormed(z, w) && Enabled(z, w, step) && p < |z.conf| && !Boots(z, w, step, side)
    ensures RecordKept(z, w, step, side, p, Apply(z, w, step))
  {
    hide Token, IsEndpoint, Booted, Accepts, Arrival, AfterBeat, AfterDeliver, AfterTun, RecordKept;
    match step
    case Deliver(_, _, _) => DeliverRecord(z, w, step, side, p);
    case Beat(_, _) => BeatRecord(z, w, step, side, p);
    case Tun(_, _, _) => TunRecord(z, w, step, side, p);
    case _ => OtherRecord(z, w, step, side, p);
  }

  lemma OtherRecord(z: Setup, w: World, step: Step, side: Mode, p: nat)
    requires WellFormed(z, w) && Enabled(z, w, step) && p < |z.conf| && !Boots(z, w, step, side)
    requires !step.Deliver? && !step.Beat? && !step.Tun?
    ensures RecordKept(z, w, step, side, p, Apply(z, w, step))
  {
    hide Token, IsEndpoint, Accepts, Arrival, ValidSent, StartClient, StartServer;
  }

  lemma DeliverRecord(z: Setup, w: World, step: Step, side: Mode, p: nat)
    requires WellFormed(z, w) && Enabled(z, w, step) && p < |z.conf| && step.Deliver? && !Boots(z, w, step, side)
    ensures RecordKept(z, w, step, side, p, Apply(z, w, step))
  {
    hide IsEndpoint, Arrival, Booted, ValidSent;
  }

  lemma BeatRecord(z: Setup, w: World, step: Step, side: Mode, p: nat)
    requires WellFormed(z, w) && Enabled(z, w, step) && p < |z.conf| && step.Beat?
    ensures RecordKept(z, w, step, side, p, Apply(z, w, step))
  {
    hide Heartbeats, Pass, ValidSent, Arrival, Accepts;
  }

  lemma TunRecord(z: Setup, w: World, step: Step, side: Mode, p: nat)
    requires WellFormed(z, w) && Enabled(z, w, step) && p < |z.conf| && step.Tun? && !Boots(z, w, step, side)
    ensures RecordKept(z, w, step, side, p, Apply(z, w, step))
  {
    hide Choose, Booted, ValidSent, Accepts, Arrival;
  }

  /** Since an accepted delivery the path has heard something no older. */
  lemma {:induction false} HeardSince(z: Setup, ws: seq<World>, steps: seq<Step>, side: Mode, p: nat, m: nat, u: nat)
    requires Segment(z, ws, steps) && m < u <= |steps| && p < |z.conf| && Accepting(z, ws[m], steps[m], side, p)
    requires forall t :: m < t < u ==> Steady(z, ws[t], steps[t], side, p)
    ensures p < |NodeOf(ws[u], side).heard| && ws[m].now <= ws[u].now
    ensures NodeOf(ws[u], side).heard[p].Some? && ws[m].now <= NodeOf(ws[u], side).heard[p].value.at
    decreases u
  {
    hide Accepting, Boots, Apply, Enabled, WellFormed;
    var k := u - 1;
    assert WellFormed(z, ws[k]) && Enabled(z, ws[k], steps[k]) && ws[u] == Apply(z, ws[k], steps[k]);
    if m < k {
      HeardSince(z, ws, steps, side, p, m, k);
    } else {
      AcceptingKeeps(z, ws[k], steps[k], side, p);
    }
    RecordStep(z, ws[k], steps[k], side, p);
  }

  lemma AcceptingKeeps(z: Setup, w: World, step: Step, side: Mode, p: nat)
    requires WellFormed(z, w) && Enabled(z, w, step) && Accepting(z, w, step, side, p)
    ensures !Boots(z, w, step, side)
  {
    hide Arrival, WellFormed;
  }

  // ---------------------------------------------------------------- passes follow one another

  /** The pass that the record of an end names. */
  lemma {:induction false} NamedPass(z: Setup, ws: seq<World>, steps: seq<Step>, side: Mode, p: nat, i: nat, u: nat)
    returns (t: nat)
    requires Segment(z, ws, steps) && i < u <= |steps| && p < |z.conf| && IsBeat(steps[i], side)
    requires forall k :: i <= k < u ==> !Boots(z, ws[k], steps[k], side)
    ensures i <= t < u && IsBeat(steps[t], side) && NodeOf(ws[u], side).passed == Some(ws[t].now)
    ensures ws[t].now <= ws[u].now
    decreases u
  {
    hide Boots, Apply, Enabled, WellFormed, IsBeat;
    var k := u - 1;
    assert WellFormed(z, ws[k]) && Enabled(z, ws[k], steps[k]) && ws[u] == Apply(z, ws[k], steps[k]);
    RecordStep(z, ws[k], steps[k], side, p);
    if IsBeat(steps[k], side) {
      t := k;
    } else {
      t := NamedPass(z, ws, steps, side, p, i, k);
    }
  }

  /** In a timely run, after a first pass of an end, every later moment has a pass at most 665 ms before it. */
  lemma {:induction false} RecentPass(z: Setup, ws: seq<World>, steps: seq<Step>, side: Mode, p: nat, i: nat, u: nat, at: int)
    returns (t: nat)
    requires ValidSetup(z) && TimelyRun(z, ws, steps) && i < u <= |steps| && p < |z.conf| && IsBeat(steps[i], side)
    requires forall k :: i <= k < u ==> !Boots(z, ws[k], steps[k], side)
    requires ws[i].now < at <= ws[u].now
    ensures i <= t < u && IsBeat(steps[t], side) && ws[t].now < at <= ws[t].now + 665
    decreases u
  {
    hide Boots, Apply, Enabled, WellFormed, Timely, TimeInv, Inv;
    var k := u - 1;
    if i < k && at <= ws[k].now {
      t := RecentPass(z, ws, steps, side, p, i, k, at);
    } else {
      assert WellFormed(z, ws[k]) && Enabled(z, ws[k], steps[k]) && ws[u] == Apply(z, ws[k], steps[k]);
      RecordStep(z, ws[k], steps[k], side, p);
      PassedRecently(z, ws, steps, side, u);
      if IsBeat(steps[k], side) {
        t := k;
      } else {
        t := NamedPass(z, ws, steps, side, p, i, k);
      }
    }
  }

  lemma PassedRecently(z: Setup, ws: seq<World>, steps: seq<Step>, side: Mode, u: nat)
    requires ValidSetup(z) && TimelyRun(z, ws, steps) && u < |ws|
    ensures var passed := NodeOf(ws[u], side).passed; passed.Some? ==> ws[u].now <= passed.value + 665
  {
    hide TimelyRun, Inv, WellFormed, WorkersOK, SendsOK, PoolsOK, HeardTime;
    TimelyInv(z, ws, steps, u);
  }

  lemma NowStep(z: Setup, w: World, step: Step)
    requires WellFormed(z, w) && Enabled(z, w, step)
    ensures w.now <= Apply(z, w, step).now
  {
    hide WellFormed, Enabled, Arrival, Pass, Heartbeats, Aged, Choose, Emit, Booted, HopToken, StartClient, StartServer;
  }

  lemma {:induction false} NowGrows(z: Setup, ws: seq<World>, steps: seq<Step>, i: nat, j: nat)
    requires Segment(z, ws, steps) && i <= j <= |steps|
    ensures ws[i].now <= ws[j].now
    decreases j
  {
    hide Apply, Enabled, WellFormed;
    if i < j {
      NowGrows(z, ws, steps, i, j - 1);
      NowStep(z, ws[j - 1], steps[j - 1]);
    }
  }

  // ---------------------------------------------------------------- answers

  /** The step is a pass that sends a heartbeat on the path. */
  predicate Sends(w: World, step: Step, side: Mode, p: nat) {
    IsBeat(step, side) && p < |NodeOf(w, side).ctx.paths| && Beats(side, NodeOf(w, side).ctx.paths[p])
  }

  predicate AcceptsWithin(z: Setup, ws: seq<World>, steps: seq<Step>, side: Mode, p: nat, t: nat, u: nat)
    requires Segment(z, ws, steps) && u <= |steps|
  {
    exists m :: t < m < u && Accepting(z, ws[m], steps[m], side, p)
  }

  /** Every heartbeat that the other end sends on the path among steps i to j is answered: `delay` milliseconds
      later the path has accepted a datagram. */
  ghost predicate Answered(z: Setup, ws: seq<World>, steps: seq<Step>, side: Mode, p: nat, delay: nat, i: nat, j: nat)
    requires Segment(z, ws, steps) && j <= |steps|
  {
    forall t, u :: i <= t < u <= j && Sends(ws[t], steps[t], Other(side), p) && ws[t].now + delay < ws[u].now ==>
      AcceptsWithin(z, ws, steps, side, p, t, u)
  }

  /** While the other end makes its passes and sends on the path in each, and each is answered within 666 ms, the
      path is alive: 665 ms to the next pass and 666 ms to its answer are less than the 1332 ms that a path
      stays alive at the least. */
  lemma KeptAlive(z: Setup, ws: seq<World>, steps: seq<Step>, side: Mode, p: nat, delay: nat, i: nat, u: nat)
    requires ValidSetup(z) && TimelyRun(z, ws, steps) && i < u <= |steps| && p < |z.conf| && delay <= 666
    requires IsBeat(steps[i], Other(side)) && ws[i].now + delay < ws[u].now
    requires forall t :: i <= t < u ==> !Boots(z, ws[t], steps[t], Other(side)) && Steady(z, ws[t], steps[t], side, p)
    requires forall t :: i <= t < u && IsBeat(steps[t], Other(side)) ==> Sends(ws[t], steps[t], Other(side), p)
    requires Answered(z, ws, steps, side, p, delay, i, u)
    ensures p < |NodeOf(ws[u], side).ctx.paths| && NodeOf(ws[u], side).ctx.paths[p].alive > 0
  {
    hide Boots, Steady, Sends, Accepting, IsBeat, Apply, Enabled, WellFormed, Timely, ValidSetup;
    var t := RecentPass(z, ws, steps, Other(side), p, i, u, ws[u].now - delay);
    assert AcceptsWithin(z, ws, steps, side, p, t, u);
    var m :| t < m < u && Accepting(z, ws[m], steps[m], side, p);
    NowGrows(z, ws, steps, t, m);
    HeardSince(z, ws, steps, side, p, m, u);
    AliveTiming(z, ws, steps, u, side, p);
  }

  // ---------------------------------------------------------------- both directions

  /** A client path with a socket keeps one, so every pass sends on it. */
  lemma {:induction false} ClientSends(z: Setup, ws: seq<World>, steps: seq<Step>, p: nat, i: nat, t: nat)
    requires Segment(z, ws, steps) && i <= t <= |steps| && p < |z.conf| && HasSocket(ws[i], Client, p)
    requires forall k :: i <= k < t ==> !Boots(z, ws[k], steps[k], Client)
    ensures HasSocket(ws[t], Client, p)
    decreases t
  {
    hide Boots, Apply, Enabled, WellFormed, HasSocket, Opens;
    if i < t {
      ClientSends(z, ws, steps, p, i, t - 1);
      assert WellFormed(z, ws[t - 1]) && Enabled(z, ws[t - 1], steps[t - 1]) && ws[t] == Apply(z, ws[t - 1], steps[t - 1]);
      SocketStep(z, ws[t - 1], steps[t - 1], Client, p);
    }
  }

  /** From the first heartbeat of the client on, the server's path is alive. */
  lemma ServerLasts(z: Setup, ws: seq<World>, steps: seq<Step>, p: nat, delay: nat, i: nat, u: nat)
    requires ValidSetup(z) && TimelyRun(z, ws, steps) && i < u <= |steps| && p < |z.conf| && delay <= 666
    requires Sends(ws[i], steps[i], Client, p) && ws[i].now + delay < ws[u].now
    requires forall t :: i <= t < u ==> !Boots(z, ws[t], steps[t], Client) && Steady(z, ws[t], steps[t], Server, p)
    requires Answered(z, ws, steps, Server, p, delay, i, u)
    ensures p < |ws[u].server.ctx.paths| && ws[u].server.ctx.paths[p].alive > 0
  {
    hide Boots, Steady, Apply, Enabled, WellFormed, Timely, ValidSetup, Answered, Start;
    forall t | i <= t < u && IsBeat(steps[t], Client) ensures Sends(ws[t], steps[t], Client, p) {
      ClientSends(z, ws, steps, p, i, t);
    }
    KeptAlive(z, ws, steps, Server, p, delay, i, u);
  }

  /** A connection lasts. In a timely run let i be a pass in which the client sends on a path, and j a pass of the
      server more than `delay` later. While neither end nor a worker of the server's path is started again and
      every heartbeat on the path is answered within `delay`, at most 666 ms, the path is alive at both ends at
      every moment more than `delay` after j. */
  lemma ConnectionLasts(z: Setup, ws: seq<World>, steps: seq<Step>, p: nat, delay: nat, i: nat, j: nat, u: nat)
    requires ValidSetup(z) && TimelyRun(z, ws, steps) && i < j < u <= |steps| && p < |z.conf| && delay <= 666
    requires Sends(ws[i], steps[i], Client, p) && IsBeat(steps[j], Server)
    requires ws[i].now + delay < ws[j].now && ws[j].now + delay < ws[u].now
    requires forall t :: i <= t < u ==> !Boots(z, ws[t], steps[t], Client) && Steady(z, ws[t], steps[t], Server, p)
    requires Answered(z, ws, steps, Server, p, delay, i, u) && Answered(z, ws, steps, Client, p, delay, i, u)
    ensures p < |ws[u].client.ctx.paths| && ws[u].client.ctx.paths[p].alive > 0
    ensures p < |ws[u].server.ctx.paths| && ws[u].server.ctx.paths[p].alive > 0
  {
    hide Sends, Boots, Steady, Apply, Enabled, WellFormed, Timely, ValidSetup, Answered, Start, IsBeat;
    ServerLasts(z, ws, steps, p, delay, i, u);
    forall t | j <= t < u && IsBeat(steps[t], Server) ensures Sends(ws[t], steps[t], Server, p) {
      NowGrows(z, ws, steps, j, t);
      AnsweredPart(z, ws, steps, Server, p, delay, i, u, i, t);
      ServerLasts(z, ws, steps, p, delay, i, t);
      ServerSends(z, ws, steps, p, t);
    }
    forall t | j <= t < u ensures !Boots(z, ws[t], steps[t], Server) && Steady(z, ws[t], steps[t], Client, p) {
      SteadySides(z, ws[t], steps[t], p);
    }
    AnsweredPart(z, ws, steps, Client, p, delay, i, u, j, u);
    KeptAlive(z, ws, steps, Client, p, delay, j, u);
  }

  lemma AnsweredPart(z: Setup, ws: seq<World>, steps: seq<Step>, side: Mode, p: nat, delay: nat, i: nat, u: nat,
                     i': nat, u': nat)
    requires Segment(z, ws, steps) && u <= |steps| && Answered(z, ws, steps, side, p, delay, i, u) && i <= i' && u' <= u
    ensures Answered(z, ws, steps, side, p, delay, i', u')
  {
    hide Sends, AcceptsWithin, Segment;
  }

  lemma ServerSends(z: Setup, ws: seq<World>, steps: seq<Step>, p: nat, t: nat)
    requires ValidSetup(z) && Run(z, ws, steps) && t < |steps| && p < |z.conf| && IsBeat(steps[t], Server)
    requires p < |ws[t].server.ctx.paths| && ws[t].server.ctx.paths[p].alive > 0
    ensures Sends(ws[t], steps[t], Server, p)
  {
    hide Apply, Enabled, Inv, WellFormed;
    RunInv(z, ws, steps, t);
    EndsMtu(z, ws[t], Server);
    AliveHasSocket(z, ws[t], Server);
  }

  lemma SteadySides(z: Setup, w: World, step: Step, p: nat)
    requires WellFormed(z, w) && Enabled(z, w, step)
    requires !Boots(z, w, step, Client) && Steady(z, w, step, Server, p)
    ensures !Boots(z, w, step, Server) && Steady(z, w, step, Client, p)
  {
    hide Boots, WellFormed, Enabled;
  }

  // ---------------------------------------------------------------- heartbeats that arrive

  /** The heartbeat that pass t sends on the path is delivered at step m, at most `delay` ms later. */
  predicate DeliveredAt(z: Setup, ws: seq<World>, steps: seq<Step>, side: Mode, p: nat, delay: nat, t: nat, m: nat)
    requires |ws| == |steps| + 1
  {
    && t < m < |steps| && steps[m].Deliver? && steps[m].side == side
    && SentBy(z, ws[t], steps[t], Other(side), p, steps[m].flight) && ws[m].now <= ws[t].now + delay
  }

  /** Every heartbeat that the other end sends on the path among steps i to j arrives within `delay` ms. */
  ghost predicate Arriving(z: Setup, ws: seq<World>, steps: seq<Step>, side: Mode, p: nat, delay: nat, i: nat, j: nat)
    requires |ws| == |steps| + 1 && j <= |steps|
  {
    forall t, u :: i <= t < u <= j && Sends(ws[t], steps[t], Other(side), p) && ws[t].now + delay < ws[u].now ==>
      exists m: nat :: m < u && DeliveredAt(z, ws, steps, side, p, delay, t, m)
  }

  /** What the sender of a heartbeat knows of the client's end of it. */
  lemma SenderEnd(z: Setup, w: World, step: Step, side: Mode, p: nat, f: Flight)
    requires Inv(z, w) && p < |z.conf| && SentBy(z, w, step, side, p, f)
    ensures Holds(w.issued, if side == Client then f.sent.src else f.sent.dst, p, f.sent.token)
    ensures f.sent.payload == [] && f.at == w.now
  {
    hide IssuesOK, NetOK, ListensOK, FlightOK;
    if side == Client {
      assert ClientPathOK(z, w, p, w.client.ctx.paths[p]);
    } else {
      var heard := w.server.heard[p];
      assert w.server.ctx.paths[p].alive == AliveAfter(heard);
      assert ServerPathOK(w, w.server.ctx.paths[p], heard) && HeardOK(w, Server, p, heard);
    }
  }

  /** A heartbeat arrives at a worker of its path and token. */
  lemma ArrivesOnPath(z: Setup, ws: seq<World>, steps: seq<Step>, side: Mode, p: nat, delay: nat, t: nat, m: nat)
    requires ValidSetup(z) && Run(z, ws, steps) && p < |z.conf| && DeliveredAt(z, ws, steps, side, p, delay, t, m)
    ensures var f := steps[m].flight;
            && f.sent.payload == [] && f.at == ws[t].now
            && f.sent.dst in NodeOf(ws[m], side).workers
            && NodeOf(ws[m], side).workers[f.sent.dst].path == p
            && NodeOf(ws[m], side).workers[f.sent.dst].token == f.sent.token
            && Holds(ws[m].issued, if side == Client then f.sent.dst else f.sent.src, p, f.sent.token)
  {
    hide Inv, Apply, SentBy, WellFormed, IsEndpoint;
    var f := steps[m].flight;
    RunInv(z, ws, steps, t);
    RunInv(z, ws, steps, m);
    assert Enabled(z, ws[m], steps[m]) && steps[m] == Deliver(side, f, steps[m].stale);
    Agreement(z, ws[m], side, f);
    SenderEnd(z, ws[t], steps[t], Other(side), p, f);
    IssuedStays(z, ws, steps, if side == Client then f.sent.dst else f.sent.src, t, m);
  }

  /** At the server the last pass read the clock for the path in one step only. */
  predicate WholePass(z: Setup, w: World, p: nat) {
    w.server.passed.Some? && p < |w.server.clocks| && OneStep(w.server.clocks[p], w.server.passed.value + z.serverSkew)
  }

  lemma ClientTakes(z: Setup, ws: seq<World>, steps: seq<Step>, p: nat, delay: nat, t: nat, m: nat)
    requires ValidSetup(z) && Run(z, ws, steps) && p < |z.conf| && DeliveredAt(z, ws, steps, Client, p, delay, t, m)
    ensures Accepting(z, ws[m], steps[m], Client, p)
  {
    hide Inv, Apply, SentBy, WellFormed, Accepting, IsEndpoint;
    ArrivesOnPath(z, ws, steps, Client, p, delay, t, m);
    RunInv(z, ws, steps, m);
    EndsMtu(z, ws[m], Client);
    AcceptsHeartbeat(z, ws[m], Client, steps[m].flight, steps[m].stale);
  }

  lemma ServerTakes(z: Setup, ws: seq<World>, steps: seq<Step>, p: nat, delay: nat, t: nat, m: nat)
    requires ValidSetup(z) && TimelyRun(z, ws, steps) && p < |z.conf| && DeliveredAt(z, ws, steps, Server, p, delay, t, m)
    requires delay <= 666 && -8835 <= z.serverSkew - z.clientSkew <= 3834 && WholePass(z, ws[m], p)
    ensures Accepting(z, ws[m], steps[m], Server, p)
  {
    hide Inv, Apply, SentBy, WellFormed, Arrival, Timely, IsEndpoint, Kept, Straddles, OneStep;
    ArrivesOnPath(z, ws, steps, Server, p, delay, t, m);
    var f, stale := steps[m].flight, steps[m].stale;
    assert steps[m] == Deliver(Server, f, stale) && Enabled(z, ws[m], Deliver(Server, f, stale));
    EmptyFits(z, Server, f);
    var hop, n := InTimeIsTaken(z, ws, steps, m, f, stale);
    StepChanges(ws[m].server.clocks[p], ws[m].server.passed.value + z.serverSkew, n);
  }

  lemma EmptyFits(z: Setup, side: Mode, f: Flight)
    requires f.sent.payload == []
    ensures BodyFits(z, side, f)
  {
  }

  lemma ArrivingAnswers(z: Setup, ws: seq<World>, steps: seq<Step>, side: Mode, p: nat, delay: nat, i: nat, j: nat)
    requires ValidSetup(z) && TimelyRun(z, ws, steps) && i <= j <= |steps| && p < |z.conf| && delay <= 666
    requires Arriving(z, ws, steps, side, p, delay, i, j)
    requires side == Server ==> -8835 <= z.serverSkew - z.clientSkew <= 3834
    requires side == Server ==> forall m :: i <= m < j ==> WholePass(z, ws[m], p)
    ensures Answered(z, ws, steps, side, p, delay, i, j)
  {
    hide Sends, DeliveredAt, Accepting, Apply, Enabled, WellFormed, Timely, WholePass, ValidSetup;
    forall t, u | i <= t < u <= j && Sends(ws[t], steps[t], Other(side), p) && ws[t].now + delay < ws[u].now
      ensures AcceptsWithin(z, ws, steps, side, p, t, u)
    {
      var m: nat :| m < u && DeliveredAt(z, ws, steps, side, p, delay, t, m);
      DeliveredLater(z, ws, steps, side, p, delay, t, m);
      if side == Client {
        ClientTakes(z, ws, steps, p, delay, t, m);
      } else {
        ServerTakes(z, ws, steps, p, delay, t, m);
      }
    }
  }

  lemma DeliveredLater(z: Setup, ws: seq<World>, steps: seq<Step>, side: Mode, p: nat, delay: nat, t: nat, m: nat)
    requires |ws| == |steps| + 1 && DeliveredAt(z, ws, steps, side, p, delay, t, m)
    ensures t < m < |steps|
  {
    hide SentBy;
  }

  /** Heartbeats that arrive are enough: with a server clock at most 8835 ms behind and 3834 ms ahead of the
      client's, while every heartbeat on the path arrives within `delay`, at most 666 ms, no pass of the server
      straddles a step on it, and nothing is started again, the path is alive at both ends at every moment more
      than `delay` after j. */
  lemma HeartbeatsSuffice(z: Setup, ws: seq<World>, steps: seq<Step>, p: nat, delay: nat, i: nat, j: nat, u: nat)
    requires ValidSetup(z) && TimelyRun(z, ws, steps) && i < j < u <= |steps| && p < |z.conf| && delay <= 666
    requires Sends(ws[i], steps[i], Client, p) && IsBeat(steps[j], Server)
    requires ws[i].now + delay < ws[j].now && ws[j].now + delay < ws[u].now
    requires forall t :: i <= t < u ==> !Boots(z, ws[t], steps[t], Client) && Steady(z, ws[t], steps[t], Server, p)
    requires -8835 <= z.serverSkew - z.clientSkew <= 3834 && forall m :: i <= m < u ==> WholePass(z, ws[m], p)
    requires Arriving(z, ws, steps, Server, p, delay, i, u) && Arriving(z, ws, steps, Client, p, delay, i, u)
    ensures p < |ws[u].client.ctx.paths| && ws[u].client.ctx.paths[p].alive > 0
    ensures p < |ws[u].server.ctx.paths| && ws[u].server.ctx.paths[p].alive > 0
  {
    hide Sends, Boots, Steady, Apply, Enabled, WellFormed, Timely, ValidSetup, Answered, Arriving, Start, IsBeat, WholePass;
    ArrivingAnswers(z, ws, steps, Server, p, delay, i, u);
    ArrivingAnswers(z, ws, steps, Client, p, delay, i, u);
    ConnectionLasts(z, ws, steps, p, delay, i, j, u);
  }
}
