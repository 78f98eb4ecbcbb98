/** Safety over whole runs: the invariant of Safety.dfy read as statements about every world of every run. */
module Theorems {
  import opened Base
  import opened Codec
  import opened Totp
  import opened Selection
  import opened Session
  import opened Protocol
  import opened Safety

  lemma StepKeeps(z: Setup, w: World, step: Step)
    requires ValidSetup(z) && Inv(z, w) && WellFormed(z, w) && Enabled(z, w, step)
    ensures Inv(z, Apply(z, w, step))
  {
    match step
    case Hop(p, local) => HopKeeps(z, w, p, local);
    case Listen(p, j) => ListenKeeps(z, w, p, j);
    case Close(local) => CloseKeeps(z, w, local);
    case Deliver(side, f, stale) => DeliverKeeps(z, w, side, f, stale);
    case Beat(side, round) => BeatKeeps(z, w, side, round);
    case Tun(side, payload, salt) => TunKeeps(z, w, side, payload, salt);
    case Tick(ms) => TickKeeps(z, w, ms);
    case Restart(side) => RestartKeeps(z, w, side);
  }

  lemma RestartKeeps(z: Setup, w: World, side: Mode)
    requires ValidSetup(z) && Inv(z, w) && WellFormed(z, w)
    ensures Inv(z, Apply(z, w, Restart(side)))
  {
    hide Inv, WellFormed;
    BootKeeps(z, w, Apply(z, w, Restart(side)), side);
  }

  /** Every world of every run satisfies the invariant, so every step may follow it. */
  lemma {:induction false} RunInv(z: Setup, ws: seq<World>, steps: seq<Step>, i: nat)
    requires ValidSetup(z) && Run(z, ws, steps) && i < |ws|
    ensures Inv(z, ws[i]) && WellFormed(z, ws[i])
  {
    hide Inv, WellFormed, Enabled, Apply;
    if i == 0 {
      StartInv(z);
    } else {
      RunInv(z, ws, steps, i - 1);
      StepKeeps(z, ws[i - 1], steps[i - 1]);
    }
    InvWellFormed(z, ws[i]);
  }

  /** In every run, every datagram that can reach a worker was made by the other end under that worker's token. */
  lemma TokensAgree(z: Setup, ws: seq<World>, steps: seq<Step>, i: nat, side: Mode, f: Flight)
    requires ValidSetup(z) && Run(z, ws, steps) && i < |ws|
    requires f in ws[i].net && f.sent.dst in NodeOf(ws[i], side).workers
    ensures f.from == Other(side) && f.sent.token == NodeOf(ws[i], side).workers[f.sent.dst].token
  {
    hide Inv, Run, WellFormed;
    RunInv(z, ws, steps, i);
    Agreement(z, ws[i], side, f);
  }

  /** In every run, a delivery to an end that the datagram's body fits is never rejected. The server drops
      it exactly when the worker's token is out of its window; otherwise it hands over what was sent. */
  lemma NeverRejected(z: Setup, ws: seq<World>, steps: seq<Step>, i: nat, side: Mode, f: Flight, stale: seq<byte>)
    requires ValidSetup(z) && Run(z, ws, steps) && i < |ws| && BodyFits(z, side, f)
    requires Enabled(z, ws[i], Deliver(side, f, stale))
    ensures WellFormed(z, ws[i])
    ensures var node := NodeOf(ws[i], side);
            var k := node.workers[f.sent.dst];
            Arrival(z, ws[i], side, f, stale).1 ==
            if side == Server && k.token !in node.ctx.paths[k.path].pool then OutOfWindow
            else Judged(if f.sent.payload == [] then Verdict.Heartbeat else Data(f.sent.payload))
  {
    hide Inv, Run, Arrival;
    RunInv(z, ws, steps, i);
    DeliveryOutcome(z, ws[i], side, f, stale);
  }

  /** End-to-end integrity: in every run, what an end has written to its tun device was read, as one whole
      packet, from the tun device of the other end. */
  lemma EndToEnd(z: Setup, ws: seq<World>, steps: seq<Step>, i: nat, side: Mode)
    requires ValidSetup(z) && Run(z, ws, steps) && i < |ws| && Mtu(z, Other(side)) <= Mtu(z, side)
    ensures NodeOf(ws[i], side).wrote <= NodeOf(ws[i], Other(side)).read
  {
    hide Inv, Run, WellFormed;
    RunInv(z, ws, steps, i);
    WroteRead(z, ws[i], side);
  }

  /** In every run the `alive` counter of a path is 5 less the heartbeat passes since it last accepted a
      datagram, but not below 0, and 0 when it accepted none since it was started. */
  lemma AliveIsHistory(z: Setup, ws: seq<World>, steps: seq<Step>, i: nat, side: Mode, p: nat)
    requires ValidSetup(z) && Run(z, ws, steps) && i < |ws| && p < |z.conf|
    ensures p < |NodeOf(ws[i], side).ctx.paths| && p < |NodeOf(ws[i], side).heard|
    ensures NodeOf(ws[i], side).ctx.paths[p].alive ==
            match NodeOf(ws[i], side).heard[p]
            case None => 0
            case Some(h) => if h.passes < 5 then 5 - h.passes else 0
  {
    hide Run, WellFormed, HeardOK, IssuesOK, NetOK;
    RunInv(z, ws, steps, i);
  }

  /** In every run, on a server path that is alive, socket, remote address and token come from one datagram
      of the client: the last one the path accepted. */
  lemma TripleFromOneDatagram(z: Setup, ws: seq<World>, steps: seq<Step>, i: nat, p: nat)
    requires ValidSetup(z) && Run(z, ws, steps) && i < |ws| && p < |z.conf|
    ensures p < |ws[i].server.ctx.paths| && p < |ws[i].server.heard|
    ensures var path := ws[i].server.ctx.paths[p];
            path.alive > 0 ==>
              && ws[i].server.heard[p].Some?
              && var f := ws[i].server.heard[p].value.flight;
                 && f in ws[i].net && f.from == Client
                 && path.sock == Some(f.sent.dst) && path.remote == f.sent.src && path.token == f.sent.token
                 && f.sent.dst == Endpoint(z.conf, p, path.token) && f.sent.dst in ws[i].server.workers
  {
    hide Run, WellFormed, IssuesOK, ClientOK;
    RunInv(z, ws, steps, i);
    var heard := ws[i].server.heard[p];
    assert ServerPathOK(ws[i], ws[i].server.ctx.paths[p], heard) && HeardOK(ws[i], Server, p, heard);
    if heard.Some? {
      assert FlightOK(z, ws[i], heard.value.flight);
    }
  }

  /** In every run, a client path with a socket sends from a worker's socket to the server's endpoint for that
      worker's token, under that token. */
  lemma ClientTriple(z: Setup, ws: seq<World>, steps: seq<Step>, i: nat, p: nat)
    requires ValidSetup(z) && Run(z, ws, steps) && i < |ws| && p < |z.conf|
    ensures p < |ws[i].client.ctx.paths|
    ensures var path := ws[i].client.ctx.paths[p];
            path.sock.Some? ==>
              && Holds(ws[i].issued, path.sock.value, p, path.token)
              && path.remote == Endpoint(z.conf, p, path.token)
  {
    hide Run, WellFormed, IssuesOK, NodeOK, ServerOK;
    RunInv(z, ws, steps, i);
    EndsMtu(z, ws[i], Client);
    assert ClientPathOK(z, ws[i], p, ws[i].client.ctx.paths[p]);
  }

  /** In every run an alive path has a socket, so the assertion of `udp_sender` holds whenever some path is
      alive; it fails exactly when none is and the path used last has no socket either. */
  lemma SenderNeverFailsAlive(z: Setup, ws: seq<World>, steps: seq<Step>, i: nat, side: Mode,
                              payload: seq<byte>, salt: Salt)
    requires ValidSetup(z) && Run(z, ws, steps) && i < |ws|
    ensures var ctx := NodeOf(ws[i], side).ctx;
            && ValidCtx(ctx, z.conf)
            && var someAlive := exists p :: 0 <= p < |z.conf| && ctx.paths[p].alive > 0;
               && (someAlive <==> Emit(Choose(ctx, z.conf), payload, salt).Out?)
               && (Emit(Choose(ctx, z.conf), payload, salt).AssertFails? <==>
                     !someAlive && ctx.paths[ctx.cursor].sock.None?)
  {
    hide Run, WellFormed, Emit, Choose, Inv;
    RunInv(z, ws, steps, i);
    EndsMtu(z, ws[i], side);
    AliveHasSocket(z, ws[i], side);
    SenderAssertion(NodeOf(ws[i], side).ctx, z.conf, payload, salt);
  }

  lemma AliveHasSocket(z: Setup, w: World, side: Mode)
    requires Inv(z, w) && ValidCtx(NodeOf(w, side).ctx, z.conf)
    ensures forall p :: 0 <= p < |z.conf| && NodeOf(w, side).ctx.paths[p].alive > 0 ==>
              NodeOf(w, side).ctx.paths[p].sock.Some?
  {
    hide IssuesOK, NetOK, HeardOK;
    forall p | 0 <= p < |z.conf| && NodeOf(w, side).ctx.paths[p].alive > 0
      ensures NodeOf(w, side).ctx.paths[p].sock.Some?
    {
      if side == Client {
        assert ClientPathOK(z, w, p, w.client.ctx.paths[p]);
      } else {
        assert ServerPathOK(w, w.server.ctx.paths[p], w.server.heard[p]);
      }
    }
  }

  // ---------------------------------------------------------------- fairness over runs

  /** The paths that `udp_sender` of one end selects in steps i to j of a run. */
  ghost function Chosen(ws: seq<World>, steps: seq<Step>, side: Mode, i: nat, j: nat): seq<nat>
    requires i <= j <= |steps| && |ws| == |steps| + 1
    decreases j - i
  {
    if i == j then []
    else
      (if steps[i].Tun? && steps[i].side == side then [NodeOf(ws[i + 1], side).ctx.cursor] else [])
      + Chosen(ws, steps, side, i + 1, j)
  }

  /** While the alive paths of an end stay the same and are not none, only `udp_sender` moves its cursor. */
  lemma CursorMoves(z: Setup, w: World, step: Step, side: Mode, alive: seq<bool>)
    requires WellFormed(z, w) && Enabled(z, w, step) && true in alive
    requires AliveFlags(NodeOf(w, side).ctx) == alive == AliveFlags(NodeOf(Apply(z, w, step), side).ctx)
    ensures NodeOf(w, side).ctx.cursor < |alive|
    ensures NodeOf(Apply(z, w, step), side).ctx.cursor ==
            if step.Tun? && step.side == side then Pick(alive, NodeOf(w, side).ctx.cursor) else NodeOf(w, side).ctx.cursor
  {
    hide Pick, Token, IsEndpoint, Heartbeats, Refill, Aged, Decap, Buffer, Received;
    BootedIsDead(z, side, NodeOf(w, side));
    match step
    case Deliver(s, f, stale) => hide AfterBeat, AfterTun, AfterHop, AfterListen;
    case Beat(s, _) => hide AfterDeliver, AfterTun, AfterHop, AfterListen;
    case Tun(s, payload, salt) =>
      hide AfterDeliver, AfterBeat, AfterHop, AfterListen;
      var chosen := NodeOf(w, side).(ctx := Choose(NodeOf(w, side).ctx, z.conf), read := NodeOf(w, side).read + {payload});
      BootedIsDead(z, side, chosen);
    case _ => hide AfterDeliver, AfterBeat, AfterTun;
  }

  lemma BootedIsDead(z: Setup, side: Mode, node: Node)
    ensures true !in AliveFlags(Booted(z, side, node).ctx)
  {
  }

  lemma {:induction false} ChosenArePicks(z: Setup, ws: seq<World>, steps: seq<Step>, side: Mode, alive: seq<bool>,
                                          i: nat, j: nat)
    requires Run(z, ws, steps) && i <= j <= |steps| && true in alive
    requires forall t :: i <= t <= j ==> AliveFlags(NodeOf(ws[t], side).ctx) == alive && NodeOf(ws[t], side).ctx.cursor < |alive|
    ensures var chosen := Chosen(ws, steps, side, i, j);
            chosen == Picks(alive, NodeOf(ws[i], side).ctx.cursor, |chosen|)
    decreases j - i
  {
    hide Pick, Apply, Enabled, WellFormed, AliveFlags;
    if i < j {
      assert AliveFlags(NodeOf(ws[i + 1], side).ctx) == alive && ws[i + 1] == Apply(z, ws[i], steps[i]);
      CursorMoves(z, ws[i], steps[i], side, alive);
      ChosenArePicks(z, ws, steps, side, alive, i + 1, j);
    }
  }

  /** Fairness over runs: while the alive paths A of an end stay the same, whatever else happens in between,
      its packets go to the paths of A in turn: k * |A| of them use each path exactly k times, and in any
      number of them no path is used more than once more than another. */
  lemma FairOverRuns(z: Setup, ws: seq<World>, steps: seq<Step>, side: Mode, alive: seq<bool>, i: nat, j: nat,
                     k: nat, x: nat, y: nat)
    requires ValidSetup(z) && Run(z, ws, steps) && i <= j <= |steps|
    requires forall t :: i <= t <= j ==> AliveFlags(NodeOf(ws[t], side).ctx) == alive
    requires x in AliveSet(alive) && y in AliveSet(alive)
    ensures var chosen := Chosen(ws, steps, side, i, j);
            && (|chosen| == k * |AliveSet(alive)| ==> Times(chosen, x) == k)
            && Times(chosen, x) <= Times(chosen, y) + 1
  {
    hide Chosen, Picks, Inv, Apply, Enabled, WellFormed, AliveFlags, Times;
    assert alive[x];
    forall t | i <= t <= j ensures NodeOf(ws[t], side).ctx.cursor < |alive| {
      RunInv(z, ws, steps, t);
      CursorInRange(z, ws[t], side);
    }
    ChosenArePicks(z, ws, steps, side, alive, i, j);
    var c := NodeOf(ws[i], side).ctx.cursor;
    FairRounds(alive, c, k, x);
    FairWindow(alive, c, |Chosen(ws, steps, side, i, j)|, x, y);
  }

  lemma CursorInRange(z: Setup, w: World, side: Mode)
    requires ValidSetup(z) && WellFormed(z, w)
    ensures NodeOf(w, side).ctx.cursor < |AliveFlags(NodeOf(w, side).ctx)|
  {
  }
}
