/** The `alive` counter read off the steps of a run alone. */
module History {
  import opened Base
  import opened Codec
  import opened Totp
  import opened Selection
  import opened Session
  import opened Protocol
  import opened Safety
  import opened Theorems

  /** A delivery that its path accepts. */
  predicate Accepts(z: Setup, w: World, side: Mode, p: nat, f: Flight, stale: seq<byte>)
    requires WellFormed(z, w) && Enabled(z, w, Deliver(side, f, stale))
  {
    var outcome := Arrival(z, w, side, f, stale).1;
    NodeOf(w, side).workers[f.sent.dst].path == p && outcome.Judged? && !outcome.verdict.Rejected? && !outcome.verdict.Aborted?
  }

  /** The step starts the process of an end again. */
  predicate Boots(z: Setup, w: World, step: Step, side: Mode)
    requires WellFormed(z, w) && Enabled(z, w, step)
  {
    match step
    case Deliver(s, f, stale) => s == side && Arrival(z, w, s, f, stale).1 == Judged(Aborted)
    case Restart(s) => s == side
    case Tun(s, payload, salt) => s == side && Emit(Choose(NodeOf(w, side).ctx, z.conf), payload, salt).AssertFails?
    case _ => false
  }

  /** The step neither starts the process of an end again nor a new server worker of the path. */
  predicate Steady(z: Setup, w: World, step: Step, side: Mode, p: nat)
    requires WellFormed(z, w) && Enabled(z, w, step)
  {
    !Boots(z, w, step, side) && (side == Server && step.Listen? ==> step.path != p)
  }

  /** The step is a delivery that the path accepts. */
  predicate Accepting(z: Setup, w: World, step: Step, side: Mode, p: nat)
    requires WellFormed(z, w) && Enabled(z, w, step)
  {
    step.Deliver? && step.side == side && Accepts(z, w, side, p, step.flight, step.stale)
  }

  /** The step brings the path nothing new: no accepted delivery, no new worker of the server, and no start of
      the process. */
  predicate Quiet(z: Setup, w: World, step: Step, side: Mode, p: nat)
    requires WellFormed(z, w) && Enabled(z, w, step)
  {
    Steady(z, w, step, side, p) && !Accepting(z, w, step, side, p)
  }

  predicate IsBeat(step: Step, side: Mode) {
    step.Beat? && step.side == side
  }

  /** The heartbeat passes of one end among steps i to j. */
  ghost function PassesIn(steps: seq<Step>, side: Mode, i: nat, j: nat): nat
    requires i <= j <= |steps|
    decreases j - i
  {
    if i == j then 0 else (if IsBeat(steps[i], side) then 1 else 0) + PassesIn(steps, side, i + 1, j)
  }

  /** The path after a step that does not start the process again: a hop of it, a new server worker of it, a
      delivery that it accepts, and a pass change it; nothing else does. */
  function PathAfter(z: Setup, w: World, step: Step, side: Mode, p: nat): Path
    requires WellFormed(z, w) && Enabled(z, w, step) && p < |z.conf|
  {
    var path := NodeOf(w, side).ctx.paths[p];
    match step
    case Hop(q, local) =>
      if side == Client && q == p then
        var token := HopToken(z, w, p);
        path.(sock := Some(local), remote := Endpoint(z.conf, p, token), token := token)
      else path
    case Listen(q, j) =>
      if side == Server && q == p then path.(alive := 0, sock := Some(Endpoint(z.conf, p, j))) else path
    case Deliver(s, f, stale) =>
      if s == side && Accepts(z, w, side, p, f, stale) then
        Accepted(side, path, NodeOf(w, side).workers[f.sent.dst].token, f.sent.dst, f.sent.src)
      else path
    case Beat(s, round) =>
      if s == side then Aging(path, Refill(z.lib, z.conf[p].portRange, round.clocks[p], path.pool)) else path
    case _ => path
  }

  lemma PathStep(z: Setup, w: World, step: Step, side: Mode, p: nat)
    requires WellFormed(z, w) && Enabled(z, w, step) && p < |z.conf| && !Boots(z, w, step, side)
    ensures p < |NodeOf(w, side).ctx.paths| == |NodeOf(Apply(z, w, step), side).ctx.paths|
    ensures NodeOf(Apply(z, w, step), side).ctx.paths[p] == PathAfter(z, w, step, side, p)
  {
    hide Token, IsEndpoint, Booted, Accepts, Arrival, AfterBeat, AfterDeliver, AfterTun;
    match step
    case Deliver(_, _, _) => DeliverPath(z, w, step, side, p);
    case Beat(_, _) => BeatPath(z, w, step, side, p);
    case Tun(_, _, _) => TunPath(z, w, step, side, p);
    case _ =>
  }

  lemma DeliverPath(z: Setup, w: World, step: Step, side: Mode, p: nat)
    requires WellFormed(z, w) && Enabled(z, w, step) && p < |z.conf| && step.Deliver? && !Boots(z, w, step, side)
    ensures p < |NodeOf(w, side).ctx.paths| == |NodeOf(Apply(z, w, step), side).ctx.paths|
    ensures NodeOf(Apply(z, w, step), side).ctx.paths[p] == PathAfter(z, w, step, side, p)
  {
    hide IsEndpoint, Refill, Decap, Buffer, Received, Booted, Bytes, ValidSent, AfterBeat, AfterTun, AfterHop, AfterListen;
  }

  lemma BeatPath(z: Setup, w: World, step: Step, side: Mode, p: nat)
    requires WellFormed(z, w) && Enabled(z, w, step) && p < |z.conf| && step.Beat?
    ensures p < |NodeOf(w, side).ctx.paths| == |NodeOf(Apply(z, w, step), side).ctx.paths|
    ensures NodeOf(Apply(z, w, step), side).ctx.paths[p] == PathAfter(z, w, step, side, p)
  {
    hide Heartbeats, Refill, Aged, ValidSent, AfterDeliver, AfterTun, AfterHop, AfterListen, Accepts;
  }

  lemma TunPath(z: Setup, w: World, step: Step, side: Mode, p: nat)
    requires WellFormed(z, w) && Enabled(z, w, step) && p < |z.conf| && step.Tun? && !Boots(z, w, step, side)
    ensures p < |NodeOf(w, side).ctx.paths| == |NodeOf(Apply(z, w, step), side).ctx.paths|
    ensures NodeOf(Apply(z, w, step), side).ctx.paths[p] == PathAfter(z, w, step, side, p)
  {
    hide Pick, Booted, ValidSent, AfterDeliver, AfterBeat, AfterHop, AfterListen, Accepts, Arrival;
  }

  lemma QuietStep(z: Setup, w: World, step: Step, side: Mode, p: nat)
    requires WellFormed(z, w) && Enabled(z, w, step) && p < |z.conf| && Quiet(z, w, step, side, p)
    ensures p < |NodeOf(w, side).ctx.paths| && p < |NodeOf(Apply(z, w, step), side).ctx.paths|
    ensures var alive := NodeOf(w, side).ctx.paths[p].alive;
            NodeOf(Apply(z, w, step), side).ctx.paths[p].alive ==
            if IsBeat(step, side) && alive > 0 then alive - 1 else alive
  {
    hide WellFormed, Enabled, Apply, Boots, Accepts, Refill;
    PathStep(z, w, step, side, p);
  }

  /** Quiet steps take one off the counter for each pass, down to 0. */
  lemma {:induction false} SegmentAges(z: Setup, ws: seq<World>, steps: seq<Step>, side: Mode, p: nat, i: nat, j: nat)
    requires Segment(z, ws, steps) && i <= j <= |steps| && p < |z.conf|
    requires p < |NodeOf(ws[i], side).ctx.paths|
    requires forall t :: i <= t < j ==> Quiet(z, ws[t], steps[t], side, p)
    ensures p < |NodeOf(ws[j], side).ctx.paths|
    ensures var alive, passes := NodeOf(ws[i], side).ctx.paths[p].alive, PassesIn(steps, side, i, j);
            NodeOf(ws[j], side).ctx.paths[p].alive == if passes < alive then alive - passes else 0
    decreases j - i
  {
    hide Quiet, Apply, Enabled, WellFormed;
    if i < j {
      assert WellFormed(z, ws[i]) && Enabled(z, ws[i], steps[i]) && ws[i + 1] == Apply(z, ws[i], steps[i]);
      QuietStep(z, ws[i], steps[i], side, p);
      SegmentAges(z, ws, steps, side, p, i + 1, j);
    }
  }

  lemma PassesAge(z: Setup, ws: seq<World>, steps: seq<Step>, side: Mode, p: nat, i: nat, j: nat)
    requires ValidSetup(z) && Run(z, ws, steps) && i <= j <= |steps| && p < |z.conf|
    requires forall t :: i <= t < j ==> Quiet(z, ws[t], steps[t], side, p)
    ensures WellFormed(z, ws[i]) && WellFormed(z, ws[j])
    ensures var alive, passes := NodeOf(ws[i], side).ctx.paths[p].alive, PassesIn(steps, side, i, j);
            NodeOf(ws[j], side).ctx.paths[p].alive == if passes < alive then alive - passes else 0
  {
    hide Quiet, Apply, Enabled, Inv, PassesIn;
    RunInv(z, ws, steps, i);
    RunInv(z, ws, steps, j);
    SegmentAges(z, ws, steps, side, p, i, j);
  }

  /** What an accepted delivery does to the path. */
  lemma AcceptedStep(z: Setup, ws: seq<World>, steps: seq<Step>, side: Mode, p: nat, i: nat)
    requires Segment(z, ws, steps) && i < |steps| && p < |z.conf| && Accepting(z, ws[i], steps[i], side, p)
    ensures var f := steps[i].flight;
            && f.sent.dst in NodeOf(ws[i], side).workers
            && p < |NodeOf(ws[i], side).ctx.paths| && p < |NodeOf(ws[i + 1], side).ctx.paths|
            && NodeOf(ws[i + 1], side).ctx.paths[p] ==
               Accepted(side, NodeOf(ws[i], side).ctx.paths[p], NodeOf(ws[i], side).workers[f.sent.dst].token,
                        f.sent.dst, f.sent.src)
  {
    hide Apply, Arrival, WellFormed, Accepted;
    PathStep(z, ws[i], steps[i], side, p);
  }

  /** In every run: when step i is a delivery that path p of an end accepts and the steps up to j bring that path
      nothing new, its `alive` counter is 5 less the heartbeat passes made in between, but not below 0. */
  lemma AliveCountsPasses(z: Setup, ws: seq<World>, steps: seq<Step>, side: Mode, p: nat, i: nat, j: nat)
    requires ValidSetup(z) && Run(z, ws, steps) && i < j <= |steps| && p < |z.conf|
    requires Accepting(z, ws[i], steps[i], side, p)
    requires forall t :: i < t < j ==> Quiet(z, ws[t], steps[t], side, p)
    ensures WellFormed(z, ws[j])
    ensures var passes := PassesIn(steps, side, i + 1, j);
            NodeOf(ws[j], side).ctx.paths[p].alive == if passes < 5 then 5 - passes else 0
  {
    hide Quiet, Accepting, Apply, WellFormed, Enabled, PassesIn, Segment, ValidSetup;
    AcceptedStep(z, ws, steps, side, p, i);
    PassesAge(z, ws, steps, side, p, i + 1, j);
  }
}
