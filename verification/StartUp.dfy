/** The assertion of `udp_sender` in runs that respect the order in which a process starts its coroutines:
    workers first, then the one that reads the tun device. */
module StartUp {
  import opened Base
  import opened Codec
  import opened Selection
  import opened Session
  import opened Protocol
  import opened History

  /** The step opens a worker of the path. */
  predicate Opens(step: Step, side: Mode, p: nat) {
    if side == Client then step.Hop? && step.path == p else step.Listen? && step.path == p
  }

  /** The process ends for another reason than the assertion of `udp_sender`: it is stopped and started again, or
      the assertion of `decompress` fails. */
  predicate Stops(z: Setup, w: World, step: Step, side: Mode)
    requires WellFormed(z, w) && Enabled(z, w, step)
  {
    Boots(z, w, step, side) && !step.Tun?
  }

  predicate ReadsTun(step: Step, side: Mode) {
    step.Tun? && step.side == side
  }

  predicate HasSocket(w: World, side: Mode, p: nat) {
    p < |NodeOf(w, side).ctx.paths| && NodeOf(w, side).ctx.paths[p].sock.Some?
  }

  /** A path that has a socket keeps one, and opening a worker gives it one. */
  lemma SocketStep(z: Setup, w: World, step: Step, side: Mode, p: nat)
    requires WellFormed(z, w) && Enabled(z, w, step) && p < |z.conf| && !Boots(z, w, step, side)
    requires HasSocket(w, side, p) || Opens(step, side, p)
    ensures HasSocket(Apply(z, w, step), side, p)
  {
    hide WellFormed, Enabled, Apply, Boots, Accepts, Refill, HopToken;
    PathStep(z, w, step, side, p);
  }

  /** With a socket on every path the assertion holds. */
  lemma SocketsSuffice(z: Setup, w: World, side: Mode, payload: seq<byte>, salt: Salt)
    requires WellFormed(z, w) && |z.conf| > 0 && forall p :: 0 <= p < |z.conf| ==> HasSocket(w, side, p)
    ensures !Emit(Choose(NodeOf(w, side).ctx, z.conf), payload, salt).AssertFails?
  {
    hide Pick;
    var ctx := Choose(NodeOf(w, side).ctx, z.conf);
    assert HasSocket(w, side, ctx.cursor);
  }

  /** From the moment a path has opened a worker it has a socket, until the process ends. */
  lemma {:induction false} OpenedHasSocket(z: Setup, ws: seq<World>, steps: seq<Step>, side: Mode, p: nat, i: nat, j: nat)
    requires Segment(z, ws, steps) && i < j <= |steps| && p < |z.conf| && Opens(steps[i], side, p)
    requires forall t :: i <= t < j ==> !Boots(z, ws[t], steps[t], side)
    ensures HasSocket(ws[j], side, p)
    decreases j
  {
    hide Boots, Apply, Enabled, WellFormed, HasSocket, Opens;
    if i + 1 < j {
      OpenedHasSocket(z, ws, steps, side, p, i, j - 1);
    }
    assert WellFormed(z, ws[j - 1]) && Enabled(z, ws[j - 1], steps[j - 1]) && ws[j] == Apply(z, ws[j - 1], steps[j - 1]);
    SocketStep(z, ws[j - 1], steps[j - 1], side, p);
  }

  predicate OpensIn(steps: seq<Step>, side: Mode, p: nat, b: nat, s: nat)
    requires b <= s <= |steps|
  {
    exists t :: b <= t < s && Opens(steps[t], side, p)
  }

  /** Between b and s every path of the end opens a worker, and its tun device is not read yet; from b to j
      its process is not stopped. */
  ghost predicate Started(z: Setup, ws: seq<World>, steps: seq<Step>, side: Mode, b: nat, s: nat, j: nat)
    requires Segment(z, ws, steps)
  {
    && b <= s <= j <= |steps|
    && (forall p :: 0 <= p < |z.conf| ==> OpensIn(steps, side, p, b, s))
    && (forall t :: b <= t < s ==> !ReadsTun(steps[t], side))
    && (forall t :: b <= t < j ==> !Stops(z, ws[t], steps[t], side))
  }

  /** In a process that has started its workers before it reads packets, the assertion of `udp_sender` never
      fails until the process is stopped, whether or not a path is alive; so it never ends the process either. */
  lemma {:induction false} StartedNeverFails(z: Setup, ws: seq<World>, steps: seq<Step>, side: Mode, b: nat, s: nat, j: nat)
    requires ValidSetup(z) && Segment(z, ws, steps) && Started(z, ws, steps, side, b, s, j)
    requires j < |ws| && WellFormed(z, ws[j])
    ensures forall payload, salt :: !Emit(Choose(NodeOf(ws[j], side).ctx, z.conf), payload, salt).AssertFails?
    ensures forall t :: b <= t < j ==> !Boots(z, ws[t], steps[t], side)
    decreases j
  {
    hide Boots, Apply, Enabled, HasSocket, Opens, Emit, Choose, ValidSent;
    forall t | b <= t < j ensures !Boots(z, ws[t], steps[t], side) {
      if s <= t {
        StartedNeverFails(z, ws, steps, side, b, s, t);
      }
      NoBoot(z, ws[t], steps[t], side);
    }
    forall p | 0 <= p < |z.conf| ensures HasSocket(ws[j], side, p) {
      assert OpensIn(steps, side, p, b, s);
      var t :| b <= t < s && Opens(steps[t], side, p);
      OpenedHasSocket(z, ws, steps, side, p, t, j);
    }
    forall payload, salt ensures !Emit(Choose(NodeOf(ws[j], side).ctx, z.conf), payload, salt).AssertFails? {
      SocketsSuffice(z, ws[j], side, payload, salt);
    }
  }

  lemma NoBoot(z: Setup, w: World, step: Step, side: Mode)
    requires WellFormed(z, w) && Enabled(z, w, step) && !Stops(z, w, step, side)
    requires ReadsTun(step, side) ==>
               forall payload, salt :: !Emit(Choose(NodeOf(w, side).ctx, z.conf), payload, salt).AssertFails?
    ensures !Boots(z, w, step, side)
  {
    hide Emit, Choose, Arrival;
  }
}
