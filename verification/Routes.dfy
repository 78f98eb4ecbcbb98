/** The routing table that `route` builds: the IPv4 space minus the server, as CIDR prefixes. */
module Routes {
  import opened Base

  /** `addr`/`len`: the addresses whose top `len` bits agree with `addr`. */
  datatype Prefix = Prefix(addr: nat, len: nat)

  const SPACE: nat := 0x1_0000_0000

  /** A prefix has at most 32 significant bits and no bit set below them. */
  predicate Aligned(p: Prefix) {
    p.len <= 32 && p.addr < SPACE && Top(p.addr, 32 - p.len) == p.addr
  }

  predicate Covers(p: Prefix, x: nat) {
    p.len <= 32 && p.addr <= x < p.addr + Shl(1, 32 - p.len)
  }

  /** Bit k of an address. */
  function Bit(ip: nat, k: nat): nat {
    Shr(ip, k) % 2
  }

  /** `ip` with its low k bits cleared. */
  function Top(ip: nat, k: nat): nat {
    Shl(Shr(ip, k), k)
  }

  /** The prefix of length m that leaves the path to `ip` at its last bit:
      bit 32 - m flipped, every lower bit cleared. */
  function Sibling(ip: nat, m: nat): Prefix
    requires 1 <= m <= 32
  {
    Prefix(Shl(FlipLowest(Shr(ip, 32 - m)), 32 - m), m)
  }

  function FlipLowest(q: nat): nat {
    if q % 2 == 1 then q - 1 else q + 1
  }

  /** The siblings of length m and longer on one side of `ip`: below it (bit = 1) or above it (bit = 0). */
  function Side(ip: nat, bit: nat, m: nat): seq<Prefix>
    requires 1 <= m <= 33
    decreases 33 - m
  {
    if m == 33 then []
    else if Bit(ip, 32 - m) == bit then [Sibling(ip, m)] + Side(ip, bit, m + 1)
    else Side(ip, bit, m + 1)
  }

  /** The whole table in the order of issue: first the addresses below `ip`, then those above. */
  function Table(ip: nat): seq<Prefix> {
    Side(ip, 1, 1) + Side(ip, 0, 1)
  }

  // ---------------------------------------------------------------- the algorithm

  /** Results of C arithmetic at 32 and at 64 bits. */
  function U32(x: int): nat { x % 0x1_0000_0000 }
  function U64(x: int): nat { x % 0x1_0000_0000_0000_0000 }

  /** The test and the update of the first loop, at their C widths, are exact. */
  lemma BelowWidths(start: nat, size: nat, ip: nat)
    requires start <= ip < SPACE && 1 <= size < SPACE
    ensures U64(U64(start + size) - 1) == start + size - 1
    ensures start + size - 1 < ip ==> U32(start + size) == start + size
  {
  }

  /** So are those of the second: the difference may pass through -1 but does not stay below 0. */
  lemma AboveWidths(ipEnd: nat, size: nat, ip: nat)
    requires ip <= ipEnd < SPACE && 1 <= size <= ipEnd + 1 && size < SPACE
    ensures U64(U64(ipEnd - size) + 1) == ipEnd - size + 1
    ensures ipEnd - size + 1 > ip ==> U32(ipEnd - size) == ipEnd - size && U32(ipEnd - size + 1) == ipEnd - size + 1
  {
  }

  lemma TopStep(ip: nat, k: nat)
    ensures Top(ip, k) == Top(ip, k + 1) + if Bit(ip, k) == 1 then Shl(1, k) else 0
    ensures Top(ip, k) <= ip < Top(ip, k) + Shl(1, k)
  {
    ShiftBracket(ip, k);
    var q := Shr(ip, k);
    ShlAdd(q / 2, q / 2, k);
    ShlAdd(q / 2 + q / 2, q % 2, k);
    ShlAdd(0, 0, k);
    assert q == q / 2 + q / 2 + q % 2;
  }

  /** Where the sibling of length m starts, in terms of the cleared address. */
  lemma SiblingAt(ip: nat, m: nat)
    requires 1 <= m <= 32
    ensures Sibling(ip, m) ==
            Prefix(Top(ip, 33 - m) + if Bit(ip, 32 - m) == 1 then 0 else Shl(1, 32 - m), m)
  {
    var k := 32 - m;
    TopStep(ip, k);
    var q := Shr(ip, k);
    if q % 2 == 1 {
      ShlAdd(q - 1, 1, k);
    } else {
      ShlAdd(q, 1, k);
    }
  }

  lemma ShlBound(k: nat)
    requires k <= 32
    ensures Shl(1, 32) == SPACE && Shl(1, k) <= SPACE && (k < 32 ==> Shl(1, k) < SPACE)
    decreases 32 - k
  {
    if k < 32 {
      ShlBound(k + 1);
    } else {
      assert Shl(1, 8) == 0x100;
      assert Shl(1, 16) == 0x1_0000;
      assert Shl(1, 24) == 0x100_0000;
      assert Shl(1, 32) == 0x1_0000_0000;
    }
  }

  lemma TopEnds(ip: nat)
    requires ip < SPACE
    ensures Top(ip, 0) == ip && Top(ip, 32) == 0
  {
    ShlBound(32);
    ShlAdd(0, 0, 32);
    ShiftUnique(ip, 0, 32);
  }

  /** The first loop in unbounded arithmetic: what it still issues from here, and its final `start`. */
  function BelowRun(ip: nat, mask: nat, start: nat): (seq<Prefix>, nat)
    requires 1 <= mask <= 33
    decreases 33 - mask, ip - start
  {
    if mask == 33 then ([], start)
    else if start + Shl(1, 32 - mask) - 1 < ip then
      var (rest, end) := BelowRun(ip, mask, start + Shl(1, 32 - mask));
      ([Prefix(start, mask)] + rest, end)
    else BelowRun(ip, mask + 1, start)
  }

  /** The second loop in unbounded arithmetic. */
  function AboveRun(ip: nat, mask: nat, ipEnd: nat): (seq<Prefix>, nat)
    requires 1 <= mask <= 33
    decreases 33 - mask, ipEnd - ip
  {
    if mask == 33 then ([], ipEnd)
    else if ipEnd - Shl(1, 32 - mask) + 1 > ip then
      var (rest, end) := AboveRun(ip, mask, ipEnd - Shl(1, 32 - mask));
      ([Prefix(ipEnd - Shl(1, 32 - mask) + 1, mask)] + rest, end)
    else AboveRun(ip, mask + 1, ipEnd)
  }

  /** The 64-bit difference of the second loop never ends below 0 from here on. */
  ghost predicate AboveFits(ip: nat, mask: nat, ipEnd: nat)
    requires 1 <= mask <= 33
    decreases 33 - mask, ipEnd - ip
  {
    mask == 33 ||
    (Shl(1, 32 - mask) <= ipEnd + 1 &&
     if ipEnd - Shl(1, 32 - mask) + 1 > ip
     then AboveFits(ip, mask, ipEnd - Shl(1, 32 - mask))
     else AboveFits(ip, mask + 1, ipEnd))
  }

  /** Each mask issues a prefix below `ip` exactly when its bit of `ip` is 1. */
  lemma {:induction false} BelowRunIsSide(ip: nat, mask: nat)
    requires ip < SPACE && 1 <= mask <= 33
    ensures BelowRun(ip, mask, Top(ip, 33 - mask)) == (Side(ip, 1, mask), ip)
    decreases 33 - mask
  {
    if mask == 33 {
      TopEnds(ip);
    } else {
      TopStep(ip, 32 - mask);
      SiblingAt(ip, mask);
      BelowRunIsSide(ip, mask + 1);
    }
  }

  /** ... and above `ip` exactly when its bit is 0. */
  lemma {:induction false} AboveRunIsSide(ip: nat, mask: nat)
    requires ip < SPACE && 1 <= mask <= 33
    ensures var e := Top(ip, 33 - mask) + Shl(1, 33 - mask) - 1;
            AboveRun(ip, mask, e) == (Side(ip, 0, mask), ip) && AboveFits(ip, mask, e)
    decreases 33 - mask
  {
    if mask == 33 {
      TopEnds(ip);
    } else {
      TopStep(ip, 32 - mask);
      SiblingAt(ip, mask);
      AboveRunIsSide(ip, mask + 1);
    }
  }

  lemma WholeRuns(ip: nat)
    requires ip < SPACE
    ensures BelowRun(ip, 1, 0) == (Side(ip, 1, 1), ip)
    ensures AboveRun(ip, 1, SPACE - 1) == (Side(ip, 0, 1), ip) && AboveFits(ip, 1, SPACE - 1)
  {
    hide BelowRun, AboveRun, AboveFits, Side;
    TopEnds(ip);
    ShlBound(32);
    BelowRunIsSide(ip, 1);
    AboveRunIsSide(ip, 1);
  }

  /** One turn of the first loop. */
  lemma BelowTurn(ip: nat, mask: nat, start: nat, issued: seq<Prefix>)
    requires ip < SPACE && start <= ip && 1 <= mask <= 32
    requires issued + BelowRun(ip, mask, start).0 == Side(ip, 1, 1)
    ensures var size := Shl(1, 32 - mask);
            && 1 <= size < SPACE
            && if start + size - 1 < ip
               then BelowRun(ip, mask, start).1 == BelowRun(ip, mask, start + size).1
                    && (issued + [Prefix(start, mask)]) + BelowRun(ip, mask, start + size).0 == Side(ip, 1, 1)
               else BelowRun(ip, mask, start) == BelowRun(ip, mask + 1, start)
  {
    hide Side;
    ShlBound(32 - mask);
  }

  /** One turn of the second loop. */
  lemma AboveTurn(ip: nat, mask: nat, ipEnd: nat, issued: seq<Prefix>)
    requires ip < SPACE && ip <= ipEnd < SPACE && 1 <= mask <= 32
    requires issued + AboveRun(ip, mask, ipEnd).0 == Table(ip) && AboveFits(ip, mask, ipEnd)
    ensures var size := Shl(1, 32 - mask);
            && 1 <= size < SPACE && size <= ipEnd + 1
            && if ipEnd - size + 1 > ip
               then AboveRun(ip, mask, ipEnd).1 == AboveRun(ip, mask, ipEnd - size).1
                    && AboveFits(ip, mask, ipEnd - size)
                    && (issued + [Prefix(ipEnd - size + 1, mask)]) + AboveRun(ip, mask, ipEnd - size).0 == Table(ip)
               else AboveRun(ip, mask, ipEnd) == AboveRun(ip, mask + 1, ipEnd) && AboveFits(ip, mask + 1, ipEnd)
  {
    hide Table, Side;
    ShlBound(32 - mask);
  }

  lemma LoopEnds(ip: nat)
    requires ip < SPACE
    ensures BelowRun(ip, 1, 0) == (Side(ip, 1, 1), ip) && [] + Side(ip, 1, 1) == Side(ip, 1, 1)
    ensures forall start: nat :: BelowRun(ip, 33, start) == ([], start)
    ensures AboveFits(ip, 1, SPACE - 1) && AboveRun(ip, 1, SPACE - 1).1 == ip
    ensures Side(ip, 1, 1) + AboveRun(ip, 1, SPACE - 1).0 == Table(ip)
    ensures forall ipEnd: nat :: AboveRun(ip, 33, ipEnd) == ([], ipEnd)
  {
    hide Side;
    WholeRuns(ip);
  }

  /** The two loops of `route` for an IPv4 server address in host order. `shell(i)` is the exit status
      of the i-th command; the first failing one ends the call. The C arithmetic is written out: `start`
      and `ipEnd` are 32 bits wide, the two comparisons are made at 64 bits. */
  method Route(ip: nat, shell: nat -> int) returns (issued: seq<Prefix>, status: int, start: nat, ipEnd: nat)
    requires ip < SPACE
    ensures issued <= Table(ip)
    ensures status == 0 ==> issued == Table(ip) && start == ip && ipEnd == ip
    ensures status != 0 ==> issued != [] && shell(|issued| - 1) == status
    ensures forall i :: 0 <= i < |issued| - (if status == 0 then 0 else 1) ==> shell(i) == 0
  {
    hide BelowRun, AboveRun, AboveFits, Side, Table, Shl, U32, U64;
    issued, status, start, ipEnd := [], 0, 0, SPACE - 1;
    var mask := 1;
    LoopEnds(ip);
    while mask <= 32
      invariant 1 <= mask <= 33 && status == 0 && ipEnd == SPACE - 1 && start <= ip
      invariant forall i :: 0 <= i < |issued| ==> shell(i) == 0
      invariant issued + BelowRun(ip, mask, start).0 == Side(ip, 1, 1) && BelowRun(ip, mask, start).1 == ip
      decreases 33 - mask, ip - start
    {
      var size := Shl(1, 32 - mask);
      BelowTurn(ip, mask, start, issued);
      BelowWidths(start, size, ip);
      if U64(U64(start + size) - 1) < ip {
        issued := issued + [Prefix(start, mask)];
        start := U32(start + size);
        if shell(|issued| - 1) != 0 {
          status := shell(|issued| - 1);
          return;
        }
      } else {
        mask := mask + 1;
      }
    }
    mask := 1;
    while mask <= 32
      invariant 1 <= mask <= 33 && status == 0 && start == ip && ip <= ipEnd < SPACE
      invariant forall i :: 0 <= i < |issued| ==> shell(i) == 0
      invariant issued + AboveRun(ip, mask, ipEnd).0 == Table(ip) && AboveRun(ip, mask, ipEnd).1 == ip
      invariant AboveFits(ip, mask, ipEnd)
      decreases 33 - mask, ipEnd - ip
    {
      var size := Shl(1, 32 - mask);
      AboveTurn(ip, mask, ipEnd, issued);
      AboveWidths(ipEnd, size, ip);
      if U64(U64(ipEnd - size) + 1) > ip {
        ipEnd := U32(ipEnd - size);
        issued := issued + [Prefix(U32(ipEnd + 1), mask)];
        if shell(|issued| - 1) != 0 {
          status := shell(|issued| - 1);
          return;
        }
      } else {
        mask := mask + 1;
      }
    }
  }
}
