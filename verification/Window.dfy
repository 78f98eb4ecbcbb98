/** The token window: which tokens a heartbeat pass leaves in the pool, whenever it reads the clock. */
module Window {
  import opened Base
  import opened Codec
  import opened Totp
  import opened Session

  function NoTokens(): (r: seq<int>)
    ensures |r| == POOL
  {
    seq(POOL, i => 0)
  }

  /** The readings of a pass are made one after another. */
  predicate Ordered(clock: seq<nat>) {
    forall i, j :: 0 <= i <= j < |clock| ==> clock[i] <= clock[j]
  }

  /** A pass starts at `wall` or later and takes less than a step. */
  predicate ReadInTime(clock: seq<nat>, wall: nat) {
    Ordered(clock) && forall i :: 0 <= i < |clock| ==> wall <= clock[i] < wall + TOTP_STEP
  }

  /** They all fall into one step. */
  predicate OneStep(clock: seq<nat>, wall: nat) {
    forall i :: 0 <= i < |clock| ==> clock[i] / TOTP_STEP == wall / TOTP_STEP
  }

  /** The first n fall into the step of `wall` and the others into the next one. */
  predicate Straddles(clock: seq<nat>, wall: nat, n: nat) {
    forall i :: 0 <= i < |clock| ==> clock[i] / TOTP_STEP == wall / TOTP_STEP + (if i < n then 0 else 1)
  }

  lemma WholeStep(clock: seq<nat>, wall: nat)
    requires OneStep(clock, wall)
    ensures Straddles(clock, wall, |clock|)
  {
  }

  /** One moment for all readings. */
  function Still(wall: nat): (clock: seq<nat>)
    ensures |clock| == READINGS && OneStep(clock, wall) && Straddles(clock, wall, READINGS) && ReadInTime(clock, wall)
  {
    seq(READINGS, i => wall)
  }

  // ---------------------------------------------------------------- contents of a pool

  lemma SameToken(lib: Library, range: nat, at: nat, wall: nat, k: int, later: int)
    requires at / TOTP_STEP == wall / TOTP_STEP + later
    ensures Token(lib, range, at, k) == Token(lib, range, wall, k + later)
  {
  }

  lemma SameRefill(lib: Library, range: nat, clock: seq<nat>, clock': seq<nat>, pool: seq<int>)
    requires |clock| == |clock'| == READINGS && |pool| == POOL
    requires forall i :: 0 <= i < READINGS ==> clock[i] / TOTP_STEP == clock'[i] / TOTP_STEP
    ensures Refill(lib, range, clock, pool) == Refill(lib, range, clock', pool)
  {
    hide Token;
    var r, s := Refill(lib, range, clock, pool), Refill(lib, range, clock', pool);
    forall i | 0 <= i < POOL ensures r[i] == s[i] {
      if i != 1 {
        SameToken(lib, range, clock[Reading(i)], clock'[Reading(i)], Offset(i), 0);
      }
    }
  }

  /** Only the steps of the readings matter to a pass; within them it may take any time. */
  lemma SamePass(lib: Library, ctx: Ctx, conf: seq<PathConf>, clocks: seq<seq<nat>>, clocks': seq<seq<nat>>)
    requires ValidCtx(ctx, conf) && ValidClocks(clocks, |conf|) && ValidClocks(clocks', |conf|)
    requires forall p, i :: 0 <= p < |conf| && 0 <= i < READINGS ==> clocks[p][i] / TOTP_STEP == clocks'[p][i] / TOTP_STEP
    ensures Pass(lib, ctx, conf, clocks) == Pass(lib, ctx, conf, clocks')
  {
    hide Refill;
    forall p | 0 <= p < |conf|
      ensures Pass(lib, ctx, conf, clocks).paths[p] == Pass(lib, ctx, conf, clocks').paths[p]
    {
      SameRefill(lib, conf[p].portRange, clocks[p], clocks'[p], ctx.paths[p].pool);
    }
  }

  /** The steps that a pass leaves in the pool, counted from the step of its first n readings: with all readings
      in one step those from -19 to 19; with a change among the odd slots the earliest is missing; with a change
      among the even slots the window has moved on by one and has a hole at n. */
  predicate Kept(n: nat, k: int) {
    if n >= READINGS then -19 <= k <= 19
    else if n >= POOL / 2 then -18 <= k <= 19
    else -18 <= k <= 20 && (n > 0 ==> k != n)
  }

  /** Which step a slot holds. */
  function Held(slot: nat, n: nat): int
    requires slot < POOL && slot != 1
  {
    Offset(slot) + if Reading(slot) < n then 0 else 1
  }

  /** The slot that holds a step. */
  function SlotOf(n: nat, k: int): (slot: nat)
    requires n <= READINGS && Kept(n, k)
    ensures slot < POOL && slot != 1 && Held(slot, n) == k
  {
    if k > 0 then (if k < n then 2 * k else 2 * k - 2)
    else if k == 0 then (if n > 0 then 0 else 3)
    else if POOL / 2 - 1 - k < n then 1 - 2 * k else 3 - 2 * k
  }

  lemma HeldIsKept(slot: nat, n: nat)
    requires slot < POOL && slot != 1 && n <= READINGS
    ensures Kept(n, Held(slot, n))
  {
  }

  lemma SlotToken(lib: Library, range: nat, clock: seq<nat>, wall: nat, n: nat, pool: seq<int>, i: nat)
    requires |clock| == READINGS && |pool| == POOL && Straddles(clock, wall, n) && i < POOL && i != 1
    ensures Refill(lib, range, clock, pool)[i] == Token(lib, range, wall, Held(i, n))
  {
    hide Token;
    SameToken(lib, range, clock[Reading(i)], wall, Offset(i), if Reading(i) < n then 0 else 1);
  }

  ghost predicate InPool(lib: Library, range: nat, wall: nat, n: nat, v: int) {
    exists k :: Kept(n, k) && v == Token(lib, range, wall, k)
  }

  /** Wherever the step changes during a pass, and also when it does not: a value is in the pool afterwards
      exactly when it is the token of a kept step or the value that slot 1 held before. */
  lemma PoolContents(lib: Library, range: nat, clock: seq<nat>, wall: nat, n: nat, pool: seq<int>, v: int)
    requires |clock| == READINGS && |pool| == POOL && n <= READINGS && Straddles(clock, wall, n)
    ensures v in Refill(lib, range, clock, pool) <==> v == pool[1] || InPool(lib, range, wall, n, v)
  {
    hide Token, Kept, Held, Straddles;
    var r := Refill(lib, range, clock, pool);
    if v in r {
      var i :| 0 <= i < POOL && r[i] == v;
      if i != 1 {
        SlotToken(lib, range, clock, wall, n, pool, i);
        HeldIsKept(i, n);
      }
    } else {
      assert r[1] == pool[1];
      forall k | Kept(n, k) ensures v != Token(lib, range, wall, k) {
        SlotToken(lib, range, clock, wall, n, pool, SlotOf(n, k));
      }
    }
  }

  /** A pass that takes less than a step changes the step at most once. */
  lemma {:induction false} StraddleExists(clock: seq<nat>, wall: nat, m: nat) returns (n: nat)
    requires m <= |clock| && ReadInTime(clock, wall)
    requires forall i :: m <= i < |clock| ==> clock[i] / TOTP_STEP == wall / TOTP_STEP + 1
    ensures n <= |clock| && Straddles(clock, wall, n)
    decreases m
  {
    if m == 0 || clock[m - 1] / TOTP_STEP == wall / TOTP_STEP {
      n := m;
    } else {
      n := StraddleExists(clock, wall, m - 1);
    }
  }

  /** A token computed at wall time c is in the pool when its step is kept. */
  lemma WindowAdmits(lib: Library, range: nat, c: nat, clock: seq<nat>, wall: nat, n: nat, pool: seq<int>)
    requires |clock| == READINGS && |pool| == POOL && n <= READINGS && Straddles(clock, wall, n)
    requires Kept(n, c / TOTP_STEP - wall / TOTP_STEP)
    ensures Token(lib, range, c, 0) in Refill(lib, range, clock, pool)
  {
    hide Refill, Kept, Straddles;
    var k := c / TOTP_STEP - wall / TOTP_STEP;
    assert Token(lib, range, wall, k) == Token(lib, range, c, 0) by {
      StepOf(wall, c);
    }
    PoolContents(lib, range, clock, wall, n, pool, Token(lib, range, c, 0));
  }

  /** In milliseconds: at most 9500 before or after a pass whose readings fall into one step; and at most 9000
      before one that starts in the step of `wall` or a later one, wherever the step changes. */
  lemma KeptInTime(c: nat, wall: nat, n: nat)
    requires n <= READINGS
    ensures n == READINGS && -9500 <= wall - c <= 9500 ==> Kept(n, c / TOTP_STEP - wall / TOTP_STEP)
    ensures 0 <= wall - c <= 9000 ==> Kept(n, c / TOTP_STEP - wall / TOTP_STEP)
  {
  }

  // ---------------------------------------------------------------- exactly which tokens

  /** A filled step's token is in the pool. */
  lemma FilledAdmits(lib: Library, range: nat, c: nat, clock: seq<nat>, pool: seq<int>)
    requires |clock| == READINGS && |pool| == POOL && Filled(clock, Step(c, 0))
    ensures Token(lib, range, c, 0) in Refill(lib, range, clock, pool)
  {
    hide Step;
    var i: nat :| i < POOL && i != 1 && Step(clock[Reading(i)], Offset(i)) == Step(c, 0);
    assert Refill(lib, range, clock, pool)[i] == Token(lib, range, c, 0);
  }

  /** A pass fills some slot for step number t. */
  predicate Filled(clock: seq<nat>, t: nat)
    requires |clock| == READINGS
  {
    exists i: nat :: i < POOL && i != 1 && Step(clock[Reading(i)], Offset(i)) == t
  }

  /** The library whose digest is 1 for one step, 2 for another, and 0 otherwise. */
  function Telling(one: nat, two: nat): (lib: Library) {
    Library(x => [], x => None,
            x => seq<byte>(15, i => 0) + [if x == HexText(one, 16) then 1 else if x == HexText(two, 16) then 2 else 0],
            (a, b, i) => 0)
  }

  lemma TellingTokens(one: nat, two: nat, wall: nat, k: int)
    requires one < 0x1_0000_0000_0000_0000 && two < 0x1_0000_0000_0000_0000 && one != two
    ensures Lawful(Telling(one, two))
    ensures Token(Telling(one, two), 2, wall, k) ==
            if Step(wall, k) == one then 1 else if Step(wall, k) == two then 2 else 0
  {
    hide HexText;
    var s := Step(wall, k);
    if s != one {
      StepTextsDiffer(s, one);
    }
    if s != two {
      StepTextsDiffer(s, two);
    }
    LastByte(Telling(one, two).mac(HexText(s, 16)));
  }

  lemma {:induction false} ZeroBytes(d: seq<byte>)
    requires forall i :: 0 <= i < |d| ==> d[i] == 0
    ensures BigEndian(d) == 0
  {
    if d != [] {
      ZeroBytes(d[..|d| - 1]);
    }
  }

  lemma LastByte(d: digest)
    requires forall i :: 0 <= i < 15 ==> d[i] == 0
    ensures BigEndian(d) == d[15]
  {
    ZeroBytes(d[..15]);
  }

  lemma StepBelow(wall: nat, offset: int)
    ensures Step(wall, offset) < 0x1_0000_0000_0000_0000
  {
  }

  /** A step that no slot is filled for, and a lawful library that shows it. */
  lemma NotFilled(clock: seq<nat>, wall: nat, k: int) returns (lib: Library, range: nat)
    requires |clock| == READINGS && !Filled(clock, Step(wall, k))
    ensures Lawful(lib) && Token(lib, range, wall, k) !in Refill(lib, range, clock, NoTokens())
  {
    hide Token, Telling, Lawful, Step;
    var t := Step(wall, k);
    StepBelow(wall, k);
    var other := if t == 0 then 1 else 0;
    lib, range := Telling(t, other), 2;
    TellingTokens(t, other, wall, k);
    var r := Refill(lib, range, clock, NoTokens());
    forall i | 0 <= i < POOL ensures r[i] != 1 {
      if i != 1 {
        TellingTokens(t, other, clock[Reading(i)], Offset(i));
      }
    }
  }

  /** Whatever the readings: the token of a step is in the pool, for every lawful library and port range,
      exactly when some slot is filled for it. */
  lemma FilledExact(clock: seq<nat>, wall: nat, k: int)
    requires |clock| == READINGS
    ensures Filled(clock, Step(wall, k)) <==>
            forall lib: Library, range: nat :: Lawful(lib) ==>
              Token(lib, range, wall, k) in Refill(lib, range, clock, NoTokens())
  {
    hide Lawful, Step;
    if Filled(clock, Step(wall, k)) {
      var i: nat :| i < POOL && i != 1 && Step(clock[Reading(i)], Offset(i)) == Step(wall, k);
      forall lib: Library, range: nat ensures Token(lib, range, wall, k) in Refill(lib, range, clock, NoTokens()) {
        assert Refill(lib, range, clock, NoTokens())[i] == Token(lib, range, wall, k);
      }
    } else {
      var lib, range := NotFilled(clock, wall, k);
    }
  }

  lemma StepsDiffer(x: int, y: int)
    requires 0 < x - y < 0x1_0000_0000_0000_0000
    ensures x % 0x1_0000_0000_0000_0000 != y % 0x1_0000_0000_0000_0000
  {
  }

  lemma SlotStep(clock: seq<nat>, wall: nat, n: nat, i: nat)
    requires |clock| == READINGS && Straddles(clock, wall, n) && i < POOL && i != 1
    ensures Step(clock[Reading(i)], Offset(i)) == Step(wall, Held(i, n))
  {
  }

  lemma NumbersDiffer(wall: nat, j: int, k: int)
    requires j != k && -0x1_0000 < j - k < 0x1_0000
    ensures Step(wall, j) != Step(wall, k)
  {
    if j > k {
      StepsDiffer(wall / TOTP_STEP + j, wall / TOTP_STEP + k);
    } else {
      StepsDiffer(wall / TOTP_STEP + k, wall / TOTP_STEP + j);
    }
  }

  /** Of the steps around a pass exactly the kept ones are filled. */
  lemma FilledIsKept(clock: seq<nat>, wall: nat, n: nat, k: int)
    requires |clock| == READINGS && n <= READINGS && Straddles(clock, wall, n) && -100 <= k <= 100
    ensures Filled(clock, Step(wall, k)) <==> Kept(n, k)
  {
    hide Step, Straddles, Kept, Held;
    if Kept(n, k) {
      SlotStep(clock, wall, n, SlotOf(n, k));
    } else {
      forall i: nat | i < POOL && i != 1 ensures Step(clock[Reading(i)], Offset(i)) != Step(wall, k) {
        SlotStep(clock, wall, n, i);
        HeldIsKept(i, n);
        HeldBound(i, n);
        NumbersDiffer(wall, Held(i, n), k);
      }
    }
  }

  lemma HeldBound(slot: nat, n: nat)
    requires slot < POOL && slot != 1
    ensures -19 <= Held(slot, n) <= 20
  {
  }

  /** So the step of a moment is filled when it is kept. */
  lemma FilledWhenKept(clock: seq<nat>, wall: nat, n: nat, c: nat)
    requires |clock| == READINGS && n <= READINGS && Straddles(clock, wall, n)
    requires Kept(n, c / TOTP_STEP - wall / TOTP_STEP)
    ensures Filled(clock, Step(c, 0))
  {
    hide Step, Filled, Straddles;
    FilledIsKept(clock, wall, n, c / TOTP_STEP - wall / TOTP_STEP);
    StepOf(wall, c);
  }

  lemma StepOf(wall: nat, c: nat)
    ensures Step(wall, c / TOTP_STEP - wall / TOTP_STEP) == Step(c, 0)
  {
  }

  /** Exactly which steps around a pass are admitted, wherever its step changes. */
  lemma KeptExact(clock: seq<nat>, wall: nat, n: nat, k: int)
    requires |clock| == READINGS && n <= READINGS && Straddles(clock, wall, n) && -100 <= k <= 100
    ensures Kept(n, k) <==>
            forall lib: Library, range: nat :: Lawful(lib) ==>
              Token(lib, range, wall, k) in Refill(lib, range, clock, NoTokens())
  {
    hide Kept, Straddles, Filled, Lawful, Refill, Token;
    FilledIsKept(clock, wall, n, k);
    FilledExact(clock, wall, k);
  }

  /** The token of the step in which the pass ends is admitted exactly when the step does not change just
      after the first reading. */
  lemma PresentToken(clock: seq<nat>, wall: nat, n: nat)
    requires |clock| == READINGS && n <= READINGS && Straddles(clock, wall, n)
    ensures n != 1 <==>
            forall lib: Library, range: nat :: Lawful(lib) ==>
              Token(lib, range, clock[READINGS - 1], 0) in Refill(lib, range, clock, NoTokens())
  {
    hide Lawful, Refill, Token;
    var k := if n < READINGS then 1 else 0;
    KeptExact(clock, wall, n, k);
    forall lib: Library, range: nat ensures Token(lib, range, clock[READINGS - 1], 0) == Token(lib, range, wall, k) {
      SameToken(lib, range, clock[READINGS - 1], wall, 0, k);
    }
  }

  /** ... and it can: the first reading in the last millisecond of a step. */
  lemma PresentTokenMissed() returns (clock: seq<nat>, lib: Library, range: nat)
    ensures |clock| == READINGS && Ordered(clock) && clock[READINGS - 1] == clock[0] + 1 && Straddles(clock, clock[0], 1)
    ensures Lawful(lib) && Token(lib, range, clock[READINGS - 1], 0) !in Refill(lib, range, clock, NoTokens())
  {
    hide Lawful, Refill, Token;
    clock := seq(READINGS, i => if i < 1 then TOTP_STEP - 1 else TOTP_STEP);
    PresentToken(clock, clock[0], 1);
    lib, range :| Lawful(lib) && Token(lib, range, clock[READINGS - 1], 0) !in Refill(lib, range, clock, NoTokens());
  }

  /** When the readings do not all fall into the first one's step, the earliest step of the window is missing. */
  lemma EarliestMissing(clock: seq<nat>)
    requires |clock| == READINGS && Ordered(clock) && clock[READINGS - 1] - clock[0] < PERIOD / 2
    requires !OneStep(clock, clock[0])
    ensures !Filled(clock, Step(clock[0], -19))
  {
    var s := clock[0] / TOTP_STEP;
    assert clock[READINGS - 1] / TOTP_STEP > s by {
      var j :| 0 <= j < READINGS && clock[j] / TOTP_STEP != s;
      assert clock[0] <= clock[j] <= clock[READINGS - 1];
    }
    forall i: nat | i < POOL && i != 1 ensures Step(clock[Reading(i)], Offset(i)) != Step(clock[0], -19) {
      var r := Reading(i);
      assert clock[0] <= clock[r] <= clock[READINGS - 1];
      assert Offset(i) == -19 ==> r == READINGS - 1;
      StepsDiffer(clock[r] / TOTP_STEP + Offset(i), s - 19);
    }
  }

  /** The window of a pass, exactly. Every token computed within 9500 ms of its first reading is admitted, for
      every lawful library and port range, if and only if all its readings fall into one step. */
  lemma WindowOfPass(clock: seq<nat>)
    requires |clock| == READINGS && Ordered(clock) && 9500 <= clock[0] && clock[READINGS - 1] - clock[0] < PERIOD / 2
    ensures OneStep(clock, clock[0]) <==>
            forall lib: Library, range: nat, c: nat :: Lawful(lib) && -9500 <= c - clock[0] <= 9500 ==>
              Token(lib, range, c, 0) in Refill(lib, range, clock, NoTokens())
  {
    hide Lawful, Refill, Token, Step, Filled;
    if OneStep(clock, clock[0]) {
      assert Straddles(clock, clock[0], READINGS);
      forall lib: Library, range: nat, c: nat | -9500 <= c - clock[0] <= 9500
        ensures Token(lib, range, c, 0) in Refill(lib, range, clock, NoTokens())
      {
        KeptInTime(c, clock[0], READINGS);
        WindowAdmits(lib, range, c, clock, clock[0], READINGS, NoTokens());
      }
    } else {
      EarliestMissing(clock);
      var lib, range := NotFilled(clock, clock[0], -19);
      var c := clock[0] - 9500;
      SameToken(lib, range, c, clock[0], 0, -19);
    }
  }

  // ---------------------------------------------------------------- the window by distance

  // Steps are numbered with 64 bits, so everything repeats after this many milliseconds.
  const PERIOD := TOTP_STEP * 0x1_0000_0000_0000_0000

  /** Two moments d milliseconds apart, seen on a clock of that period, are at most 9500 ms apart. */
  predicate Near(d: nat) {
    d % PERIOD <= 9500 || PERIOD - 9500 <= d % PERIOD
  }

  /** A wall time in milliseconds is a signed 64-bit number, and so is the distance of two: no wrap occurs. */
  lemma NearInPractice(d: nat)
    requires d < 0x8000_0000_0000_0000
    ensures Near(d) <==> d <= 9500
  {
  }

  lemma StepPeriod(c: nat, d: nat, k: int)
    ensures Step(c + d, k) == Step(c + d % PERIOD, k)
  {
    var q, r := d / PERIOD, d % PERIOD;
    assert c + d == (c + r) + TOTP_STEP * (q * 0x1_0000_0000_0000_0000);
    assert (c + d) / TOTP_STEP == (c + r) / TOTP_STEP + q * 0x1_0000_0000_0000_0000;
  }

  /** The steps near a moment are numbered like one of the 39 steps around the other moment. */
  lemma StepNear(c: nat, d: nat) returns (k: int)
    requires Near(d)
    ensures -19 <= k <= 19 && Step(c + d, k) == Step(c, 0) && Step(c, -k) == Step(c + d, 0)
  {
    var r := d % PERIOD;
    var a, b := c / TOTP_STEP, (c + r) / TOTP_STEP;
    var wraps := if r > 9500 then 1 else 0;
    k := a - b + wraps * 0x1_0000_0000_0000_0000;
    StepPeriod(c, d, k);
    StepPeriod(c, d, 0);
    StepsAgree(b + k, a, wraps);
    StepsAgree(a - k, b, -wraps);
  }

  lemma StepsAgree(x: int, y: int, m: int)
    requires x == y + m * 0x1_0000_0000_0000_0000
    ensures x % 0x1_0000_0000_0000_0000 == y % 0x1_0000_0000_0000_0000
  {
  }

  /** Two moments at a distance that is not near, with each one's step outside the other's window. */
  lemma StepFar(d: nat) returns (c: nat, h: nat)
    requires !Near(d)
    ensures h == c + d
    ensures forall k :: -19 <= k <= 19 ==> Step(h, k) != Step(c, 0)
    ensures forall k :: -19 <= k <= 19 ==> Step(c, k) != Step(h, 0)
  {
    var r := d % PERIOD;
    c := if r < PERIOD / 2 then TOTP_STEP - 1 else 0;
    h := c + d;
    var a, b := c / TOTP_STEP, (c + r) / TOTP_STEP;
    assert a == 0 && 20 <= b <= 0x1_0000_0000_0000_0000 - 20;
    StepPeriod(c, d, 0);
    forall k | -19 <= k <= 19 ensures Step(h, k) != Step(c, 0) {
      StepPeriod(c, d, k);
      StepsDiffer(b + k, a);
    }
    forall k | -19 <= k <= 19 ensures Step(c, k) != Step(h, 0) {
      StepsDiffer(b, a + k);
    }
  }

  /** A pass in the step of h fills no slot for a step outside the window of h. */
  lemma OutsideNotFilled(clock: seq<nat>, h: nat, t: nat)
    requires |clock| == READINGS && OneStep(clock, h) && forall k :: -19 <= k <= 19 ==> Step(h, k) != t
    ensures !Filled(clock, t)
  {
    hide Step;
    forall i: nat | i < POOL && i != 1 ensures Step(clock[Reading(i)], Offset(i)) != t {
      assert Straddles(clock, h, READINGS);
      SlotStep(clock, h, READINGS, i);
    }
  }

  /** The bound is the best one: at any distance that is not near there are two moments neither of whose tokens
      is admitted by the passes in the other's step. */
  lemma WindowIsTight(d: nat) returns (c: nat, h: nat)
    requires !Near(d)
    ensures h == c + d
    ensures forall clock: seq<nat> :: |clock| == READINGS && OneStep(clock, h) ==> !Filled(clock, Step(c, 0))
    ensures forall clock: seq<nat> :: |clock| == READINGS && OneStep(clock, c) ==> !Filled(clock, Step(h, 0))
  {
    hide Near, Step, Filled, OneStep;
    c, h := StepFar(d);
    forall clock: seq<nat> | |clock| == READINGS && OneStep(clock, h) ensures !Filled(clock, Step(c, 0)) {
      OutsideNotFilled(clock, h, Step(c, 0));
    }
    forall clock: seq<nat> | |clock| == READINGS && OneStep(clock, c) ensures !Filled(clock, Step(h, 0)) {
      OutsideNotFilled(clock, c, Step(h, 0));
    }
  }

  /** The token of the one moment is admitted by a pass in the step of the other, whatever the library. */
  ghost predicate Admitted(c: nat, h: nat) {
    forall lib: Library, range: nat, clock: seq<nat> :: Lawful(lib) && |clock| == READINGS && OneStep(clock, h) ==>
      Token(lib, range, c, 0) in Refill(lib, range, clock, NoTokens())
  }

  lemma NearAdmits(c: nat, h: nat, k: int)
    requires -19 <= k <= 19 && Step(h, k) == Step(c, 0)
    ensures Admitted(c, h)
  {
    hide Refill, Lawful, Step;
    forall lib: Library, range: nat, clock: seq<nat> | |clock| == READINGS && OneStep(clock, h)
      ensures Token(lib, range, c, 0) in Refill(lib, range, clock, NoTokens())
    {
      assert Straddles(clock, h, READINGS);
      PoolContents(lib, range, clock, h, READINGS, NoTokens(), Token(lib, range, c, 0));
      assert Kept(READINGS, k) && Token(lib, range, h, k) == Token(lib, range, c, 0);
    }
  }

  /** The window by distance, exactly: a distance is near if and only if, at any two moments that far apart,
      each token is admitted by the passes in the other's step. */
  lemma WindowExact(d: nat)
    ensures Near(d) <==> forall c: nat, h: nat :: h == c + d ==> Admitted(c, h) && Admitted(h, c)
  {
    hide Near, Step, Admitted;
    if Near(d) {
      forall c: nat, h: nat | h == c + d ensures Admitted(c, h) && Admitted(h, c) {
        var k := StepNear(c, d);
        NearAdmits(c, h, k);
        NearAdmits(h, c, -k);
      }
    } else {
      var c, h := WindowIsTight(d);
      NotAdmitted(c, h);
    }
  }

  lemma NotAdmitted(c: nat, h: nat)
    requires !Filled(Still(h), Step(c, 0))
    ensures !Admitted(c, h)
  {
    hide Token, Refill, Lawful, Filled, Step;
    var lib, range := NotFilled(Still(h), c, 0);
  }

  /** Slot 1 lets a token in that no window holds: there is a lawful library under which 0 is no step's token,
      and yet 0 is in every pool. */
  lemma ZeroOutsideWindow() returns (lib: Library, range: nat)
    ensures Lawful(lib)
    ensures forall clock: seq<nat> :: |clock| == READINGS ==> 0 in Refill(lib, range, clock, NoTokens())
    ensures forall wall: nat, k: int :: Token(lib, range, wall, k) != 0
  {
    lib := Library(x => [], x => None, x => seq<byte>(15, i => 0) + [1], (a, b, i) => 0);
    range := 1;
    forall clock: seq<nat> | |clock| == READINGS ensures 0 in Refill(lib, range, clock, NoTokens()) {
      assert Refill(lib, range, clock, NoTokens())[1] == 0;
    }
    forall wall: nat, k: int ensures Token(lib, range, wall, k) != 0 {
      hide HexText, Step;
      LastByte(lib.mac(HexText(Step(wall, k), 16)));
    }
  }
}
