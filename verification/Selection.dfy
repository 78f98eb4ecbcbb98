/** The round-robin choice of the sending path in `udp_sender`, and its fairness over runs. */
module Selection {

  /** The path after c, cyclically. */
  function After(c: nat, n: nat): (r: nat)
    requires c < n
    ensures r < n
  {
    if c + 1 == n then 0 else c + 1
  }

  /** The scan that stops at an alive path, or after k steps. */
  function Scan(alive: seq<bool>, c: nat, k: nat): (r: nat)
    requires c < |alive| && 0 < k
    ensures r < |alive|
    decreases k
  {
    var next := After(c, |alive|);
    if alive[next] || k == 1 then next else Scan(alive, next, k - 1)
  }

  /** The path that one call selects when `last` was selected before: after |alive| steps the scan is back
      at `last` and stops there. */
  function Pick(alive: seq<bool>, last: nat): (r: nat)
    requires last < |alive|
    ensures r < |alive|
  {
    Scan(alive, last, |alive|)
  }

  /** How many steps it takes from c to x, going forward at least one. */
  function Distance(c: nat, x: nat, n: nat): (d: nat)
    requires c < n && x < n
    ensures 1 <= d <= n
  {
    if x > c then x - c else x + n - c
  }

  lemma AfterIsMod(c: nat, n: nat)
    requires c < n
    ensures (c + 1) % n == After(c, n)
  {
  }

  lemma {:induction false} ScanNearest(alive: seq<bool>, c: nat, k: nat)
    requires c < |alive| && 0 < k <= |alive|
    ensures var r := Scan(alive, c, k);
            && Distance(c, r, |alive|) <= k
            && (alive[r] || Distance(c, r, |alive|) == k)
            && forall x :: 0 <= x < |alive| && Distance(c, x, |alive|) < Distance(c, r, |alive|) ==> !alive[x]
    decreases k
  {
    var n := |alive|;
    var next := After(c, n);
    assert Distance(c, next, n) == 1;
    if !alive[next] && k > 1 {
      ScanNearest(alive, next, k - 1);
      assert forall x :: 0 <= x < n && x != next ==> Distance(c, x, n) == Distance(next, x, n) + 1;
    }
  }

  /** One selection takes the first alive path in cyclic order after the last one: an alive path whenever
      there is one, and otherwise the last path again. */
  lemma PickNearest(alive: seq<bool>, last: nat)
    requires last < |alive|
    ensures var r := Pick(alive, last);
            && (forall x :: 0 <= x < |alive| && alive[x] ==>
                  alive[r] && Distance(last, r, |alive|) <= Distance(last, x, |alive|))
            && (alive[r] <==> true in alive)
            && (true !in alive ==> r == last)
  {
    ScanNearest(alive, last, |alive|);
  }

  /** The loop of `udp_sender`; `steps` counts how often it moves on. */
  method Select(alive: seq<bool>, last: nat) returns (path: nat, ghost steps: nat)
    requires last < |alive|
    ensures path == Pick(alive, last)
    ensures path < |alive| && 1 <= steps <= |alive|
    ensures steps == if path > last then path - last else path + |alive| - last
    ensures alive[path] || path == last
    ensures forall x :: 0 <= x < |alive| && alive[x] ==> steps <= if x > last then x - last else x + |alive| - last
  {
    AfterIsMod(last, |alive|);
    PickNearest(alive, last);
    path := (last + 1) % |alive|;
    steps := 1;
    while !(alive[path] || path == last)
      invariant path < |alive| && 1 <= steps == Distance(last, path, |alive|)
      invariant Scan(alive, last, |alive|) ==
                if alive[path] || steps == |alive| then path else Scan(alive, path, |alive| - steps)
      decreases |alive| - steps
    {
      AfterIsMod(path, |alive|);
      path := (path + 1) % |alive|;
      steps := steps + 1;
    }
  }

  // ---------------------------------------------------------------- fairness

  /** How often x occurs in s. */
  function Times(s: seq<nat>, x: nat): nat {
    multiset(s)[x]
  }

  /** The paths chosen by m consecutive calls, and the path chosen last. */
  function Picks(alive: seq<bool>, c: nat, m: nat): (s: seq<nat>)
    requires c < |alive|
    ensures |s| == m && forall i :: 0 <= i < m ==> s[i] < |alive|
    decreases m
  {
    if m == 0 then [] else [Pick(alive, c)] + Picks(alive, Pick(alive, c), m - 1)
  }

  function Cursor(alive: seq<bool>, c: nat, m: nat): (r: nat)
    requires c < |alive|
    ensures r < |alive|
    decreases m
  {
    if m == 0 then c else Cursor(alive, Pick(alive, c), m - 1)
  }

  lemma {:induction false} PicksSplit(alive: seq<bool>, c: nat, m: nat, k: nat)
    requires c < |alive|
    ensures Picks(alive, c, m + k) == Picks(alive, c, m) + Picks(alive, Cursor(alive, c, m), k)
    decreases m
  {
    hide Pick;
    if m > 0 {
      PicksSplit(alive, Pick(alive, c), m - 1, k);
    }
  }

  /** The alive paths met on a walk of len steps from c. */
  function Walk(alive: seq<bool>, c: nat, len: nat): seq<nat>
    requires c < |alive|
    decreases len
  {
    if len == 0 then []
    else
      var next := After(c, |alive|);
      (if alive[next] then [next] else []) + Walk(alive, next, len - 1)
  }

  /** A dead path next in line does not change the choice. */
  lemma PickSkips(alive: seq<bool>, c: nat)
    requires c < |alive| && true in alive && !alive[After(c, |alive|)]
    ensures Pick(alive, c) == Pick(alive, After(c, |alive|))
  {
    var n, next := |alive|, After(c, |alive|);
    PickNearest(alive, c);
    PickNearest(alive, next);
    var p, q := Pick(alive, c), Pick(alive, next);
    assert forall x :: 0 <= x < n && x != next ==> Distance(c, x, n) == Distance(next, x, n) + 1;
    assert alive[p] && alive[q];
    assert Distance(next, p, n) == Distance(next, q, n);
  }

  /** The calls choose exactly the alive paths met on the walk, in that order. */
  lemma {:induction false} PicksFollowWalk(alive: seq<bool>, c: nat, len: nat)
    requires c < |alive| && true in alive
    ensures Picks(alive, c, |Walk(alive, c, len)|) == Walk(alive, c, len)
    decreases len
  {
    hide Pick;
    if len > 0 {
      var next := After(c, |alive|);
      PicksFollowWalk(alive, next, len - 1);
      if alive[next] {
        PickNearest(alive, c);
        assert Distance(c, next, |alive|) == 1;
        assert Pick(alive, c) == next;
      } else {
        PickSkips(alive, c);
      }
    }
  }

  lemma TimesConcat(s: seq<nat>, t: seq<nat>, x: nat)
    ensures Times(s + t, x) == Times(s, x) + Times(t, x)
  {
  }

  lemma TimesShort(y: nat, x: nat)
    ensures Times([y], x) == (if x == y then 1 else 0) && Times([], x) == 0
  {
  }

  /** A walk of at most one round meets each alive path once, if it is near enough. */
  lemma {:induction false} WalkCounts(alive: seq<bool>, c: nat, len: nat, x: nat)
    requires c < |alive| && len <= |alive| && x < |alive|
    ensures Times(Walk(alive, c, len), x) == if alive[x] && Distance(c, x, |alive|) <= len then 1 else 0
    decreases len
  {
    hide Times;
    if len == 0 {
      TimesShort(c, x);
    } else {
      var next := After(c, |alive|);
      WalkCounts(alive, next, len - 1, x);
      TimesConcat(if alive[next] then [next] else [], Walk(alive, next, len - 1), x);
      TimesShort(next, x);
    }
  }

  /** The set of alive paths. */
  function AliveSet(alive: seq<bool>): set<nat> {
    set x | 0 <= x < |alive| && alive[x]
  }

  lemma {:induction false} DistinctSize(s: seq<nat>, xs: set<nat>)
    requires forall x: nat :: x in s <==> x in xs
    requires forall x: nat :: x in xs ==> Times(s, x) == 1
    ensures |s| == |xs|
  {
    if s != [] {
      var rest := s[1..];
      assert s == [s[0]] + rest;
      assert multiset(s) == multiset{s[0]} + multiset(rest);
      assert Times(s, s[0]) == 1;
      forall x: nat ensures x in rest <==> x in xs - {s[0]} {
        assert x in rest <==> Times(rest, x) > 0;
      }
      DistinctSize(rest, xs - {s[0]});
    }
  }

  /** One round: |A| consecutive calls choose each path of the alive set A exactly once. */
  lemma OneRound(alive: seq<bool>, c: nat, x: nat)
    requires c < |alive| && true in alive && x in AliveSet(alive)
    ensures Times(Picks(alive, c, |AliveSet(alive)|), x) == 1
  {
    hide Picks, Pick, Walk;
    var n := |alive|;
    var walk := Walk(alive, c, n);
    forall y: nat | y < n ensures Times(walk, y) == if alive[y] then 1 else 0 {
      WalkCounts(alive, c, n, y);
    }
    PicksFollowWalk(alive, c, n);
    forall y: nat ensures y in walk <==> y in AliveSet(alive) {
      assert y in walk <==> Times(walk, y) > 0;
    }
    DistinctSize(walk, AliveSet(alive));
  }

  /** Fairness: while the alive set A is unchanged and not empty, k * |A| consecutive calls from any starting
      path choose each path of A exactly k times. */
  lemma {:induction false} FairRounds(alive: seq<bool>, c: nat, k: nat, x: nat)
    requires c < |alive| && true in alive && x in AliveSet(alive)
    ensures Times(Picks(alive, c, k * |AliveSet(alive)|), x) == k
    decreases k
  {
    hide Picks, Pick, AliveSet;
    var a := |AliveSet(alive)|;
    if k > 0 {
      assert k * a == a + (k - 1) * a;
      PicksSplit(alive, c, a, (k - 1) * a);
      OneRound(alive, c, x);
      FairRounds(alive, Cursor(alive, c, a), k - 1, x);
    } else {
      assert Picks(alive, c, 0) == [];
    }
  }

  lemma WholeRounds(m: nat, a: nat) returns (k: nat, r: nat)
    requires 0 < a
    ensures m == k * a + r && r < a
  {
    k, r := m / a, m % a;
  }

  /** In any window of calls, however long and wherever it starts, two alive paths are chosen equally often
      up to one. */
  lemma FairWindow(alive: seq<bool>, c: nat, m: nat, x: nat, y: nat)
    requires c < |alive| && true in alive && x in AliveSet(alive) && y in AliveSet(alive)
    ensures Times(Picks(alive, c, m), x) <= Times(Picks(alive, c, m), y) + 1
  {
    hide Picks, Pick, AliveSet;
    var a := |AliveSet(alive)|;
    assert a > 0 by {
      assert AliveSet(alive) != {};
    }
    var k, r := WholeRounds(m, a);
    var d := Cursor(alive, c, k * a);
    PicksSplit(alive, c, k * a, r);
    PicksSplit(alive, d, r, a - r);
    FairRounds(alive, c, k, x);
    FairRounds(alive, c, k, y);
    OneRound(alive, d, x);
  }
}
