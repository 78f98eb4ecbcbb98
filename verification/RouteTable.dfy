/** What the table of `route` is: an exact, disjoint and smallest cover of everything but the server. */
module RouteTable {
  import opened Base
  import opened Routes

  /** An aligned prefix covers the addresses that share its upper bits. */
  lemma CoversBlock(p: Prefix, x: nat)
    requires Aligned(p)
    ensures Covers(p, x) <==> Shr(x, 32 - p.len) == Shr(p.addr, 32 - p.len)
  {
    var k := 32 - p.len;
    ShiftBracket(x, k);
    if Covers(p, x) {
      ShiftUnique(x, Shr(p.addr, k), k);
    }
  }

  lemma ShlZeroBits(b: nat, k: nat, j: nat)
    requires j <= k
    ensures Shr(Shl(b, k), j) == Shl(b, k - j)
  {
    if j > 0 {
      ShlZeroBits(b, k, j - 1);
    }
  }

  lemma ShlLowBit(b: nat, k: nat, j: nat)
    requires j < k
    ensures Shr(Shl(b, k), j) % 2 == 0
  {
    hide Shr;
    ShlZeroBits(b, k, j);
    assert Shl(b, k - j) == 2 * Shl(b, k - j - 1);
  }

  /** The sibling of length m agrees with `ip` above bit 32 - m and differs at that bit. */
  lemma SiblingShape(ip: nat, m: nat)
    requires ip < SPACE && 1 <= m <= 32
    ensures var a := Sibling(ip, m).addr;
            && Shr(a, 33 - m) == Shr(ip, 33 - m)
            && Shr(a, 32 - m) == FlipLowest(Shr(ip, 32 - m))
            && Aligned(Sibling(ip, m))
  {
    var a, k := Sibling(ip, m).addr, 32 - m;
    ShlZeroBits(FlipLowest(Shr(ip, k)), k, k);
    hide Sibling;
    ShrCompose(a, ip, k + 1, 32);
    WithinSpace(ip);
    ShlBound(32);
    ShiftBracket(a, 32);
  }

  /** The address space is the addresses without a bit above the 32nd. */
  lemma WithinSpace(ip: nat)
    requires ip < SPACE
    ensures Shr(ip, 32) == 0 && Shl(0, 32) == 0
  {
    ShlBound(32);
    ShlAdd(0, 0, 32);
    ShiftUnique(ip, 0, 32);
  }

  /** The address of every prefix: bit 32 - m of `ip` flipped, the bits below it cleared, those above it kept. */
  lemma SiblingBits(ip: nat, m: nat, j: nat)
    requires ip < SPACE && 1 <= m <= 32
    ensures Bit(Sibling(ip, m).addr, j) ==
            if j < 32 - m then 0 else if j == 32 - m then 1 - Bit(ip, j) else Bit(ip, j)
  {
    hide Shr, Shl;
    var a, k := Sibling(ip, m).addr, 32 - m;
    SiblingShape(ip, m);
    if j < k {
      ShlLowBit(FlipLowest(Shr(ip, k)), k, j);
    } else if j > k {
      ShrCompose(a, ip, k + 1, j);
    }
  }

  /** A sibling covers the addresses that leave the path to `ip` at its own level. */
  lemma SiblingCovers(ip: nat, m: nat, x: nat)
    requires ip < SPACE && 1 <= m <= 32
    ensures Covers(Sibling(ip, m), x) <==> Shr(x, 33 - m) == Shr(ip, 33 - m) && Shr(x, 32 - m) != Shr(ip, 32 - m)
  {
    SiblingShape(ip, m);
    CoversBlock(Sibling(ip, m), x);
  }

  /** The members of one side, each length at most once and in increasing order. */
  lemma {:induction false} SideMembers(ip: nat, bit: nat, m: nat)
    requires ip < SPACE && 1 <= m <= 33
    ensures forall p :: p in Side(ip, bit, m) <==>
              m <= p.len <= 32 && p == Sibling(ip, p.len) && Bit(ip, 32 - p.len) == bit
    ensures forall i, j :: 0 <= i < j < |Side(ip, bit, m)| ==> Side(ip, bit, m)[i].len < Side(ip, bit, m)[j].len
    decreases 33 - m
  {
    if m < 33 {
      SideMembers(ip, bit, m + 1);
      assert Sibling(ip, m).len == m;
      var rest := Side(ip, bit, m + 1);
      assert forall i :: 0 <= i < |rest| ==> rest[i] in rest;
    }
  }

  lemma {:induction false} SideSizes(ip: nat, m: nat)
    requires 1 <= m <= 33
    ensures |Side(ip, 1, m)| + |Side(ip, 0, m)| == 33 - m
    decreases 33 - m
  {
    if m < 33 {
      SideSizes(ip, m + 1);
    }
  }

  /** `route` issues one prefix of every length from 1 to 32 and no other: in its first loop when the
      deciding bit of `ip` is 1, in its second when it is 0. */
  lemma BitCharacterisation(ip: nat)
    requires ip < SPACE
    ensures |Table(ip)| == 32
    ensures forall m {:trigger Sibling(ip, m)} :: 1 <= m <= 32 ==>
              (Sibling(ip, m) in Side(ip, 1, 1) <==> Bit(ip, 32 - m) == 1) &&
              (Sibling(ip, m) in Side(ip, 0, 1) <==> Bit(ip, 32 - m) == 0)
    ensures forall i, j :: 0 <= i < j < |Table(ip)| ==> Table(ip)[i].len != Table(ip)[j].len
    ensures forall p :: p in Table(ip) ==> 1 <= p.len <= 32 && p == Sibling(ip, p.len)
  {
    hide Side;
    SideSizes(ip, 1);
    SideMembers(ip, 1, 1);
    SideMembers(ip, 0, 1);
    var lower, upper := Side(ip, 1, 1), Side(ip, 0, 1);
    assert Table(ip) == lower + upper;
    forall i, j | 0 <= i < j < 32 ensures Table(ip)[i].len != Table(ip)[j].len {
      if i < |lower| <= j {
        assert lower[i] in lower && upper[j - |lower|] in upper;
      }
    }
  }

  /** The level at which x leaves the path to `ip`. */
  lemma {:induction false} LeavingLevel(ip: nat, x: nat, k: nat) returns (m: nat)
    requires k <= 32 && Shr(x, k) == Shr(ip, k) && x != ip
    ensures 33 - k <= m <= 32 && Shr(x, 33 - m) == Shr(ip, 33 - m) && Shr(x, 32 - m) != Shr(ip, 32 - m)
  {
    if k == 0 {
      assert false;
    } else if Shr(x, k - 1) != Shr(ip, k - 1) {
      m := 33 - k;
    } else {
      m := LeavingLevel(ip, x, k - 1);
    }
  }

  lemma SiblingsDisjoint(ip: nat, m: nat, n: nat, x: nat)
    requires ip < SPACE && 1 <= m < n <= 32
    ensures !(Covers(Sibling(ip, m), x) && Covers(Sibling(ip, n), x))
  {
    SiblingCovers(ip, m, x);
    SiblingCovers(ip, n, x);
    if Covers(Sibling(ip, n), x) {
      ShrCompose(x, ip, 33 - n, 32 - m);
    }
  }

  /** No address lies in two prefixes of the table, and the server lies in none. This holds of the part
      issued before a failing command too. */
  lemma TableDisjoint(ip: nat, issued: seq<Prefix>)
    requires ip < SPACE && issued <= Table(ip)
    ensures forall p :: p in issued ==> Aligned(p) && !Covers(p, ip)
    ensures forall i, j, x :: 0 <= i < j < |issued| && Covers(issued[i], x) ==> !Covers(issued[j], x)
  {
    hide *;
    BitCharacterisation(ip);
    forall p | p in issued ensures Aligned(p) && !Covers(p, ip) {
      assert p in Table(ip);
      SiblingShape(ip, p.len);
      SiblingCovers(ip, p.len, ip);
    }
    forall i, j, x | 0 <= i < j < |issued| && Covers(issued[i], x) ensures !Covers(issued[j], x) {
      var p, q := issued[i], issued[j];
      assert p == Table(ip)[i] && q == Table(ip)[j] && p in Table(ip) && q in Table(ip);
      if p.len < q.len {
        SiblingsDisjoint(ip, p.len, q.len, x);
      } else {
        SiblingsDisjoint(ip, q.len, p.len, x);
      }
    }
  }

  ghost predicate Reached(ps: set<Prefix>, x: nat) {
    exists p :: p in ps && Covers(p, x)
  }

  /** `ps` routes every address of the IPv4 space except `ip`. */
  ghost predicate CoversAllBut(ps: set<Prefix>, ip: nat) {
    && (forall p :: p in ps ==> Aligned(p))
    && (forall x :: 0 <= x < SPACE ==> (x != ip <==> Reached(ps, x)))
  }

  /** The complete table covers every address but the server's. */
  lemma ExactCover(ip: nat)
    requires ip < SPACE
    ensures CoversAllBut((set p | p in Table(ip)), ip)
  {
    hide Table, Side, Covers, Sibling, Aligned;
    var ps := set p | p in Table(ip);
    TableDisjoint(ip, Table(ip));
    WithinSpace(ip);
    forall x | 0 <= x < SPACE && x != ip ensures Reached(ps, x) {
      WithinSpace(x);
      var m := LeavingLevel(ip, x, 32);
      SiblingCovers(ip, m, x);
      InTable(ip, m);
      assert Sibling(ip, m) in ps;
    }
  }

  lemma InTable(ip: nat, m: nat)
    requires ip < SPACE && 1 <= m <= 32
    ensures Sibling(ip, m) in Table(ip)
  {
    hide Side;
    SideMembers(ip, Bit(ip, 32 - m), 1);
  }

  // ---------------------------------------------------------------- minimality

  /** A block that holds two of the siblings' addresses holds the server too. */
  lemma TwoLevelsCoverServer(p: Prefix, ip: nat, m: nat, n: nat)
    requires ip < SPACE && Aligned(p) && 1 <= m < n <= 32
    requires Covers(p, Sibling(ip, m).addr) && Covers(p, Sibling(ip, n).addr)
    ensures Covers(p, ip)
  {
    hide Sibling;
    var v, w, j := Sibling(ip, m).addr, Sibling(ip, n).addr, 32 - p.len;
    SiblingShape(ip, m);
    SiblingShape(ip, n);
    CoversBlock(p, v);
    CoversBlock(p, w);
    CoversBlock(p, ip);
    ShrCompose(w, ip, 33 - n, 32 - m);
    if j <= 32 - m {
      ShrCompose(v, w, j, 32 - m);
    } else {
      ShrCompose(w, ip, 33 - n, j);
    }
  }

  /** The first n levels need n different prefixes. */
  lemma {:induction false} Representatives(ip: nat, ps: set<Prefix>, n: nat) returns (qs: set<Prefix>)
    requires ip < SPACE && CoversAllBut(ps, ip) && n <= 32
    ensures qs <= ps && |qs| == n
    ensures forall q :: q in qs ==> exists m :: 1 <= m <= n && Covers(q, Sibling(ip, m).addr)
  {
    hide Sibling;
    if n == 0 {
      qs := {};
    } else {
      qs := Representatives(ip, ps, n - 1);
      var a := Sibling(ip, n).addr;
      SiblingShape(ip, n);
      assert Reached(ps, a) && !Reached(ps, ip);
      var p :| p in ps && Covers(p, a);
      if p in qs {
        var m :| 1 <= m <= n - 1 && Covers(p, Sibling(ip, m).addr);
        TwoLevelsCoverServer(p, ip, m, n);
        assert false;
      }
      qs := qs + {p};
    }
  }

  /** No table of aligned prefixes that covers exactly the addresses other than the server's has fewer
      entries than the 32 that `route` issues. */
  lemma Minimal(ip: nat, ps: set<Prefix>)
    requires ip < SPACE && CoversAllBut(ps, ip)
    ensures |ps| >= |Table(ip)|
  {
    var qs := Representatives(ip, ps, 32);
    assert ps == qs + (ps - qs);
    BitCharacterisation(ip);
  }
}
