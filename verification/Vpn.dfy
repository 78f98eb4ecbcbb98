/** The coroutines of one endpoint, working in place on the shared `ctx`. */
module VpnContext {
  import opened Base
  import opened Codec
  import opened Format
  import opened PacketBuffer
  import opened Totp
  import opened Selection
  import opened Session

  /** What is handed to `udpsend`. */
  datatype Datagram = Datagram(src: Addr, dst: Addr, bytes: seq<byte>)

  function Packet(lib: Library, s: Sent): Datagram
    requires ValidSalt(s.salt) && Fits(lib, s.mtu, s.payload, 0, s.salt)
  {
    Datagram(s.src, s.dst, Bytes(lib, s))
  }

  class Vpn {
    const mode: Mode
    const mtu: nat
    const conf: seq<PathConf>
    const paths: array<Path>
    var cursor: nat

    ghost predicate Valid()
      reads this, paths
    {
      && paths.Length == |conf|
      && ValidCtx(View(), conf)
    }

    /** The token of every path can be computed within a C int. */
    ghost predicate PortsFit() {
      forall p :: 0 <= p < |conf| ==> conf[p].portRange <= 0x7F_FFFF
    }

    ghost function View(): Ctx
      reads this, paths
    {
      Ctx(mode, mtu, paths[..], cursor)
    }

    /** The part of `vpn_init` that sets up `ctx`. */
    constructor (m: Mode, u: nat, c: seq<PathConf>)
      ensures Valid() && fresh(paths)
      ensures mode == m && mtu == u && conf == c && View() == Initial(m, u, c)
      ensures cursor == 0 && paths.Length == |c|
      ensures forall p :: 0 <= p < |c| ==>
                paths[p].alive == 0 && paths[p].sock == None && paths[p].token == 0 && paths[p].pool == seq(40, i => 0)
    {
      mode, mtu, conf, cursor := m, u, c, 0;
      paths := new Path[|c|](p => Path(0, 0, None, Addr(0, 0), seq(POOL, i => 0)));
      new;
      assert paths[..] == Initial(m, u, c).paths;
    }

    /** The start of `udp_worker`, up to its first blocking call. */
    method StartWorker(p: nat, token: int, local: Addr, bound: bool)
      requires Valid() && p < |conf|
      modifies paths
      ensures Valid()
      ensures View() == if mode == Client then StartClient(old(View()), conf, p, token, local, bound)
                        else StartServer(old(View()), conf, p, token, bound)
      ensures cursor == old(cursor) && forall q :: 0 <= q < |conf| && q != p ==> paths[q] == old(paths[q])
      ensures mode == Client ==>
                paths[p] == Path(old(paths[p].alive), token, if bound then Some(local) else old(paths[p].sock),
                                 Addr(conf[p].host, conf[p].portStart + token), old(paths[p].pool))
      ensures mode == Server ==>
                paths[p] == Path(0, old(paths[p].token),
                                 if bound then Some(Addr(conf[p].host, conf[p].portStart + token)) else old(paths[p].sock),
                                 old(paths[p].remote), old(paths[p].pool))
    {
      var port := conf[p].portStart + token;
      var s := local;
      if mode == Client {
        paths[p] := paths[p].(remote := Addr(conf[p].host, port));
        paths[p] := paths[p].(token := token);
      } else {
        s := Addr(conf[p].host, port);
        paths[p] := paths[p].(alive := 0);
      }
      if !bound {
        return;
      }
      paths[p] := paths[p].(sock := Some(s));
    }

    /** One turn of `client_hop`: a worker for the present token on every path; `clock` is the wall clock at
        each. */
    method Hop(lib: Library, clock: seq<nat>, locals: seq<Addr>, bound: seq<bool>)
      requires Valid() && PortsFit() && mode == Client && |clock| == |locals| == |bound| == |conf|
      modifies paths
      ensures Valid() && cursor == old(cursor)
      ensures forall p :: 0 <= p < |conf| ==>
                var token := Token(lib, conf[p].portRange, clock[p], 0);
                paths[p] == StartClient(old(View()), conf, p, token, locals[p], bound[p]).paths[p]
      ensures forall p :: 0 <= p < |conf| ==>
                var token := Token(lib, conf[p].portRange, clock[p], 0);
                paths[p] == Path(old(paths[p].alive), token, if bound[p] then Some(locals[p]) else old(paths[p].sock),
                                 Addr(conf[p].host, conf[p].portStart + token), old(paths[p].pool))
    {
      hide Token, ValidCtx;
      for i := 0 to |conf|
        invariant Valid() && cursor == old(cursor)
        invariant forall p :: i <= p < |conf| ==> paths[p] == old(paths[p])
        invariant forall p :: 0 <= p < i ==>
                    var token := Token(lib, conf[p].portRange, clock[p], 0);
                    paths[p] == StartClient(old(View()), conf, p, token, locals[p], bound[p]).paths[p]
      {
        ghost var before := View();
        var token := ComputeToken(lib, conf[i].portRange, clock[i], 0);
        StartWorker(i, token, locals[i], bound[i]);
        assert paths[..] == View().paths;
      }
    }

    /** The search of a token in the pool; POOL when it is not there. */
    method FindToken(p: nat, token: int) returns (i: nat)
      requires Valid() && p < |conf|
      ensures i < POOL <==> token in paths[p].pool
      ensures i < POOL ==> paths[p].pool[i] == token
    {
      i := 0;
      while i < POOL
        invariant 0 <= i <= POOL && token !in paths[p].pool[..i]
      {
        if token == paths[p].pool[i] {
          break;
        }
        i := i + 1;
      }
    }

    /** The updates for a datagram that was not rejected. */
    method Renew(p: nat, token: int, sock: Addr, src: Addr)
      requires Valid() && p < |conf|
      modifies paths
      ensures Valid()
      ensures View() == old(View()).(paths := old(View()).paths[p := Accepted(mode, old(paths[p]), token, sock, src)])
      ensures cursor == old(cursor) && forall q :: 0 <= q < |conf| && q != p ==> paths[q] == old(paths[q])
      ensures var was := old(paths[p]);
              paths[p] == if mode == Server then Path(5, token, Some(sock), src, was.pool)
                          else Path(5, was.token, was.sock, was.remote, was.pool)
    {
      if mode == Server {
        paths[p] := paths[p].(sock := Some(sock));
        paths[p] := paths[p].(remote := src);
        paths[p] := paths[p].(token := token);
      }
      paths[p] := paths[p].(alive := 5);
    }

    /** One turn of the receiving loop of `udp_worker`, after `udprecv` has returned n bytes from `src`. */
    method Receive(lib: Library, p: nat, token: int, sock: Addr, src: Addr, pbuf: Pbuf, n: nat) returns (out: Outcome)
      requires Valid() && p < |conf| && pbuf.Valid() && n <= BUFFER && Lawful(lib)
      modifies paths, pbuf.mem
      ensures Valid()
      ensures (View(), out) == Arrive(lib, old(View()), p, token, sock, src, old(pbuf.mem[..]), n)
      ensures out.Judged? && out.verdict.Data? ==> pbuf.Len() <= CAPACITY && pbuf.Body() == out.verdict.payload
      ensures out == OutOfWindow <==> mode == Server && token !in old(paths[p].pool)
      ensures out == TooShort <==> (mode == Client || token in old(paths[p].pool)) && n < 20
      ensures out.Judged? ==> out.verdict == Decap(lib, token, old(pbuf.mem[..]), n)
      ensures cursor == old(cursor) && forall q :: 0 <= q < |conf| && q != p ==> paths[q] == old(paths[q])
      ensures var was := old(paths[p]);
              if !out.Judged? || out.verdict.Rejected? || out.verdict.Aborted? then paths[p] == was
              else if mode == Server then paths[p] == Path(5, token, Some(sock), src, was.pool)
              else paths[p] == Path(5, was.token, was.sock, was.remote, was.pool)
    {
      hide Decap, Accepted;
      if mode == Server {
        var i := FindToken(p, token);
        if i >= POOL {
          return OutOfWindow;
        }
      }
      if n < HEADER {
        return TooShort;
      }
      ghost var verdict := Decap(lib, token, pbuf.mem[..], n);
      var r, aborted := pbuf.Decapsulate(lib, token, n);
      if aborted {
        return Judged(Aborted);
      }
      if r < 0 {
        return Judged(Rejected);
      }
      Renew(p, token, sock, src);
      if r == 0 {
        return Judged(Verdict.Heartbeat);
      }
      out := Judged(Data(pbuf.mem[HEADER..HEADER + pbuf.Len()]));
    }

    /** The two loops of `heartbeat` that move the token window of a path; `clock` is what the wall clock says
        each time. */
    method FillPool(lib: Library, p: nat, clock: seq<nat>)
      requires Valid() && p < |conf| && conf[p].portRange <= 0x7F_FFFF && |clock| == READINGS
      modifies paths
      ensures Valid()
      ensures paths[p] == old(paths[p]).(pool := Refill(lib, conf[p].portRange, clock, old(paths[p]).pool))
      ensures forall q :: 0 <= q < |conf| && q != p ==> paths[q] == old(paths[q])
      ensures |paths[p].pool| == 40 && paths[p].pool[1] == old(paths[p].pool[1])
      ensures forall k :: 0 <= k < 20 ==> paths[p].pool[2 * k] == Token(lib, conf[p].portRange, clock[k], k)
      ensures forall k :: 1 <= k < 20 ==> paths[p].pool[2 * k + 1] == Token(lib, conf[p].portRange, clock[19 + k], -k)
    {
      hide Token;
      var range := conf[p].portRange;
      ghost var was, done := paths[p], Refill(lib, range, clock, paths[p].pool);
      var i := 0;
      while i * 2 < POOL
        invariant 0 <= i <= POOL / 2 && Valid()
        invariant forall q :: 0 <= q < |conf| && q != p ==> paths[q] == old(paths[q])
        invariant paths[p] == was.(pool := paths[p].pool)
        invariant forall s :: 0 <= s < POOL ==> paths[p].pool[s] == if s % 2 == 0 && s < 2 * i then done[s] else was.pool[s]
      {
        var token := ComputeToken(lib, range, clock[i], i);
        paths[p] := paths[p].(pool := paths[p].pool[i * 2 := token]);
        i := i + 1;
      }
      i := 1;
      while i * 2 + 1 < POOL
        invariant 1 <= i <= POOL / 2 && Valid()
        invariant forall q :: 0 <= q < |conf| && q != p ==> paths[q] == old(paths[q])
        invariant paths[p] == was.(pool := paths[p].pool)
        invariant forall s :: 0 <= s < POOL ==>
                    paths[p].pool[s] == if s % 2 == 0 || 1 < s < 2 * i + 1 then done[s] else was.pool[s]
      {
        var token := ComputeToken(lib, range, clock[POOL / 2 - 1 + i], -i);
        paths[p] := paths[p].(pool := paths[p].pool[i * 2 + 1 := token]);
        i := i + 1;
      }
      assert paths[p].pool == done;
      RefillSlots(lib, range, clock, was.pool);
    }

    /** The heartbeat that a pass sends on a path, if any. */
    function HeartbeatOn(lib: Library, path: Path, salt: Salt): Option<Datagram>
      requires ValidSalt(salt)
    {
      SmallFits(lib, mtu, [], 0, salt);
      if Beats(mode, path) then Some(Packet(lib, Through(mtu, path, [], salt))) else None
    }

    lemma HeartbeatIgnoresPool(lib: Library, path: Path, pool: seq<int>, salt: Salt)
      requires ValidSalt(salt)
      ensures HeartbeatOn(lib, path.(pool := pool), salt) == HeartbeatOn(lib, path, salt)
    {
      hide Bytes;
    }

    /** One pass of `heartbeat`. `used` is the randomness together with the bytes that the ack field of the
        buffer happens to hold when each heartbeat is made. */
    method Heartbeat(lib: Library, clocks: seq<seq<nat>>, pbuf: Pbuf, salts: seq<Salt>)
      returns (sent: seq<Option<Datagram>>, ghost used: seq<Salt>)
      requires Valid() && PortsFit() && pbuf.Valid()
      requires |salts| == |conf| && forall p :: 0 <= p < |conf| ==> ValidSalt(salts[p])
      requires ValidClocks(clocks, |conf|)
      modifies paths, pbuf, pbuf.mem
      ensures Valid() && View() == Pass(lib, old(View()), conf, clocks)
      ensures |sent| == |used| == |conf|
      ensures forall p :: 0 <= p < |conf| ==> ValidSalt(used[p]) && used[p] == salts[p].(ack := used[p].ack)
      ensures forall p :: 0 <= p < |conf| ==>
                sent[p] == HeartbeatOn(lib, old(View()).paths[p], used[p])
      ensures forall p :: 0 <= p < |conf| ==>
                var was := old(View()).paths[p];
                && paths[p].alive == (if was.alive > 0 then was.alive - 1 else 0)
                && paths[p].token == was.token && paths[p].sock == was.sock && paths[p].remote == was.remote
    {
      hide Refill, HeartbeatOn;
      sent, used := [], [];
      ghost var start := View();
      for path := 0 to |conf|
        invariant Valid() && cursor == start.cursor && |sent| == |used| == path
        invariant forall p :: path <= p < |conf| ==> paths[p] == start.paths[p]
        invariant forall p :: 0 <= p < path ==>
                    paths[p] == Aging(start.paths[p], Refill(lib, conf[p].portRange, clocks[p], start.paths[p].pool))
        invariant forall p :: 0 <= p < path ==> ValidSalt(used[p]) && used[p] == salts[p].(ack := used[p].ack)
        invariant forall p :: 0 <= p < path ==>
                    sent[p] == HeartbeatOn(lib, start.paths[p], used[p])
      {
        FillPool(lib, path, clocks[path]);
        var out, salt := Beat(lib, path, pbuf, salts[path]);
        HeartbeatIgnoresPool(lib, start.paths[path], paths[path].pool, salt);
        sent, used := sent + [out], used + [salt];
        if paths[path].alive > 0 {
          paths[path] := paths[path].(alive := paths[path].alive - 1);
        }
      }
    }

    /** The heartbeat of one path. */
    method Beat(lib: Library, p: nat, pbuf: Pbuf, salt: Salt) returns (out: Option<Datagram>, ghost used: Salt)
      requires Valid() && p < |conf| && pbuf.Valid() && ValidSalt(salt)
      modifies pbuf, pbuf.mem
      ensures ValidSalt(used) && used == salt.(ack := used.ack)
      ensures out == HeartbeatOn(lib, paths[p], used)
      ensures out.Some? <==> (mode == Client || paths[p].alive > 0) && paths[p].sock.Some?
      ensures out.Some? ==>
                && Some(out.value.src) == paths[p].sock && out.value.dst == paths[p].remote
                && IsDatagram(lib, paths[p].token, mtu, [], 0, used, out.value.bytes)
    {
      hide Wire;
      out, used := None, salt;
      if mode == Client || paths[p].alive > 0 {
        if paths[p].sock.Some? {
          pbuf.SetLen(0);
          pbuf.SetFlag(0);
          var filled := salt.(ack := pbuf.mem[12..16]);
          used := filled;
          assert pbuf.Body() == [];
          var n := pbuf.Encapsulate(lib, paths[p].token, mtu, filled);
          out := Some(Datagram(paths[p].sock.value, paths[p].remote, pbuf.mem[..n]));
        }
      }
    }

    /** `udp_sender` on a packet read from the tun device; `failed` says that its assertion fails. */
    method Send(lib: Library, pbuf: Pbuf, salt: Salt) returns (out: Option<Datagram>, failed: bool)
      requires Valid() && pbuf.Valid() && ValidSalt(salt) && pbuf.mem[12..16] == salt.ack
      requires pbuf.Len() <= CAPACITY && pbuf.Flag() == 0 && Fits(lib, mtu, pbuf.Body(), 0, salt)
      modifies this`cursor, pbuf, pbuf.mem
      ensures Valid() && View() == Choose(old(View()), conf)
      ensures match Emit(View(), old(pbuf.Body()), salt)
              case AssertFails => failed
              case Unsent => !failed && out == None
              case Out(s) =>
                !failed && s.mtu == mtu && s.payload == old(pbuf.Body()) && s.salt == salt && out == Some(Packet(lib, s))
      ensures paths.Length > 0 ==>
                && cursor < paths.Length && (paths[cursor].alive > 0 || cursor == old(cursor))
                && forall x :: 0 <= x < paths.Length && paths[x].alive > 0 ==>
                     (if cursor > old(cursor) then cursor - old(cursor) else cursor + paths.Length - old(cursor)) <=
                     (if x > old(cursor) then x - old(cursor) else x + paths.Length - old(cursor))
      ensures failed <==> paths.Length == 0 || paths[cursor].sock.None?
      ensures out.Some? <==> !failed && paths[cursor].alive > 0
      ensures out.Some? ==>
                && Some(out.value.src) == paths[cursor].sock && out.value.dst == paths[cursor].remote
                && IsDatagram(lib, paths[cursor].token, mtu, old(pbuf.Body()), 0, salt, out.value.bytes)
    {
      hide Wire, Pick, IsDatagram;
      out, failed := None, false;
      if |conf| > 0 {
        var alive := seq(paths.Length, p requires 0 <= p < paths.Length reads paths => paths[p].alive > 0);
        assert alive == AliveFlags(View());
        ghost var steps;
        cursor, steps := Select(alive, cursor);
        assert forall x :: 0 <= x < paths.Length ==> alive[x] == (paths[x].alive > 0);
      }
      if paths.Length == 0 || paths[cursor].sock.None? {
        return None, true;
      }
      if paths[cursor].alive <= 0 {
        return;
      }
      var path := paths[cursor];
      var n := pbuf.Encapsulate(lib, path.token, mtu, salt);
      out := Some(Datagram(path.sock.value, path.remote, pbuf.mem[..n]));
    }
  }
}
