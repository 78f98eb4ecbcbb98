/** One endpoint of the session on values: the state in `ctx` and what each atomic stretch of the
    coroutines does to it. The imperative code is in Vpn.dfy. */
module Session {
  import opened Base
  import opened Codec
  import opened Totp
  import opened Selection

  const POOL := 40
  const TTL := 5           // heartbeat passes a path stays alive
  const LIFETIME := 5000   // milliseconds a client worker lives

  datatype Addr = Addr(host: nat, port: int)

  datatype Mode = Client | Server

  /** A configured path: the server's address and its ports portStart .. portStart + portRange. */
  datatype PathConf = PathConf(host: nat, portStart: int, portRange: nat)

  /** A member of `ctx.paths`. A socket is named by its local address; `pool` is `valid_tokens`. */
  datatype Path = Path(alive: nat, token: int, sock: Option<Addr>, remote: Addr, pool: seq<int>)

  datatype Ctx = Ctx(mode: Mode, mtu: int, paths: seq<Path>, cursor: nat)

  predicate ValidCtx(ctx: Ctx, conf: seq<PathConf>) {
    && |ctx.paths| == |conf|
    && (ctx.cursor < |conf| || ctx.cursor == 0)
    && forall p :: 0 <= p < |conf| ==> |ctx.paths[p].pool| == POOL
  }

  /** The state that `vpn_init` leaves. */
  function Initial(mode: Mode, mtu: int, conf: seq<PathConf>): (ctx: Ctx)
    ensures ValidCtx(ctx, conf)
  {
    Ctx(mode, mtu, seq(|conf|, p => Path(0, 0, None, Addr(0, 0), seq(POOL, i => 0))), 0)
  }

  /** The address on which the server expects datagrams of a path under a token. */
  function Endpoint(conf: seq<PathConf>, p: nat, token: int): Addr
    requires p < |conf|
  {
    Addr(conf[p].host, conf[p].portStart + token)
  }

  /** A datagram by what it was made from; its bytes follow. */
  datatype Sent = Sent(src: Addr, dst: Addr, token: int, mtu: int, payload: seq<byte>, salt: Salt)

  predicate ValidSent(s: Sent) {
    ValidSalt(s.salt) && |s.payload| <= s.mtu <= CAPACITY
  }

  function Bytes(lib: Library, s: Sent): seq<byte>
    requires ValidSalt(s.salt) && Fits(lib, s.mtu, s.payload, 0, s.salt)
  {
    Wire(lib, s.token, s.mtu, s.payload, 0, s.salt)
  }

  // ---------------------------------------------------------------- udp_worker

  /** A new client worker sets its path's triple; without a socket the last assignment is missing. */
  function StartClient(ctx: Ctx, conf: seq<PathConf>, p: nat, token: int, local: Addr, bound: bool): (r: Ctx)
    requires ValidCtx(ctx, conf) && p < |conf|
    ensures ValidCtx(r, conf)
  {
    var aimed := ctx.paths[p].(remote := Endpoint(conf, p, token), token := token);
    ctx.(paths := ctx.paths[p := if bound then aimed.(sock := Some(local)) else aimed])
  }

  /** A new server worker resets its path. */
  function StartServer(ctx: Ctx, conf: seq<PathConf>, p: nat, token: int, bound: bool): (r: Ctx)
    requires ValidCtx(ctx, conf) && p < |conf|
    ensures ValidCtx(r, conf)
  {
    var reset := ctx.paths[p].(alive := 0);
    ctx.(paths := ctx.paths[p := if bound then reset.(sock := Some(Endpoint(conf, p, token))) else reset])
  }

  /** Only the server looks at the token window. */
  predicate Admits(ctx: Ctx, p: nat, token: int)
    requires p < |ctx.paths|
  {
    ctx.mode == Client || token in ctx.paths[p].pool
  }

  datatype Outcome =
    | OutOfWindow               // the worker's token is not in the pool
    | TooShort                  // no complete header
    | Judged(verdict: Verdict)

  /** The path after a datagram on which `decapsulate` did not fail. */
  function Accepted(mode: Mode, path: Path, token: int, sock: Addr, src: Addr): Path {
    if mode == Server then path.(alive := TTL, sock := Some(sock), remote := src, token := token)
    else path.(alive := TTL)
  }

  /** A worker of path p under `token`, on socket `sock`, receives n bytes from `src`. */
  function Arrive(lib: Library, ctx: Ctx, p: nat, token: int, sock: Addr, src: Addr, buf: seq<byte>, n: nat): (Ctx, Outcome)
    requires p < |ctx.paths| && |buf| == BUFFER && n <= BUFFER
  {
    if !Admits(ctx, p, token) then (ctx, OutOfWindow)
    else if n < HEADER then (ctx, TooShort)
    else
      var v := Decap(lib, token, buf, n);
      if v.Rejected? || v.Aborted? then (ctx, Judged(v))
      else (ctx.(paths := ctx.paths[p := Accepted(ctx.mode, ctx.paths[p], token, sock, src)]), Judged(v))
  }

  // ---------------------------------------------------------------- heartbeat

  const READINGS := 39  // one of the wall clock for each token of a path

  /** Which reading of the clock a slot of the pool is computed from: first those of the even slots, then those
      of the odd ones. */
  function Reading(slot: nat): (r: nat)
    requires slot < POOL && slot != 1
    ensures r < READINGS
  {
    if slot % 2 == 0 then slot / 2 else POOL / 2 - 1 + slot / 2
  }

  /** The step that a slot is for, counted from that of its reading: k in slot 2k, -k in slot 2k + 1. */
  function Offset(slot: nat): (k: int)
    requires slot < POOL && slot != 1
    ensures -19 <= k <= 19
  {
    if slot % 2 == 0 then slot / 2 else -(slot / 2)
  }

  /** The pool of a path after a pass. Slot 1 would repeat offset 0 and is never written. */
  function Refill(lib: Library, range: nat, clock: seq<nat>, pool: seq<int>): (r: seq<int>)
    requires |clock| == READINGS && |pool| == POOL
    ensures |r| == POOL
  {
    seq(POOL, i requires 0 <= i < POOL =>
      if i == 1 then pool[1] else Token(lib, range, clock[Reading(i)], Offset(i)))
  }

  /** Slot by slot. */
  lemma RefillSlots(lib: Library, range: nat, clock: seq<nat>, pool: seq<int>)
    requires |clock| == READINGS && |pool| == POOL
    ensures var r := Refill(lib, range, clock, pool);
            && |r| == 40 && r[1] == pool[1]
            && (forall k :: 0 <= k < 20 ==> r[2 * k] == Token(lib, range, clock[k], k))
            && (forall k :: 1 <= k < 20 ==> r[2 * k + 1] == Token(lib, range, clock[19 + k], -k))
  {
    hide Token;
  }

  function Aging(path: Path, pool: seq<int>): Path {
    path.(pool := pool, alive := if path.alive > 0 then path.alive - 1 else 0)
  }

  /** The readings of the wall clock in a pass over n paths. */
  predicate ValidClocks(clocks: seq<seq<nat>>, n: nat) {
    |clocks| == n && forall p :: 0 <= p < n ==> |clocks[p]| == READINGS
  }

  /** One pass of the heartbeat loop over all paths. */
  function Pass(lib: Library, ctx: Ctx, conf: seq<PathConf>, clocks: seq<seq<nat>>): (r: Ctx)
    requires ValidCtx(ctx, conf) && ValidClocks(clocks, |conf|)
    ensures ValidCtx(r, conf)
  {
    ctx.(paths := seq(|conf|, p requires 0 <= p < |conf| =>
      Aging(ctx.paths[p], Refill(lib, conf[p].portRange, clocks[p], ctx.paths[p].pool))))
  }

  /** Whether a pass sends a heartbeat on a path. */
  predicate Beats(mode: Mode, path: Path) {
    (mode == Client || path.alive > 0) && path.sock.Some?
  }

  /** A datagram leaves through the path's triple. */
  function Through(mtu: int, path: Path, payload: seq<byte>, salt: Salt): Sent
    requires path.sock.Some?
  {
    Sent(path.sock.value, path.remote, path.token, mtu, payload, salt)
  }

  // ---------------------------------------------------------------- udp_sender

  function AliveFlags(ctx: Ctx): (flags: seq<bool>)
    ensures |flags| == |ctx.paths|
  {
    seq(|ctx.paths|, p requires 0 <= p < |ctx.paths| => ctx.paths[p].alive > 0)
  }

  datatype Sending =
    | AssertFails          // no socket on the selected path
    | Unsent               // the selected path is not alive
    | Out(sent: Sent)

  function Choose(ctx: Ctx, conf: seq<PathConf>): (r: Ctx)
    requires ValidCtx(ctx, conf)
    ensures ValidCtx(r, conf)
  {
    if |conf| == 0 then ctx else ctx.(cursor := Pick(AliveFlags(ctx), ctx.cursor))
  }

  /** What becomes of a packet once its path is selected. */
  function Emit(ctx: Ctx, payload: seq<byte>, salt: Salt): Sending {
    if ctx.cursor >= |ctx.paths| || ctx.paths[ctx.cursor].sock.None? then AssertFails
    else if ctx.paths[ctx.cursor].alive == 0 then Unsent
    else Out(Through(ctx.mtu, ctx.paths[ctx.cursor], payload, salt))
  }

  // ---------------------------------------------------------------- properties of one endpoint

  /** The socket, the remote address and the token of a client path belong together. */
  predicate Coherent(conf: seq<PathConf>, p: nat, path: Path, sockToken: int)
    requires p < |conf|
  {
    path.token == sockToken && path.remote == Endpoint(conf, p, sockToken)
  }

  /** A hop whose bind fails keeps the old socket under the new token: the triple stays coherent exactly
      when the two tokens are the same. */
  lemma FailedBind(ctx: Ctx, conf: seq<PathConf>, p: nat, token: int, local: Addr, sockToken: int)
    requires ValidCtx(ctx, conf) && p < |conf|
    ensures Coherent(conf, p, StartClient(ctx, conf, p, token, local, false).paths[p], sockToken) <==> token == sockToken
    ensures Coherent(conf, p, StartClient(ctx, conf, p, token, local, true).paths[p], token)
  {
  }

  /** `udp_sender` on an endpoint with paths: its assertion fails exactly when no path is alive and the path
      used last has no socket, provided alive paths have one. */
  lemma SenderAssertion(ctx: Ctx, conf: seq<PathConf>, payload: seq<byte>, salt: Salt)
    requires ValidCtx(ctx, conf) && |conf| > 0
    requires forall p :: 0 <= p < |conf| && ctx.paths[p].alive > 0 ==> ctx.paths[p].sock.Some?
    ensures var someAlive := exists p :: 0 <= p < |conf| && ctx.paths[p].alive > 0;
            && (Emit(Choose(ctx, conf), payload, salt).AssertFails? <==>
                  !someAlive && ctx.paths[ctx.cursor].sock.None?)
            && (Emit(Choose(ctx, conf), payload, salt).Out? <==> someAlive)
            && (!someAlive ==> Choose(ctx, conf) == ctx)
  {
    hide Pick;
    var flags := AliveFlags(ctx);
    PickNearest(flags, ctx.cursor);
    assert true in flags <==> exists p :: 0 <= p < |conf| && flags[p];
    assert forall p :: 0 <= p < |conf| ==> flags[p] == (ctx.paths[p].alive > 0);
  }

  /** The first turn of `client_hop` when some binds fail: before anything is heard, the assertion fails exactly
      when the first path got no socket. */
  lemma FirstPacket(ctx: Ctx, mtu: int, conf: seq<PathConf>, tokens: seq<int>, locals: seq<Addr>, bound: seq<bool>,
                    payload: seq<byte>, salt: Salt)
    requires |conf| == |tokens| == |locals| == |bound| > 0
    requires ValidCtx(ctx, conf) && ctx.cursor == 0
    requires forall p :: 0 <= p < |conf| ==>
               ctx.paths[p] == StartClient(Initial(Client, mtu, conf), conf, p, tokens[p], locals[p], bound[p]).paths[p]
    ensures Emit(Choose(ctx, conf), payload, salt).AssertFails? <==> !bound[0]
  {
    hide Emit, Choose;
    SenderAssertion(ctx, conf, payload, salt);
  }

  /** The workers of the first ports of a server path start one after another, each with a bind of its own. */
  function ListenAll(ctx: Ctx, conf: seq<PathConf>, p: nat, bound: seq<bool>): (r: Ctx)
    requires ValidCtx(ctx, conf) && p < |conf|
    ensures ValidCtx(r, conf)
    decreases |bound|
  {
    if bound == [] then ctx
    else
      var last := |bound| - 1;
      StartServer(ListenAll(ctx, conf, p, bound[..last]), conf, p, last, bound[last])
  }

  /** A server whose first paths have started their workers; `bounds` says which binds succeeded. */
  function ServerStarted(mtu: int, conf: seq<PathConf>, bounds: seq<seq<bool>>): (r: Ctx)
    requires |bounds| <= |conf|
    ensures ValidCtx(r, conf)
    decreases |bounds|
  {
    if bounds == [] then Initial(Server, mtu, conf)
    else
      var last := |bounds| - 1;
      ListenAll(ServerStarted(mtu, conf, bounds[..last]), conf, last, bounds[last])
  }

  lemma {:induction false} ListenAllSockets(ctx: Ctx, conf: seq<PathConf>, p: nat, bound: seq<bool>)
    requires ValidCtx(ctx, conf) && p < |conf| && ctx.paths[p].alive == 0
    ensures var r := ListenAll(ctx, conf, p, bound);
            && r.cursor == ctx.cursor && r.paths[p].alive == 0
            && (forall q :: 0 <= q < |conf| && q != p ==> r.paths[q] == ctx.paths[q])
            && (r.paths[p].sock.Some? <==> ctx.paths[p].sock.Some? || true in bound)
    decreases |bound|
  {
    if bound != [] {
      var last := |bound| - 1;
      ListenAllSockets(ctx, conf, p, bound[..last]);
      assert bound == bound[..last] + [bound[last]];
    }
  }

  lemma {:induction false} ServerSockets(mtu: int, conf: seq<PathConf>, bounds: seq<seq<bool>>)
    requires |bounds| <= |conf|
    ensures var r := ServerStarted(mtu, conf, bounds);
            && r.cursor == 0 && forall q :: 0 <= q < |conf| ==>
                 r.paths[q].alive == 0 && (r.paths[q].sock.Some? <==> q < |bounds| && true in bounds[q])
    decreases |bounds|
  {
    hide ListenAll;
    if bounds != [] {
      var last := |bounds| - 1;
      ServerSockets(mtu, conf, bounds[..last]);
      ListenAllSockets(ServerStarted(mtu, conf, bounds[..last]), conf, last, bounds[last]);
    }
  }

  /** The same for a server: before anything is heard, the assertion fails exactly when no port of the first path
      could be bound. */
  lemma FirstServerPacket(mtu: int, conf: seq<PathConf>, bounds: seq<seq<bool>>, payload: seq<byte>, salt: Salt)
    requires |bounds| == |conf| > 0
    ensures Emit(Choose(ServerStarted(mtu, conf, bounds), conf), payload, salt).AssertFails? <==> true !in bounds[0]
  {
    hide Emit, Choose, ServerStarted;
    ServerSockets(mtu, conf, bounds);
    SenderAssertion(ServerStarted(mtu, conf, bounds), conf, payload, salt);
  }
}
