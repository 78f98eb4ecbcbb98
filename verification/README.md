# Verification of muon

muon is a small VPN: a client hops every half second to a new UDP port that both ends derive from the time, a
server listens on all ports of a path and accepts a sliding window of such tokens, and packets travel compressed
or padded, and encrypted, over several paths. There is no handshake. This project models the code and proves
properties of it with Dafny 4.11. `dafny verify dfyconfig.toml` checks all of it.

| file | content |
|---|---|
| `Routes.dfy`, `RouteTable.dfy` | the routing table of `src/utils.c`: the two loops at their C widths; exact cover, bit form and minimality |
| `Codec.dfy`, `Pbuf.dfy` | the datagram on values and the in-place code on one buffer; the round trip |
| `Format.dfy` | the datagram byte by byte: what goes out, what is refused |
| `Totp.dfy` | the token of a 500 ms step |
| `Selection.dfy` | round-robin path selection and its fairness |
| `Session.dfy`, `Vpn.dfy` | one endpoint on values, and the coroutines that work in place on `ctx` |
| `Window.dfy` | the token window: what a pass leaves in the pool, whenever it reads the clock |
| `Protocol.dfy` | client, server and network as a transition system |
| `Safety.dfy`, `Theorems.dfy` | the invariant, and what it means over all runs |
| `Tunnel.dfy` | what the steps of a run read, send, deliver and write, and between which ports |
| `History.dfy`, `StartUp.dfy` | what a step does to a path; the liveness counter; the sender's assertion once all workers run |
| `Timing.dfy`, `TimedTheorems.dfy` | runs whose timers fire on time, and the bounds in milliseconds |
| `Lasting.dfy` | a connection lasts while heartbeats arrive in time |
| `Recovery.dfy`, `SelfStabilisation.dfy` | worlds whose server is in any state; recovery by one heartbeat each way, whatever else happens |
| `Stabilise.dfy`, `Connect.dfy` | the single exchange, and a fresh start that connects by it |
| `Conf.dfy`, `ConfReader.dfy` | the configuration parser and what an accepted file guarantees |
| `ConfText.dfy` | lines, numbers and settings of the file as text |

**How the pieces fit.** The C code that updates a structure in place is a class (`Pbuf`, `Vpn`, `Config`) or a method
with loops, and each method is proved equal to a function on values. The transition system uses the same functions,
so its theorems are about the values the in-place code computes: a datagram of the network has the bytes that
`Pbuf.Encapsulate` leaves in its buffer, and a delivery is judged by the function that `Pbuf.Decapsulate` computes.

**The transition system.** Coroutines switch only at blocking calls, so each stretch of code between two of them is
one step: a client worker starts or ends, a server worker starts, a worker receives, a heartbeat pass is made, a
packet is read from the tun device, time passes, a process is restarted. A pass carries its readings of the wall
clock, one for each token of each path; they are arbitrary, except that in timely runs they are made one after another
from the time of the pass on and within 500 ms. The network keeps every datagram ever sent
and may deliver any of them late, out of order, repeatedly or never; it makes up none. The buffer into which a worker
receives holds arbitrary old bytes. A failing assertion ends the process, which then starts afresh. Binds succeed,
client sockets get new addresses, no two paths share a server address, both ends have the same key and paths. The two
wall clocks differ by any constant.

**Library code.** LZ4, BLAKE2b and ChaCha20 are unknown functions. The one law asked of them is that decompression
undoes compression; that XOR with the same keystream cancels is proved bit by bit. A random number below a bound is
any number below it. The bytes of the unused ack field are whatever the buffer holds.

**Where code and intent differ.**

* Slot 1 of the token pool is never written (`src/vpn.c:419`), so token 0 is always accepted (`PoolContents`,
  `PoolIsWindow`), also when no token of the window is 0 (`ZeroOutsideWindow`).
* Every token of a pass reads the clock anew. Every token computed within 9500 ms of a pass is in its pool, for all
  libraries and port ranges, exactly when all its readings fall into one step (`WindowOfPass`). Otherwise the earliest
  step is missing, and when the step changes after 1 to 19 readings the pool also has a hole there (`Kept`,
  `PoolContents`, `KeptExact`). The token of the step in which the pass ends is missing exactly when the step changes
  after the first reading (`PresentToken`, `PresentTokenMissed`), and then stays out of the pool until the next pass. How
  long a pass takes within its steps does not matter (`SamePass`).
* The server keeps the triple of whatever datagram it accepted last. An old datagram that arrives late turns its path
  back to an old worker of the client, and a hop leaves the ends apart until the next heartbeat arrives: they match
  exactly when the client's active worker is the one heard last (`MatchedIffHeard`, `SelfStabilises`; a run with a hop
  in between is `HopSetsApart`).
* `PAYLOAD_MAX` counts the padding field behind the payload, so the configuration accepts an MTU up to 2052 while the
  payload holds 2048 bytes. Padding stays in bounds for all payloads exactly for MTUs up to 2048 (`PaddingInBounds`);
  the codec lemmas ask, packet by packet, that body and padding stay in the buffer (`Fits`).
* `decapsulate` does not compare the length field with the datagram's length; the round trip therefore holds for any
  bytes behind the datagram, and also when padding was cut off (`Recovered`).
* A client worker whose bind fails leaves the old socket under a new token. The triple stays coherent exactly when the
  two tokens agree (`FailedBind`).
* `assert(sock != NULL)` in `udp_sender` is reached before the path is known to be alive. It fails exactly when no path
  is alive and the path used last has no socket (`SenderNeverFailsAlive`). Binds succeeding, that cannot happen once
  every path has opened a worker, which is so before the tun device is read (`StartedNeverFails`); when binds fail, the
  first packet of a client ends it exactly when the first path got no socket, and that of a server exactly when no port
  of the first path could be bound (`FirstPacket`, `FirstServerPacket`).
* The token loop stays within a C int exactly for port ranges below 2^23 (`HornerFits`); the parser does not limit ports.
* A `port` line before any `server` line writes in front of the array of paths. It happens exactly when an ordered port
  line comes after nothing but accepted lines, none of them a `server` line (`OutOfBoundsFile`); the file `port=1` is
  the shortest (`PortOnly`).

## Model

| member | source | states |
|---|---|---|
| Routes.Route | src/utils.c:180-224 | with 32-bit addresses and 64-bit comparisons written out, the commands issued are the table up to the first failing command, all earlier ones succeeded, and a complete call ends with both cursors at the server's address |
| Routes.BelowWidths | src/utils.c:185-189 | the 64-bit test and the 32-bit addition of the first loop are exact |
| Routes.AboveWidths | src/utils.c:207-211 | the 64-bit difference of the second loop never ends negative and the 32-bit results are exact |
| Routes.BelowRunIsSide | src/utils.c:182-202 | the first loop in unbounded arithmetic issues the siblings below the server, one for each 1 bit, and stops at the server |
| Routes.AboveRunIsSide | src/utils.c:203-224 | the second loop issues the siblings above the server, one for each 0 bit, never drives its 64-bit difference below 0, and stops at the server |
| RouteTable.BitCharacterisation | src/utils.c:180-224 | exactly one prefix of each length 1 to 32 is issued, in the first loop iff the deciding bit of the address is 1, in the second iff it is 0 |
| RouteTable.SiblingBits | src/utils.c:187-211 | the address of the prefix of length m is the server's with bit 32-m flipped, lower bits cleared and upper bits kept |
| RouteTable.TableDisjoint | src/utils.c:180-224 | at every point, also after a failed command, the issued prefixes are aligned, pairwise disjoint and do not contain the server |
| RouteTable.ExactCover | src/utils.c:180-224 | the complete table contains every IPv4 address except the server's |
| RouteTable.Minimal | src/utils.c:180-224 | no set of aligned prefixes with that cover has fewer members than the table, for any server address |
| Codec.XorTwice | src/crypto.c:77-83 | XOR with the same key byte cancels |
| Codec.StreamXorTwice | src/crypto.c:94-99 | sealing and then unsealing any prefix under the same token and nonce gives the prefix back |
| Codec.PaddingRange | src/encapsulate.c:38-66 | the padding lengths that can occur in each tier are exactly 0 to 553, 341, 210, or the smaller of 129 and the free space |
| Codec.PaddingFits | src/encapsulate.c:33-67 | body and padding together fit the MTU in every tier |
| Codec.SmallFits | src/encapsulate.h:43-49 | all payloads up to an MTU of at most 2048 fit the buffer with their padding, and a heartbeat fits it with any MTU |
| Codec.PaddingInBounds | src/encapsulate.h:43-49 | body and padding stay inside the payload array for all lengths and random choices iff the MTU is at most 2048 |
| Codec.WireLength | src/encapsulate.c:86 | a datagram has 20 bytes, the body and its padding, and at most MTU + 20 bytes when the payload is within the MTU |
| Codec.Recovered | src/encapsulate.c:94-131 | under the same token the receiver gets body and flag back from any buffer that starts with the datagram, also when it is cut short inside the padding, for any MTU with which the packet fits the buffer |
| Codec.RoundTrip | tests/test_encapsulate.c:98-135 | decapsulation undoes encapsulation for every payload that fits the buffer with its padding, every token, nonce and padding, compressed or not |
| Format.XorIsBitwise | src/crypto.c:77-83 | every bit of the XOR is the sum of the two bits without carry |
| Format.WireIsDatagram | src/encapsulate.c:71-90 | a datagram byte by byte: nonce, then under the keystream from its start the first 4 bytes of the body's hash, ack, flag and length with the high byte first, body, padding; the body is the compressed one, flagged and without padding, iff that is shorter and not empty, and otherwise the payload with the padding of its tier |
| Format.RejectedIsRefused | src/crypto.c:87-114 | a datagram is rejected iff its decrypted length exceeds 2048 or one of its decrypted bytes 8 to 11 is not that of the hash of the decrypted body |
| Format.VerdictIsTaken | src/encapsulate.c:105-131 | every other datagram is a heartbeat, an abort, or data, by its decrypted length, flag bits and body |
| Format.AlteredChecksum | src/crypto.c:110-114 | a datagram of which one checksum byte was altered is rejected |
| PacketBuffer.Pbuf.constructor | src/encapsulate.h:36-46 | a buffer with the layout of the structure, on a host of either byte order |
| PacketBuffer.Pbuf.SwappedIsNetOrder | src/crypto.c:70-71 | a field stored through htons is in network order on hosts of both byte orders, and ntohs reads it back |
| PacketBuffer.Pbuf.XorFromChecksum | src/crypto.c:78-83 | the cipher changes the bytes from the checksum to the given end and no others, by the keystream of token and nonce |
| PacketBuffer.Pbuf.Compress | src/compress.c:30-44 | body and flag are replaced only when the compressed form is shorter |
| PacketBuffer.Pbuf.Decompress | src/compress.c:47-61 | a flagged body is replaced by its decompressed form; the assertion fails iff there is none |
| PacketBuffer.Pbuf.Obfuscate | src/encapsulate.c:33-67 | for any MTU with which it stays in the array, the padding has the length of its tier, holds the random bytes and leaves header and body alone, and body and padding are within the MTU if the body is |
| PacketBuffer.Pbuf.Checksum | src/crypto.c:52-57 | the checksum field becomes the first 4 bytes of the keyed hash of the body, nothing else changes |
| PacketBuffer.Pbuf.Encrypt | src/crypto.c:60-84 | nonce, checksum, byte order and cipher in place turn body and padding into the sealed datagram |
| PacketBuffer.Pbuf.Encapsulate | src/encapsulate.c:71-90 | whenever nothing is written outside the buffer, the first n bytes of it are a datagram byte by byte as above, n its length |
| PacketBuffer.Pbuf.Decrypt | src/crypto.c:87-114 | it succeeds iff the length is in bounds and the checksum is that of the body; fields and payload are the decrypted ones in host order |
| PacketBuffer.Pbuf.Decapsulate | src/encapsulate.c:94-131 | it returns -1 without aborting iff the datagram is refused by its decrypted length or checksum bytes; otherwise 0, the length, or an abort as length, flag and body say, and it leaves the payload in place |
| Totp.HexTextInvertible | src/totp.c:39-40 | the hexadecimal text of a number can be read back |
| Totp.StepTextsDiffer | src/totp.c:38-42 | different 64-bit steps are hashed from different texts |
| Totp.HexTextAt | src/totp.c:39-40 | character i of the text is the hexadecimal digit of its place, leading zeros included |
| Totp.TokenWrittenOut | src/totp.c:28-49 | the token is the sum of digest byte i times 256^(15 - i), modulo the number of ports, the digest being that of the 16 digits of the 64-bit step |
| Totp.ComputeToken | src/totp.c:28-49 | the loop computes the big-endian digest modulo range + 1, within a C int for ranges below 2^23 |
| Totp.HornerFits | src/totp.c:43-47 | the loop stays within a 32-bit int for every digest iff the range is below 2^23 |
| Totp.TokenInRange | src/totp.c:28-49 | a token names one of the range + 1 ports |
| Totp.TokenShift | src/totp.c:37-38 | offset k at time t is offset 0 at time t + 500 k |
| Selection.Select | src/vpn.c:455-467 | the loop ends within path_count steps at the first alive path after the last, or back at the last |
| Selection.PickNearest | src/vpn.c:458-466 | the selected path is the first alive one in cyclic order after the last; it is alive iff some path is, and otherwise the last path itself |
| Selection.PicksFollowWalk | src/vpn.c:455-467 | consecutive calls select the alive paths met on a walk around the paths, in that order |
| Selection.FairRounds | src/vpn.c:455-467 | with an unchanged alive set A, k times the size of A calls from any start select each path of A exactly k times |
| Selection.FairWindow | src/vpn.c:455-467 | in any window of calls two alive paths are selected equally often up to one |
| Session.Initial | src/vpn.c:63-72 | the cleared context is well formed |
| Session.FailedBind | src/vpn.c:290-307 | after a hop socket, remote and token belong together, unless the bind failed; then iff the tokens agree |
| Window.SamePass | src/totp.c:36-38 | a pass depends on its readings of the clock through their steps alone |
| Window.PoolContents | src/vpn.c:413-424 | wherever the step changes during a pass, a value is in the pool afterwards iff it is the token of a kept step or what slot 1 held |
| Window.WindowAdmits | src/vpn.c:411-424 | a token whose step is kept is in the pool, whatever the pool held before |
| Window.KeptInTime | src/vpn.c:411-424 | the steps within 9500 ms of a pass in one step are kept, and those of the 9000 ms before any pass |
| Window.FilledExact | src/vpn.c:413-424 | whatever the readings, a token is in the pool for all lawful libraries and ranges iff some slot is filled for its step |
| Window.KeptExact | src/vpn.c:413-424 | of the steps around a pass exactly the kept ones are in the pool for all lawful libraries and ranges |
| Window.PresentToken | src/vpn.c:413-424 | the token of the step in which a pass ends is in the pool for all of them iff the step does not change after the first reading |
| Window.PresentTokenMissed | src/vpn.c:413-424 | there are a pass of one millisecond and a lawful library for which it is not |
| Window.WindowOfPass | src/vpn.c:411-424 | every token computed within 9500 ms of the first reading is in the pool, for all lawful libraries and ranges, iff all readings fall into one step |
| Window.WindowIsTight | src/vpn.c:411-424 | for every distance that is not near there are two moments that far apart such that no pass in the step of the one fills a slot for the step of the other |
| Window.WindowExact | src/vpn.c:411-424 | two moments admit each other's tokens, for all libraries, ranges, times and passes in one step, iff they are at most 9500 ms apart on a clock of 500 * 2^64 ms |
| Window.NearInPractice | src/totp.c:36-38 | for distances of 64-bit wall times that means at most 9500 ms |
| Window.ZeroOutsideWindow | src/vpn.c:413-424 | there is a lawful library under which no step has token 0, and yet 0 is in every pool |
| Session.FirstPacket | src/vpn.c:257-307 | after a client's first hop of all paths with some failed binds, the sender's assertion fails iff the first path's bind failed |
| Session.FirstServerPacket | src/vpn.c:157-163 | after a server's start with some failed binds, the sender's assertion fails iff no port of the first path was bound |
| Session.SenderAssertion | src/vpn.c:451-474 | the assertion fails iff no path is alive and the last path has no socket; a packet leaves iff some path is alive |
| VpnContext.Vpn.constructor | src/vpn.c:63-72 | the context starts cleared, field by field, with the configured paths |
| VpnContext.Vpn.StartWorker | src/vpn.c:284-307 | field by field: a new client worker sets token, remote port portStart + token and, if bound, the socket; a server worker resets its path and, if bound, listens on portStart + token; a failed bind leaves the socket |
| VpnContext.Vpn.Hop | src/vpn.c:257-269 | every path gets a worker for the token of the step at which the clock is read for it |
| VpnContext.Vpn.FindToken | src/vpn.c:322-330 | the search ends before POOL iff the token is in the pool, at a slot that holds it |
| VpnContext.Vpn.Receive | src/vpn.c:313-395 | out of window iff a server's token is not in the pool, too short iff below 20 bytes, otherwise judged by decapsulation; an accepted datagram sets the counter to 5 and, at the server, socket, remote and token; nothing else changes, and the payload written is the one in the buffer |
| VpnContext.Vpn.FillPool | src/vpn.c:413-424 | slot 2k gets the token of offset k and slot 2k + 1 that of -k, each from a reading of the clock of its own; slot 1 keeps its value |
| VpnContext.Vpn.Beat | src/vpn.c:425-437 | an empty datagram, byte by byte as above, leaves through the path's socket to its remote under its token iff the client sends it or the path is alive, and there is a socket |
| VpnContext.Vpn.Heartbeat | src/vpn.c:406-442 | one pass, with all its readings of the clock, refills every pool, sends the due heartbeats and takes one off every positive counter |
| VpnContext.Vpn.Send | src/vpn.c:451-481 | the cursor moves to the first alive path after the last; the assertion fails iff the selected path has no socket; the packet leaves byte by byte as above through its triple iff it is alive |
| Safety.StartInv | src/vpn.c:59-72 | the start satisfies the invariant |
| Safety.Agreement | src/vpn.c:284-307 | a datagram that reaches a worker was made by the other end under the worker's token |
| Safety.DeliveryOutcome | src/vpn.c:320-397 | a delivery whose body fits the receiver is dropped only by the server's window and otherwise yields what was sent |
| Safety.HopKeeps | src/vpn.c:284-307 | a hop keeps the invariant |
| Safety.BeatKeeps | src/vpn.c:406-447 | a heartbeat pass of either end keeps it |
| Safety.TunKeeps | src/vpn.c:241-251 | a packet from the tun device keeps it, sent, unsent or fatal |
| Safety.DeliverKeeps | src/vpn.c:311-400 | a delivery of any datagram at any time keeps it |
| Safety.ListenKeeps | src/vpn.c:294-307 | a server worker that starts late and overwrites its path's socket keeps it |
| Theorems.RunInv | src/vpn.c:149-175 | every world of every run satisfies the invariant, so no step of the code is excluded |
| Theorems.TokensAgree | src/vpn.c:284-307 | in every run each datagram that can reach a worker is encapsulated under its token |
| Theorems.NeverRejected | src/vpn.c:320-383 | in every run decapsulation never fails on a body that fits the receiver; the server drops the datagram iff the token is out of its window |
| Theorems.EndToEnd | src/vpn.c:241-251 | in every run what is written to a tun device was read as one whole packet from the peer's |
| Tunnel.DeliveryInFull | src/vpn.c:320-397 | a delivery whose body fits, field by field: nothing outside the window, otherwise the payload is written, the counter set to 5 and, at the server, the triple taken over |
| Tunnel.WrittenByDelivery | src/vpn.c:395 | in every run the tun device is written to by exactly the deliveries in window with a payload, which is what is written |
| Tunnel.ReadByTun | src/vpn.c:241-251 | in every run exactly the packets read from the tun device are recorded as read |
| Tunnel.SentByTun | src/vpn.c:451-481 | in every run a packet read while a path is alive leaves as exactly one datagram, through the triple of the first alive path after the last; otherwise nothing is sent |
| Tunnel.SentByBeat | src/vpn.c:425-435 | in every run a pass sends exactly one empty datagram on each path that may send |
| Tunnel.OthersSendNothing | src/vpn.c:284-397 | no other step sends |
| Tunnel.ReceivedBytes | src/vpn.c:316-321 | a worker gets the datagram's bytes, cut to MTU + 20 and to the buffer |
| Tunnel.PacketCrosses | src/vpn.c:241-481 | in every run a packet read while a path is alive is written by the peer whenever its datagram is delivered in window |
| Tunnel.ClientPorts | src/vpn.c:284-287 | in every run a client datagram under token t of path p goes to port portStart + t of that path |
| Tunnel.ServerPorts | src/vpn.c:293 | in every run the server's worker of token j of a path listens on portStart + j |
| Tunnel.HopInFull | src/vpn.c:257-307 | a hop field by field: token of the present step, 5000 ms to live, port, socket |
| Tunnel.ListenInFull | src/vpn.c:293-307 | a server worker's start field by field |
| Tunnel.CloseInFull | src/vpn.c:342-401 | a worker's end field by field: it alone closes, the path keeps its triple |
| Tunnel.RestartInFull | src/vpn.c:59-72 | a new start field by field: every path dead, without socket, token 0 and 40 slots of 0; the tun device's record, the network and the other end are untouched |
| Theorems.AliveIsHistory | src/vpn.c:386-441 | the counter is 5 less the passes since the last accepted datagram, at least 0, and 0 if there was none |
| Theorems.TripleFromOneDatagram | src/vpn.c:379-386 | on an alive server path socket, remote and token come from the last accepted datagram, and the socket is open |
| Theorems.ClientTriple | src/vpn.c:286-307 | a client path with a socket holds the triple of one of its workers |
| Theorems.SenderNeverFailsAlive | src/vpn.c:469 | in every run the assertion fails iff no path is alive and the path used last has no socket |
| Theorems.FairOverRuns | src/vpn.c:451-481 | in every run, while the alive paths of an end stay the same, its packets use them in turn, each equally often up to one, whatever else happens in between |
| History.PathStep | src/vpn.c:284-441 | a hop, a new server worker, an accepted delivery and a pass change a path, each in the way stated, and no other step does unless it starts the process again |
| History.PassesAge | src/vpn.c:438-441 | between steps that concern a path its counter falls by the heartbeat passes made, not below 0 |
| History.AliveCountsPasses | src/vpn.c:386-441 | the counter after an accepted delivery, in terms of the steps of the run alone |
| StartUp.StartedNeverFails | src/vpn.c:149-166 | once every path of an end has opened a worker before the tun device is read, the sender's assertion holds for every packet, alive paths or none, until the process is stopped |
| Timing.TimelyInv | src/vpn.c:267-281 | every world of a timely run satisfies the invariant of time |
| TimedTheorems.HopTiming | src/vpn.c:257-281 | the active socket is never a closed one and at most 10 workers of a path are open |
| TimedTheorems.AliveTiming | src/vpn.c:386-445 | a path is alive for at least 1332 ms after an accepted datagram and dead after 3325 ms without one |
| TimedTheorems.PoolIsWindow | src/vpn.c:413-445 | in every timely run the pool is exactly 0 and the tokens of the steps that the last pass kept, at most 665 ms ago; these are all 39 iff that pass read the clock in one step |
| TimedTheorems.WindowInTime | src/vpn.c:323-330 | a client token is in the server's pool when the server's clock is at most 9500 ms past or 8835 ms before it, unless the step changed during the server's last pass and the token is of the earliest step or the hole |
| TimedTheorems.InTimeIsTaken | src/vpn.c:320-395 | a datagram of the client whose body fits the server is taken, in any order and however often, when it arrives within 4500 ms by the two clocks, with the same exception for the step of its hop; there is none when the hop was at most 9000 ms before the server's last pass |
| Lasting.KeptAlive | src/vpn.c:386-445 | a path is alive while the other end sends on it in every pass and is answered within 666 ms |
| Lasting.ConnectionLasts | src/vpn.c:379-445 | in a timely run without restarts, while every heartbeat is answered within 666 ms, a path stays alive at both ends |
| Lasting.ServerTakes | src/vpn.c:320-386 | a heartbeat that reaches the server in time is accepted, when its clock is in bounds and its last pass read the clock in one step |
| Lasting.ClientTakes | src/vpn.c:357-388 | a heartbeat that reaches an open client worker is accepted |
| Lasting.HeartbeatsSuffice | src/vpn.c:379-445 | so a path stays alive at both ends while every heartbeat arrives within 666 ms, with the server's clock at most 8835 ms behind and 3834 ms ahead and no pass of the server straddling a step |
| Stabilise.BeatAccepted | src/vpn.c:357-392 | a heartbeat is accepted by any worker of its token, whatever the MTUs |
| Stabilise.ServerLearns | src/vpn.c:379-386 | one client heartbeat makes the server's path alive, with the client's token and each end's socket the other's remote |
| Stabilise.ClientLearns | src/vpn.c:425-435 | from there the server's next pass sends a heartbeat that makes the client's path alive |
| Stabilise.OneExchange | src/vpn.c:405-446 | from any server state with the client's token in its pool, one client heartbeat and, after any pause, the server's next one may follow and connect the path |
| Stabilise.InWindowIsHeard | src/vpn.c:411-424 | a pass that keeps the step of the hop puts the client's token in the pool, whatever it held before |
| Stabilise.ReachableClientIsAimed | src/vpn.c:286-307 | every reachable client with an open socket sends from a worker of the path to the endpoint of its token |
| Recovery.ReachableIsSound | src/vpn.c:59-72 | a reachable world with its server put in any state, restarted or not, meets what recovery asks of it |
| Recovery.ReachableServer | src/vpn.c:379-386 | every server state of every run is one of these |
| Recovery.StepSound | src/vpn.c:284-481 | every step of either end keeps this |
| Recovery.ServerAgreement | src/vpn.c:284-307 | what reaches a worker of a server in any state was made by the client under that worker's token |
| SelfStabilisation.ActiveUntilHop | src/vpn.c:286-307 | over any run segment in which the client is not started again, its active socket stays active iff the path does not hop |
| SelfStabilisation.PassFills | src/vpn.c:411-424 | a pass, straddling or not, fills the pool for every hop whose step it keeps, and one in a single step for every hop within 9500 ms |
| SelfStabilisation.ForwardAccepted | src/vpn.c:320-386 | a client heartbeat that arrives while its token is in the pool, as after a pass that filled the pool for its hop, is accepted, in whatever state the server was |
| SelfStabilisation.ServerReplies | src/vpn.c:425-435 | from then on each of the server's next passes, while fewer than 5 lie in between, sends a heartbeat back along the datagram accepted last, whatever else happens |
| SelfStabilisation.MatchedIffHeard | src/vpn.c:379-386 | the ends send to each other's sockets under one token iff the client's active worker is the one the server heard last |
| SelfStabilisation.SelfStabilises | src/vpn.c:405-446 | over every run segment from any reachable client and any server: when such a heartbeat and a later one of the server have arrived, the client's path is alive, the server's counter is 5 less its passes since it last accepted, and the ends match iff the client's active worker is the one heard last; when that is the heartbeat's, iff the client has not hopped since, and the tokens agree iff its last hop led to the same one |
| Connect.FreshStartConnects | src/vpn.c:149-175 | from the start, for all wall clocks at most 9500 ms apart, every path and all library functions, there is a timely run of 8 steps and 333 ms that connects the two ends, by an exchange as in SelfStabilises |
| Connect.HopSetsApart | src/vpn.c:257-307 | a timely run in which the client hops before the server's heartbeat arrives: the exchange is complete and the ends do not match, and their tokens agree iff both hops led to the same one |
| Connect.PacketGetsThrough | src/vpn.c:241-397 | a timely run in which, after such an exchange, any packet within the MTU is read at the client and written at the server |
| ConfReader.StrNCopy | src/conf.c:50-59 | the array holds the source cut to its size, terminated |
| ConfReader.Trim | src/conf.c:81-92 | the two loops find the line without surrounding blanks |
| ConfReader.Config.Set | src/conf.c:115-255 | one setting changes the configuration as specified, fails, or writes in front of the paths |
| ConfReader.Config.Read | src/conf.c:61-260 | the reading loop does to the configuration what the specification says of the whole file |
| ConfReader.Config.Check | src/conf.c:333-390 | the final checks and defaults |
| Conf.SetFieldKeeps | src/conf.c:115-255 | every setting keeps ports ordered and not negative, earlier paths with a port, and the MTU in bounds |
| Conf.OutOfBoundsLine | src/conf.c:152-176 | a line writes in front of the paths iff it is a port setting with an ordered range and there is no path yet |
| Conf.OutOfBoundsFile | src/conf.c:73-256 | a file does iff such a line comes after lines that would each be accepted first and are no server lines |
| Conf.PortOnly | src/conf.c:152-176 | the file port=1 does |
| Conf.ReadFileKeeps | src/conf.c:73-256 | so does every file |
| Conf.AcceptedConfiguration | src/conf.c:333-390 | every accepted configuration has a mode, a key, 1 to 8 paths with a positive and not empty port range, and an MTU from 1024 to 2052 |
| Conf.AcceptedIsValidSetup | src/vpn.c:67-72 | two accepted configurations give the protocol a valid setup iff the library is lawful, both MTUs are at most 2048 and no two paths of one host overlap in ports |
| ConfText.AtoiOfDecimal | src/conf.c:154-168 | decimal digits behind blanks and one sign are read as their number, up to the first other character |
| ConfText.PortRangeOf | src/conf.c:152-169 | one number is both ends of a range, two joined by a minus are its ends |
| ConfText.PortsLoaded | src/conf.c:152-176 | the text m-n sets the last path's ports to m and n, or fails when m > n |
| ConfText.MtuLoaded | src/conf.c:190-205 | an MTU is loaded as its number iff it is from 1024 to 2052 |
| ConfText.WordsLoaded | src/conf.c:115-255 | the values and cut lengths of mode, route, nat, user, tunif, addresses and key |
| ConfText.ServerLoaded | src/conf.c:135-151 | a server line opens the next path unless there are 8 or the last has no port |
| ConfText.CheckedWrittenOut | src/conf.c:333-390 | the final checks as one condition, and the defaults, port 1205 and vpn0 |
| ConfText.SettingParsed | src/conf.c:81-114 | key=value with blanks around it is that setting |
| ConfText.NothingParsed | src/conf.c:86-104 | blank lines and comments are skipped, other lines without an equals sign are malformed |
| ConfText.LineTaken | src/conf.c:71-79 | a line ends behind its line break or where the buffer is full |
| ConfText.SettingRead | src/conf.c:73-256 | a file whose first line is a setting loads it and goes on, or stops with its failure |

## Left out

- InTimeIsTaken: concerns the direction from client to server only, because the client has no window.
- EndToEnd: asks that the receiver's MTU is not the smaller one, because a datagram cut inside its body is judged by the checksum alone.
- TimelyInv: the timers fire exactly within the stated bounds; the delays of a loaded scheduler are not modelled.
- WindowOfPass: asks for a wall clock at least 9500 ms past its epoch, so that all moments of the window exist, and for a pass shorter than half of the 500 * 2^64 ms after which step numbers repeat.
- Beat: a pass is one step of the transition system and takes no time of the run; its clock readings may lie up to 500 ms later.
- SelfStabilises: its server may be in any state of `ctx`, but its workers listen on their own ports, and no alive path is aimed at the server itself.
- FillPool: asks for port ranges below 2^23, beyond which the C int overflows (HornerFits); so do Hop and Heartbeat.
- Set: the fields are strings cut to the size of the C array; `_strncpy` is modelled on arrays beside it, and the line buffer is not changed in place.
- Atoi: numbers beyond the range of int are not modelled.
- A bind that fails, and a name lookup that blocks in the middle of a worker's start, are not steps of the transition system.
- Forged traffic and the strength of the cryptography.
- LZ4, BLAKE2b, ChaCha20 and the random source beyond the laws above.
- Tun devices, sockets, DNS and signals, except as steps that take or hand over packets.
- `ifconfig`, `nat`, `runas`, `daemonize`, the text of shell commands, the IPv6 route, and several servers in one routing table.
- Command-line options, logging, the SNMP counters and the shutdown.
