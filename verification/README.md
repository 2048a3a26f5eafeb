# A verified model of the TCP stack

This project models a from-scratch TCP: the connection state machine and its retransmission queue,
out-of-order reassembly, wrapping sequence arithmetic, congestion control (CUBIC/NewReno and BBR), the
adaptive timer, the packet encoding with its checksums, and the multi-connection server. It proves what
the parts promise together: one in-order byte stream over a network that may drop, duplicate and reorder
anything.

Layers, bottom up:

* `Types`, `SeqNum`, `Segments`: machine integers, sequence numbers, segments.
* `Retransmit`, `Reassembly`, `Rtt`, `Congestion`, `Connection`: what every operation does, as a function
  of the state. Branches, edge cases and constants are those of the source.
* `RetxQueues`, `Reassemblers`, `RttEstimators`, `Controllers`, `TcpConnections`, `Stream`, `Server`: the
  objects that do it in place, with the source's loops; each method's new state and output are proved to
  be what the function says.
* `Segmentation`, `AnyOrder`, `SackReport`: reassembly of a fixed segmentation, in any order.
* `Direction`, `Sender`, `Receiver`, `Arrival`, `System`: two endpoints and a network. A ghost history per
  direction (where the stream was cut, which units arrived, where the receiver has stood) carries the joint
  invariant; segments in flight are never removed, so loss, duplication and reordering are all included. The
  network may also hand a segment over with any window and any options but SACK in it, so peers that advertise
  zero or changing windows, other segment sizes or other timestamps are included too.
* `EndToEnd`, `NoStall`, `NewReno`, `Nagle`, `RecoveryPace`: what holds in every reachable state. `Stalled` and
  `StaleAck` hold concrete runs that reach the states those theorems speak of.
* `Wrap`, `Translation`, `Twins`, `Renumbering`: wrapping arithmetic refines unbounded integers, decision by
  decision and run by run.
* `AckField`, `Placement`, `Timestamps`, `Delivery`, `Progress`: what the arrival of a missing segment does, when it can
  never help again, and when the network can always finish what was transmitted.
* `Karn`, `Signals`, `Transitions`, `QueueSteps`, `Replies`, `Timeouts`, `Transmissions`, `Handshake`: what a segment, a
  tick, a poll and an open make of every part of a connection and what they put on the wire, on the state before the
  call, with the numbers written out. `Episodes`, `TailProbe`, `Pacing`: what follows over runs.
* `Calls`, `Lifecycle`, `Challenges`, `RecoveryBooks`, `MaxFilter`, `BbrModes`, `BbrModel`, `CubicGrowth`, `TimerHistory`,
  `Rfc6298`: what holds over every run of one component, with arbitrary (even forged) inputs. `Histories`: every run of
  a connection is a run of its timer and of its BBR controller.
* `Overlaps`: reassembly of slices that overlap in any way.
* `Backlog`: which connections the server announces, over whole runs.
* `InternetChecksum`, `Wire`, `Packets`, `Layout`, `Emission`: bytes, and that the network may as well carry them.

Inputs from outside become arguments: the clock (which need not advance), initial sequence numbers, the
random challenge budget, and the value of the cubic curve (bounded below by one MSS, as the source does).
Standing assumptions of the two-endpoint results: each application writes fewer than 2^31 - 3 bytes, and no
segment of an older incarnation is in the network.

`dafny verify dfyconfig.toml` checks everything.

## Where the code and its documentation differ

* docs/doc7-book.md:201-203 says TIME_WAIT lingers to re-acknowledge a retransmitted FIN. The code returns
  nothing in that state except a challenge ACK to a SYN (`Lifecycle.TimeWaitAnswersOnlySyn`).
* The comment above the server's poll (src/socket.rs:286-288) says it announces the newly established
  connections. `Backlog.AnnouncedExactly` says when it does: a connection that leaves ESTABLISHED again within
  the poll that completed its handshake is missed. `Backlog.EstablishedAndMissed` is such a run, and
  `Backlog.MissedForever` shows that the connection is then never announced.
* The test at src/socket.rs:616-684 samples the promise that every byte eventually arrives despite loss, on
  traffic in one direction. There it holds as far as the endpoints go: whatever has happened, the network can
  still bring a receiver that has written less than a window everything transmitted
  (`Progress.OneWayDelivers`). For traffic in both directions it is false. A retransmission repeats the
  acknowledgement number of the first transmission (src/tcp.rs:1698-1711), and in ESTABLISHED a segment whose
  ACK lies more than MAX.SND.WND below SND.UNA is dropped before its data is looked at (src/tcp.rs:902-912).
  `Delivery.StrandedExactly` is the exact condition, for missing data that acknowledges nothing new, under
  which some run still delivers it; `StaleAck.ByteStranded` is a run after which none does.
* The comment at src/bbr.rs:61-62 says PROBE_RTT is entered from PROBE_BW or DRAIN. The code enters it from
  PROBE_BW only (`BbrModes.ProbeRttFromProbeBwOnly`).
* A peer may advertise an MSS of zero, which the code adopts; it then never sends data (`NoStall.OpenWindowSends`,
  `Stalled.ZeroMssStalls`).
* The comment at src/tcp.rs:1356-1358 says the Tail Loss Probe is re-armed on each new send. The code keeps a
  deadline that is already set (`TailProbe.ArmedExactly`).
* The 70% decrease (src/congestion.rs:126-127) is computed with a 32-bit product; `NewReno.BetaCutExact`
  gives the exact range in which it is 70%. The model wraps the product, as a release build does.

## Model

| member | source | states |
|---|---|---|
| `EndToEnd.StreamSafety` | src/socket.rs:616-684 | In every reachable state of two endpoints over a network that drops, duplicates and reorders anything, what either application has been given is a prefix of what the other has written. |
| `EndToEnd.NothingForgotten` | src/tcp.rs:1673-1694 | In every reachable state, each sequence number sent that the peer has neither passed on nor buffered lies in a queued segment not marked SACKed. |
| `EndToEnd.OldestNeverSacked` | src/tcp.rs:1730-1751 | In every reachable state the oldest queued segment is not marked SACKed, however SACK-bearing ACKs were reordered. |
| `EndToEnd.Agreement` | src/tcp.rs:915-920 | SND.UNA <= peer RCV.NXT <= SND.NXT; the peer reports end of file only when it has been given every byte transmitted; FIN_WAIT_2 and TIME_WAIT imply that the peer has consumed our FIN. |
| `EndToEnd.TilingAndConservation` | src/tcp.rs:1657-1694 | Written = transmitted followed by the send buffer; SND.NXT counts exactly SYN, bytes and FIN; queue entries are non-empty, contiguous from SND.UNA to SND.NXT and carry the right bytes; the queue is empty exactly when UNA = NXT (until the FIN is acknowledged). |
| `EndToEnd.RecoveryPoint` | src/tcp.rs:947-957 | Whenever a recovery episode is under way, SND.UNA < recover <= SND.NXT. |
| `System.RunInv` | src/tcp.rs:791-1368 | The joint invariant of both endpoints and the network holds after every run of writes, reads, polls, ticks, closes and deliveries, starting from any pair of initial sequence numbers. |
| `System.StartInv` | src/tcp.rs:551-612 | The state right after an active open, with the SYN in the network, satisfies the joint invariant. |
| `System.EventStep` | src/tcp.rs:791-1368 | Any event at one endpoint keeps its half of the invariant, and everything it emits is a verbatim repeat or honest about its own stream and truthful about the other. |
| `Sender.PollStep` | src/tcp.rs:1282-1368 | Any poll keeps the queue tiling the unacknowledged range, conserves the written bytes, and emits only whole new units or queued packets. |
| `Sender.TickStep` | src/tcp.rs:1129-1234 | Any tick does the same: retransmissions repeat queued packets verbatim and a probe is the next unit. |
| `Sender.CloseStep` | src/tcp.rs:671-687 | Closing appends exactly one unit, the FIN, after the last byte sent. |
| `Receiver.DataArrives` | src/tcp.rs:985-992 | A whole unit of the stream arriving, old, new or repeated, delivers exactly the stretch that becomes unbroken and keeps the receiving half sound. |
| `Arrival.SegmentStep` | src/tcp.rs:791-1123 | Any honest, truthful segment in any state leaves both halves sound; the reply repeats a queued packet or states the present. |
| `Arrival.DropAcked` | src/tcp.rs:1673-1694 | A truthful acknowledgement leaves exactly the queued units at and beyond the place it names. |
| `Arrival.EntryMarked` | src/tcp.rs:1730-1751 | A truthful SACK block marks only units the receiver holds and has never since waited for. |
| `SeqNum.BeforeIsLess` | src/seq.rs:13-15 | For integers at any distance, the wrapped test is "difference modulo 2^32 in the upper half"; within one lap it agrees with less-than if and only if the distance is in [-2^31, 2^31). |
| `SeqNum.BetweenOff` | src/seq.rs:25-27 | `between` is the half-open interval test on offsets from a common base. |
| `SeqNum.SignBit` | src/seq.rs:13-15 | The bit test of the source is the arithmetic test of the model. |
| `AnyOrder.DeliversLongestPrefix` | src/reassembly.rs:46-85 | After any arrivals with repeats of a fixed segmentation within MAX_AHEAD, the bytes delivered are exactly the longest prefix whose units have all arrived, and exactly the other arrived units are buffered. |
| `AnyOrder.OrderIrrelevant` | src/reassembly.rs:46-85 | Two arrival histories with the same set of units end in the same state with the same bytes delivered. |
| `Segmentation.RecvUnit` | src/reassembly.rs:46-85 | One arrival adds at most its unit to the received set and delivers the stretch from the old first missing unit to the new one. |
| `Segmentation.StateDeterminedByReceivedSet` | src/reassembly.rs:46-85 | The buffer is a function of the set of received units. |
| `SackReport.SackBlocksAreMaximalRuns` | src/reassembly.rs:98-111 | A byte is in a reported block if and only if it is buffered; blocks are ascending, non-empty and pairwise separated by a missing byte. |
| `SackReport.BlockNamesReceivedUnits` | src/reassembly.rs:98-111 | Both edges of every block are cuts of the segmentation, and all units between them are received ones beyond RCV.NXT. |
| `Reassemblers.Reassembler.Recv` | src/reassembly.rs:46-85 | In place: the new buffer and the bytes returned are those of the specification the lemmas above are about. |
| `Reassemblers.Reassembler.Deliver` | src/reassembly.rs:74-83 | The cursor loop over the ordered map removes and returns exactly the unbroken run. |
| `Reassemblers.Reassembler.SackBlocks` | src/reassembly.rs:98-111 | The coalescing loop returns the specified block list. |
| `RetxQueues.RetxQueue.Record` | src/tcp.rs:1657-1666 | Appends one fresh entry covering the given range. |
| `RetxQueues.RetxQueue.Ack` | src/tcp.rs:1673-1694 | The `retain` loop drops exactly the covered entries and threads the first never-resent sample and the RACK record through them. |
| `RetxQueues.RetxQueue.Due` | src/tcp.rs:1698-1711 | Exactly the unsacked entries whose timeout has elapsed are re-stamped, and their packets are returned in order. |
| `RetxQueues.RetxQueue.FastRetransmit` | src/tcp.rs:1716-1724 | The first unsacked entry is re-stamped and its packet returned, or nothing if there is none. |
| `RetxQueues.RetxQueue.MarkSacked` | src/tcp.rs:1730-1751 | Exactly the covered entries become marked; the RACK record follows the newly marked ones in order. |
| `RetxQueues.RetxQueue.IsCovered` | src/tcp.rs:1735-1738 | Some block contains the whole segment. |
| `RetxQueues.RetxQueue.RackMarkLost` | src/tcp.rs:1759-1774 | Exactly the unsacked entries sent before the RACK record and out of the reordering window are re-stamped and returned. |
| `RetxQueues.RetxQueue.RetransmitLast` | src/tcp.rs:1780-1786 | The last unsacked entry is re-stamped and its packet returned. |
| `RetxQueues.RetxQueue.IsLost` | src/tcp.rs:1794-1805 | An unsacked entry is lost exactly when at least three SACKed entries start after it. |
| `RetxQueues.RetxQueue.Pipe` | src/tcp.rs:1813-1827 | The loop returns the pipe estimate of the specification. |
| `RetxQueues.RetxQueue.NextLostRetransmit` | src/tcp.rs:1834-1843 | The lowest lost, never-resent entry is re-stamped and returned, or nothing if none remains. |
| `Retransmit.KeepSuffix` | src/tcp.rs:1676-1689 | If exactly a prefix is acknowledged, exactly the rest remains, in order. |
| `RecoveryBooks.BooksBalance` | src/tcp.rs:1794-1827 | pipe + SACKed bytes + lost-and-unretransmitted bytes = all queued bytes. |
| `RecoveryBooks.HoleRaisesPipe` | src/tcp.rs:1834-1843 | Retransmitting a hole raises the pipe by exactly its length and lowers the lost bytes by as much. |
| `RecoveryBooks.NewDataRaisesPipe` | src/tcp.rs:1304-1321 | A segment of new data raises the pipe by exactly its length and creates no hole. |
| `RecoveryBooks.HolesFilled` | src/tcp.rs:1296-1302 | The hole loop ends with the pipe at most max(old, limit + longest segment - 1), and with the pipe full or no untried hole left. |
| `RecoveryPace.BooksBalanceAlways` | src/tcp.rs:1794-1827 | The books balance in every reachable state. |
| `RecoveryPace.CallShort` | src/tcp.rs:1282-1368 | No call, honest peer or not, ever queues a segment longer than the negotiated segment size. |
| `Nagle.WindowRespected` | src/tcp.rs:1328-1354 | The send loop never puts more than min(SND.WND, cwnd) in flight, and stops only for want of data or because a window, Nagle, pacing or a segment size of zero says so. |
| `NoStall.ResentInTime` | src/tcp.rs:1698-1711 | Any tick 60 s or more after an unsacked segment was last sent sends it again. |
| `NewReno.PartialAck` | src/tcp.rs:947-953 | A partial ACK keeps the episode and the recovery point and resends the first hole left. |
| `NewReno.PartialAckResendsNext` | src/tcp.rs:947-953 | In every reachable state a partial ACK is answered at once with the segment that starts exactly at the acknowledged number. |
| `NewReno.BetaCutExact` | src/congestion.rs:132 | The multiplicative decrease is 70% of the window (at least two segments) if and only if cwnd <= 613566756, the largest value whose product by 7 fits 32 bits. |
| `Controllers.Cubic.OnAck` | src/congestion.rs:71-109 | Deflation, slow start, or the CUBIC step towards the given curve value, never below one MSS. |
| `Controllers.Cubic.OnDupAck` | src/congestion.rs:128-143 | The third duplicate cuts, inflates and asks for a retransmission; later ones inflate only in recovery. |
| `Controllers.Cubic.OnTimeout` | src/congestion.rs:148-155 | Back to one segment with the threshold cut. |
| `Controllers.Cubic.OnPartialAck` | src/congestion.rs:169-172 | Deflates by the bytes acknowledged, keeps the episode, and restarts the duplicate count. |
| `CubicGrowth.AckGrows` | src/congestion.rs:71-109 | Outside recovery an ACK never shrinks the window; below the curve it moves towards it without overshooting, above it by at most one segment; slow start adds exactly one segment. |
| `CubicGrowth.FallsOnlyOnLoss` | src/congestion.rs:71-172 | The window falls only on the third duplicate ACK, on ACKs of a recovery episode, or on a timeout; the threshold changes only with a loss signal, to the cut of the window of that moment; an episode ends at the threshold or at one segment. |
| `Controllers.WindowedMax.Update` | src/bbr.rs:86-104 | The two pop loops compute the filter step whose meaning `FilterIsBruteForceMax` gives. |
| `Controllers.WindowedMax.Get` | src/bbr.rs:106-108 | The front value, or zero for an empty filter. |
| `Controllers.Bbr.OnAck` | src/bbr.rs:209-250 | Min-RTT adoption, round counting, rate sampling, mode step and window, in that order, as the specification composes them. |
| `Controllers.Bbr.UpdateModel` | src/bbr.rs:254-308 | One step of the mode machine. |
| `Controllers.Bbr.RecomputeCwnd` | src/bbr.rs:329-339 | Four segments in PROBE_RTT, otherwise the gained BDP floored at four segments. |
| `Controllers.Bbr.OnTimeout` | src/bbr.rs:351-361 | STARTUP again with the plateau detector reset and the model kept. |
| `MaxFilter.FilterIsBruteForceMax` | src/bbr.rs:86-108 | For samples fed at non-decreasing times, `get` is the maximum of all samples ever fed whose age at the last update is at most the window, and the deque falls strictly in value. |
| `BbrModes.ModeMachine` | src/bbr.rs:254-361 | In every reachable state: pipe filled exactly outside STARTUP (so PROBE_RTT never falls back to STARTUP), window at least four segments and exactly four in PROBE_RTT, gain index inside its table. |
| `BbrModes.BandwidthIsWindowMax` | src/bbr.rs:229-240 | In every reachable state the bandwidth estimate is the largest delivery rate ever sampled within ten rounds of the last sample. |
| `TimerHistory.EstimatesBounded` | src/rtt.rs:32-47 | For every history: SRTT lies between the least and greatest sample despite truncation, and RTTVAR <= max(first/2, greatest - least). |
| `TimerHistory.RtoBounded` | src/rtt.rs:51-57 | The RTO always lies in [200 ms, 60 s]. |
| `TimerHistory.BackedOff` | src/rtt.rs:51-63 | After n timeouts in a row the RTO is min(base * 2^min(n,6), 60 s), with the base the measurements alone give. |
| `RttEstimators.RttEstimator.Sample` | src/rtt.rs:32-47 | The first sample seeds both estimates, later ones smooth them; the back-off is cleared. |
| `RttEstimators.RttEstimator.Rto` | src/rtt.rs:51-57 | The clamped, backed-off timeout. |
| `RttEstimators.RttEstimator.BackOff` | src/rtt.rs:61-63 | One more doubling, at most six. |
| `Lifecycle.CallFollowsEdges` | src/tcp.rs:671-1150 | Every call with any argument follows an edge of the state diagram or an abort edge, keeps end of file in step with the state, and stamps TIME_WAIT exactly on entry. |
| `Lifecycle.ResetExactly` | src/tcp.rs:768-786 | In any state but CLOSED, a segment closes a connection if and only if it is a RST that names RCV.NXT (in SYN_SENT, one that acknowledges our SYN; never in TIME_WAIT), or in LAST_ACK the acknowledgement of our FIN. |
| `Lifecycle.EndOfFileStates` | src/tcp.rs:1014-1080 | Over every run from an active open or an accepted SYN, until closed: end of file has been reported exactly in CLOSE_WAIT, LAST_ACK, CLOSING and TIME_WAIT. |
| `Lifecycle.ClosedForever` | src/tcp.rs:791-1123 | CLOSED is absorbing. |
| `Lifecycle.TimeWaitLasts` | src/tcp.rs:1131-1137 | TIME_WAIT ends if and only if some tick comes at least 240 s after its stamp, whatever arrives. |
| `Lifecycle.TimeWaitAnswersOnlySyn` | src/tcp.rs:1112-1123 | In TIME_WAIT a segment is answered if and only if it is a SYN without RST and the challenge budget (a fresh one if a second has passed or the clock ran back) is not used up. |
| `Lifecycle.RetransmittedFinIgnored` | src/tcp.rs:1112-1123 | So a retransmitted FIN draws no ACK, against docs/doc7-book.md:201-203. |
| `Lifecycle.TickAbortsExactly` | src/tcp.rs:1131-1232 | A tick closes a connection if and only if TIME_WAIT has lasted 240 s, FIN_WAIT_2 or CLOSE_WAIT has idled 60 s or 120 s, or an idle established connection with keepalive on has left three probes unanswered for 75 s. |
| `TcpConnections.TcpConnection.Connect` | src/tcp.rs:551-612 | Active open. In place; the new state and the output equal the `Connection` specification the protocol lemmas are about. |
| `TcpConnections.TcpConnection.Accept` | src/tcp.rs:456-536 | Passive open; nothing unless the segment is a SYN. In place; the new state and the output equal the `Connection` specification the protocol lemmas are about. |
| `TcpConnections.TcpConnection.Write` | src/tcp.rs:1250-1252 | Appends to the send buffer. In place; the new state and the output equal the `Connection` specification the protocol lemmas are about. |
| `TcpConnections.TcpConnection.TakeReceived` | src/tcp.rs:1372-1374 | Hands over the receive buffer and empties it. In place; the new state and the output equal the `Connection` specification the protocol lemmas are about. |
| `TcpConnections.TcpConnection.Close` | src/tcp.rs:671-687 | FIN sent and queued from ESTABLISHED or CLOSE_WAIT, nothing elsewhere. In place; the new state and the output equal the `Connection` specification the protocol lemmas are about. |
| `TcpConnections.TcpConnection.MaybeChallenge` | src/tcp.rs:740-751 | A challenge ACK within the per-window budget. In place; the new state and the output equal the `Connection` specification the protocol lemmas are about. |
| `TcpConnections.TcpConnection.OnRst` | src/tcp.rs:768-786 | The RFC 5961 treatment of RST. In place; the new state and the output equal the `Connection` specification the protocol lemmas are about. |
| `TcpConnections.TcpConnection.OnSynSent` | src/tcp.rs:811-844 | The SYN-ACK of an active open, or nothing. In place; the new state and the output equal the `Connection` specification the protocol lemmas are about. |
| `TcpConnections.TcpConnection.Deliver` | src/tcp.rs:985-992 | RCV.NXT and the receive buffer advance by what the reassembler returns. In place; the new state and the output equal the `Connection` specification the protocol lemmas are about. |
| `TcpConnections.TcpConnection.OnAckField` | src/tcp.rs:902-977 | Acceptability, SACK marks, new or duplicate ACK. In place; the new state and the output equal the `Connection` specification the protocol lemmas are about. |
| `TcpConnections.TcpConnection.OnNewAck` | src/tcp.rs:915-960 | SND.UNA, queue, timer and controller after a new ACK; a partial ACK may end handling. In place; the new state and the output equal the `Connection` specification the protocol lemmas are about. |
| `TcpConnections.TcpConnection.OnDuplicateAck` | src/tcp.rs:961-977 | The duplicate count and the fast retransmission. In place; the new state and the output equal the `Connection` specification the protocol lemmas are about. |
| `TcpConnections.TcpConnection.OnText` | src/tcp.rs:985-1032 | Data, an in-order or deferred FIN, and the reply. In place; the new state and the output equal the `Connection` specification the protocol lemmas are about. |
| `TcpConnections.TcpConnection.Refresh` | src/tcp.rs:881-896 | TS.Recent and the scaled send window. In place; the new state and the output equal the `Connection` specification the protocol lemmas are about. |
| `TcpConnections.TcpConnection.OnOpen` | src/tcp.rs:877-1032 | The whole of ESTABLISHED and CLOSE_WAIT. In place; the new state and the output equal the `Connection` specification the protocol lemmas are about. |
| `TcpConnections.TcpConnection.OnLastAck` | src/tcp.rs:1034-1041 | LAST_ACK. In place; the new state and the output equal the `Connection` specification the protocol lemmas are about. |
| `TcpConnections.TcpConnection.OnFinWait1` | src/tcp.rs:1047-1084 | FIN_WAIT_1. In place; the new state and the output equal the `Connection` specification the protocol lemmas are about. |
| `TcpConnections.TcpConnection.OnFinWait2` | src/tcp.rs:1086-1110 | FIN_WAIT_2. In place; the new state and the output equal the `Connection` specification the protocol lemmas are about. |
| `TcpConnections.TcpConnection.OnClosing` | src/tcp.rs:1112-1120 | CLOSING. In place; the new state and the output equal the `Connection` specification the protocol lemmas are about. |
| `TcpConnections.TcpConnection.OnSegment` | src/tcp.rs:791-1123 | The whole segment handler. In place; the new state and the output equal the `Connection` specification the protocol lemmas are about. |
| `TcpConnections.TcpConnection.Reap` | src/tcp.rs:1131-1150 | TIME_WAIT expiry and the half-closed reaper. In place; the new state and the output equal the `Connection` specification the protocol lemmas are about. |
| `TcpConnections.TcpConnection.TickProbe` | src/tcp.rs:1159-1173 | The Tail Loss Probe. In place; the new state and the output equal the `Connection` specification the protocol lemmas are about. |
| `TcpConnections.TcpConnection.TickRto` | src/tcp.rs:1175-1183 | The retransmission timeout. In place; the new state and the output equal the `Connection` specification the protocol lemmas are about. |
| `TcpConnections.TcpConnection.TickPersist` | src/tcp.rs:1189-1207 | The persist timer. In place; the new state and the output equal the `Connection` specification the protocol lemmas are about. |
| `TcpConnections.TcpConnection.TickKeepalive` | src/tcp.rs:1215-1232 | Keepalive. In place; the new state and the output equal the `Connection` specification the protocol lemmas are about. |
| `TcpConnections.TcpConnection.OnTick` | src/tcp.rs:1129-1234 | The whole tick, in order. In place; the new state and the output equal the `Connection` specification the protocol lemmas are about. |
| `TcpConnections.TcpConnection.Transmit` | src/tcp.rs:1315-1319 | The first n bytes become one queued segment. In place; the new state and the output equal the `Connection` specification the protocol lemmas are about. |
| `TcpConnections.TcpConnection.FillHoles` | src/tcp.rs:1296-1302 | The hole loop. In place; the new state and the output equal the `Connection` specification the protocol lemmas are about. |
| `TcpConnections.TcpConnection.FillPipe` | src/tcp.rs:1303-1321 | The new-data loop of recovery. In place; the new state and the output equal the `Connection` specification the protocol lemmas are about. |
| `TcpConnections.TcpConnection.FillWindow` | src/tcp.rs:1328-1354 | The window-clocked send loop. In place; the new state and the output equal the `Connection` specification the protocol lemmas are about. |
| `TcpConnections.TcpConnection.ArmProbe` | src/tcp.rs:1356-1366 | Arming the Tail Loss Probe. In place; the new state and the output equal the `Connection` specification the protocol lemmas are about. |
| `TcpConnections.TcpConnection.PollTransmit` | src/tcp.rs:1282-1368 | The whole poll. In place; the new state and the output equal the `Connection` specification the protocol lemmas are about. |
| `InternetChecksum.ComputeChecksum` | src/utils.rs:13-34 | The word loop and the carry loop compute the complement of the folded word sum, for every even or odd length. |
| `InternetChecksum.FoldedIsOnesComplement` | src/utils.rs:26-30 | The end-around carry is reduction modulo 2^16 - 1 with representatives 1..65535 (and 0 only for 0). |
| `InternetChecksum.StoredVerifies` | src/utils.rs:10-12 | Storing the checksum in its zeroed field makes the message verify to 0. |
| `InternetChecksum.SingleWordChangeNoticed` | src/ip.rs:82-84 | Changing one aligned word of a verifying message to a different value is noticed, except 0 for 0xFFFF or back. |
| `Wire.ComputeOptions` | src/tcp.rs:101-150 | The index loop computes the option walk, stopping at the end marker or anything malformed. |
| `Wire.BlobsParse` | src/tcp.rs:154-202 | Any concatenation of emitted option blobs parses back to their values, in order. |
| `Packets.WriteHeaderChecksum` | src/ip.rs:71-78 | Bytes 10 and 11 become the checksum of the header with that field zeroed; nothing else changes. |
| `Packets.BuildPacket` | src/tcp.rs:1456-1505 | The buffer filled field by field is the specified packet. |
| `Packets.ComputeTcpChecksum` | src/tcp.rs:1510-1519 | The checksum of pseudo-header and segment. |
| `Packets.PacketParses` | src/tcp.rs:251-271 | Parsing a built packet returns the same addresses, fields, options and payload, for any 4-aligned options of at most 40 bytes and payload fitting 65535 bytes. |
| `Packets.PacketVerifies` | src/tcp.rs:1502-1503 | Both the IP header checksum and the pseudo-header TCP checksum of a built packet verify to 0. |
| `Packets.SegmentSurvives` | src/socket.rs:248-260 | A segment encoded as a packet and parsed by `parse_any` is the same segment under the same 4-tuple. |
| `Packets.OptionsSurvive` | src/tcp.rs:154-202 | The options of a SYN or an ACK, encoded in emission order, parse back to themselves. |
| `Emission.CallReady` | src/tcp.rs:1416-1446 | Whatever arrives, every packet a connection queues or emits has fitting options and at most one MSS of payload. |
| `Emission.NetworkCarriesBytes` | src/socket.rs:248-260 | In every reachable state every segment in the network, built as a packet, verifies under both checksums and parses back to itself. |
| `Server.TcpServer.Poll` | src/socket.rs:289-334 | Every 4-tuple comes out of a poll exactly as a lone connection fed only its own segments and the same tick would, output included; the backlog grows by exactly the newly announced, once each. |
| `Server.TcpServer.TickAll` | src/socket.rs:291-295 | Every connection is ticked exactly once, in whatever order. |
| `Server.TcpServer.Route` | src/socket.rs:298-313 | A datagram touches only the slot of its own 4-tuple, and only at this address. |
| `Server.TcpServer.FlushAll` | src/socket.rs:316-323 | Every connection is flushed exactly once; the newly announced are those established and not announced before. |
| `Server.TcpServer.Reap` | src/socket.rs:326-332 | Exactly the closed connections go, with their announcement marks. |
| `Server.TcpServer.AcceptOne` | src/socket.rs:338-340 | First in, first out. |
| `Server.TcpServer.SendTo` | src/socket.rs:343-347 | Writes to that connection only, if it exists. |
| `Server.TcpServer.RecvFrom` | src/socket.rs:350-352 | Drains that connection only. |
| `Server.TcpServer.CloseOne` | src/socket.rs:355-362 | Closes that connection only and sends its FIN. |
| `Stream.TcpStream.Poll` | src/socket.rs:79-94 | Timers, then every datagram of this 4-tuple in order, then transmission, on the connection object; state and output as specified. |
| `Stream.ServerIsManyStreams` | src/socket.rs:289-334 | In the server a connection goes through one poll exactly as behind its own `TcpStream`: same state, same packets in the same order. |
| `Renumbering.InitialNumbersImmaterial` | src/seq.rs:13-27 | The same actions from other initial sequence numbers, with the numbers in the segments handed over turned accordingly, lead to the same state of both ends and the network, turned accordingly: every byte, window, timer, retransmission and reply is the same. |
| `Renumbering.EveryRunFromZero` | src/seq.rs:1-27 | Every run is the translate of one that starts from zero at both ends. In that run no number held or handed over reaches 2^31 (SND.UNA <= SND.NXT, queue, recovery point, RACK end, RCV.NXT, deferred FIN and fragments are in order as plain integers), and any two of them compare and subtract as the integers they are. |
| `Twins.CallTwin` | src/tcp.rs:456-1374 | Any call with any argument, forged segments included (only a RST in SYN_SENT excepted): a connection and its translate stay translates and emit translates. |
| `Wrap.DecisionsAreIntegers` | src/tcp.rs:721-1232 | In every reachable state and for anything the network may hand over: each test and distance the segment handler, the timers and the transmitter take on sequence numbers (ACK acceptance, new and duplicate ACK, recovery point, queue, SACK coverage, window, reassembly offsets, FIN position before and after delivery, RACK, lost-segment count, flight) equals the stated test on stream positions. |
| `Wrap.AllNumbersLive` | src/seq.rs:13-27 | Every number an endpoint holds (SND.UNA, SND.NXT, recover, queue edges, RACK end, RCV.NXT, deferred FIN, fragment edges) or can be handed is less than 2^31 past the origin of its direction. |
| `Wrap.AckAcceptableOnIntegers` | src/tcp.rs:757-760 | For any ACK, the RFC 5961 test is low <= ACK <= SND.NXT with ACK - low < 2^31, where low = SND.UNA - MAX.SND.WND; it agrees with the plain interval test if and only if the ACK is past SND.NXT or less than 2^31 past low. |
| `Wrap.AckAcceptableWithin` | src/tcp.rs:757-760 | While flight plus the largest window offered stays below 2^31, it is the plain interval test. |
| `Wrap.InWindowOnIntegers` | src/tcp.rs:721-724 | The receive-window test is the half-open interval test, also where the edge of the window passes 2^31. |
| `Wrap.CoverageOnIntegers` | src/tcp.rs:1736-1737 | SACK coverage is interval inclusion on positions. |
| `Delivery.MissingIsQueued` | src/tcp.rs:1673-1694 | In every reachable state, if the receiver has not passed all that was sent, the segment that starts exactly at its RCV.NXT is queued at the sender, not marked SACKed, and in the network. |
| `Delivery.MissingArrives` | src/tcp.rs:877-1110 | In every reachable state, that segment arriving in ESTABLISHED, FIN_WAIT_1 or FIN_WAIT_2 moves RCV.NXT past all of it if and only if it is not refused: in ESTABLISHED by PAWS, or at the acknowledgement field (unacceptable, or a partial ACK with a hole beyond it, or the third duplicate with a hole); in the other two never. |
| `AckField.StopsExactly` | src/tcp.rs:902-977 | The handler stops at the acknowledgement field exactly when, on the state before, the ACK is unacceptable, or is a partial ACK in recovery with an unsacked segment ending beyond it, or is the third duplicate with an unsacked segment queued. |
| `Delivery.OldMissingArrives` | src/tcp.rs:902-912 | In integers, in ESTABLISHED: missing data that acknowledges nothing new is taken in if and only if PAWS lets it pass and SND.UNA <= SEG.ACK + the largest window advertised so far. |
| `Delivery.StrandedExactly` | src/socket.rs:616-684 | The promise that every byte eventually arrives, for the byte an established receiver waits for, when the one segment that holds it acknowledges nothing new: some run, in which the receiver does not close and is offered no larger window, gives its application another byte if and only if SND.UNA <= SEG.ACK + the largest window advertised so far. |
| `Progress.SomeRunDelivers` | src/socket.rs:616-684 | From every reachable state in which the receiver takes data and nothing queued for it acknowledges too little, handing over segments of the network and nothing else gives it everything transmitted; exactly as they were sent, if the sender never saw its clock run back. |
| `Progress.OneWayDelivers` | src/socket.rs:616-684 | A receiver that has written less than 1024 bytes of its own, as in that test, can always be given everything transmitted to it, whatever has happened so far. |
| `Progress.OneWayNeverStranded` | src/socket.rs:616-684 | So the byte such a receiver waits for is never stranded. |
| `Timestamps.PawsSpares` | src/tcp.rs:877-886 | In every run, at either end, in which the other end has a clock that does not run backwards and stays below 2^31 ms, and segments arrive dated as they were sent: PAWS never refuses content that starts at RCV.NXT. |
| `Delivery.StrandedForever` | src/tcp.rs:1698-1711 | Once the only copy of the missing segment acknowledges less than that, no run brings the receiving application another byte, whatever is written, sent, resent, delivered or timed out at either end, as long as the receiver does not close and is offered no larger window. |
| `StaleAck.ByteStranded` | src/socket.rs:616-684 | Such a state is reached: a concrete run of two ends, each always advertising 1024 bytes, after which a written, sent and still queued byte is never delivered. |
| `Backlog.AnnouncedExactly` | src/socket.rs:316-323 | In every run, a poll announces a 4-tuple if and only if one of its datagrams completes a handshake (without finishing the connection in the same call) and no later one is a RST naming RCV.NXT or brings in the FIN. |
| `Backlog.EstablishedAfterSegment` | src/tcp.rs:791-1032 | A segment leaves a connection in ESTABLISHED if and only if it was there and the segment is neither a RST naming RCV.NXT nor completes the FIN, or it completes the handshake and not the FIN. |
| `Backlog.AnnouncedOncePerIncarnation` | src/socket.rs:319-332 | In the life of one connection (counted from the moment its slot was empty) the 4-tuple is put on the backlog at most once: exactly once if it is marked announced, never if it is not. Announced implies present in the table. |
| `Backlog.AnnouncementsBounded` | src/socket.rs:319-332 | Over a whole run, announcements never exceed incarnations, and are fewer while an unannounced connection lives. |
| `Backlog.MissedForever` | src/socket.rs:319-322 | A connection past ESTABLISHED and not announced is never announced by any later poll, whatever polls and application calls follow, while it lives. |
| `Backlog.EstablishedAndMissed` | src/socket.rs:319-322 | And that happens: a SYN in one poll and a final handshake ACK with FIN in the next leave the connection in CLOSE_WAIT after one birth and no announcement. |
| `Backlog.BornExactly` | src/socket.rs:298-313 | In an empty slot a connection is born in a poll exactly if a SYN without ACK for its 4-tuple is among the arrivals. |
| `Backlog.KeepsNoneClosed` | src/socket.rs:326-332 | After any run that ends with a poll the table holds no closed connection and no mark of one, and every other connection. |
| `NewReno.CallEndsEpisode` | src/tcp.rs:947-957 | Any call in any state: a recovery episode is ended by a readable, acceptable new ACK not before the recovery point, by a tick in which a timeout fires, or by switching to BBR, and by nothing else. |
| `NewReno.SegmentEndsEpisode` | src/tcp.rs:947-957 | In any state a segment ends an episode if and only if it is a readable, acceptable new ACK not before the recovery point. |
| `NewReno.TickEndsEpisode` | src/tcp.rs:1152-1183 | A tick ends an episode if and only if, in the state before it, some unsacked entry has been out for a whole RTO and RACK has no evidence against it. |
| `Challenges.ChallengesRationed` | src/tcp.rs:740-751 | Over any mix of calls in which segments arrive at non-decreasing times: at most the current budget plus five challenge ACKs per whole second. |
| `Challenges.CallBudget` | src/tcp.rs:721-909 | The budget is charged by exactly the provoking segments (RST in the window off RCV.NXT, SYN when synchronized, unacceptable ACK); no other call touches it. |
| `Lifecycle.BlindResetChallenged` | src/tcp.rs:768-786 | Any other RST leaves the whole connection as it was but for the clock readings of an arrival and the challenge budget: in the window it is answered by SND.NXT/RCV.NXT if and only if budget is left, outside it not at all. |
| `Lifecycle.SegmentHandled` | src/tcp.rs:791-1123 | Handling a segment leaves a subsequence of the queue, in order and with ranges and packets unchanged, moves the RACK record only to an end of a queued entry, and leaves the send buffer and SND.NXT alone. |
| `Receiver.FinArrives` | src/tcp.rs:1014-1022 | A FIN that RCV.NXT has reached, deferred or in an honest segment, lies right after the last byte sent, everything sent has been passed on, and consuming it keeps the receiving half sound. |
| `Nagle.PersistSmall` | src/tcp.rs:1189-1204 | A persist probe is, when sent, the only segment in the queue; otherwise the queue is untouched. |
| `Nagle.WindowNeverExceeded` | src/tcp.rs:1324-1368 | In every reachable state, whatever windows the peer has advertised: a poll outside the recovery branch that sends leaves at most min(SND.WND, cwnd) in flight, and an open connection stops only for want of data or because a window, Nagle, pacing or a segment size of zero says so. |
| `Nagle.SmallSegmentIsOldest` | src/tcp.rs:1333-1337 | In every run with Nagle left on that never polls in the recovery branch, at either end and under any windows and segment sizes advertised, every queued data segment but the oldest is full-sized. |
| `NoStall.NeverStalls` | src/tcp.rs:1175-1207 | In every reachable state under CUBIC with a non-zero segment size: if an open connection has unsent data and a poll sends nothing, then either the oldest segment is unsacked and any tick 60 s after its last send resends it, or the window is zero with nothing in flight and two ticks (the first not at time 0, the second an RTO later, past a timer already armed and before CLOSE_WAIT is reaped) send a one-byte probe. |
| `NoStall.ShutWindowProbed` | src/tcp.rs:1189-1207 | With the window shut and nothing in flight, a tick after time 0 and one an RTO later (past a timer already armed, and before an idle CLOSE_WAIT is reaped) send the next byte as a probe. |
| `NoStall.OpenWindowSends` | src/tcp.rs:1328-1354 | In every reachable open state under CUBIC with unsent data, nothing queued and a non-zero window, a poll sends if and only if the segment size is not zero. |
| `NoStall.ZeroMssSendsNothing` | src/tcp.rs:1303-1332 | With a segment size of zero both send loops send nothing. |
| `Stalled.ZeroMssStalls` | src/tcp.rs:1309-1332 | A segment size of zero is reached (a peer advertises MSS 0), and then, with the window open and nothing in flight, no poll and no tick at any time sends anything: the condition of NeverStalls is needed. |
| `Stalled.ShutWindowReached` | src/tcp.rs:1189-1207 | A shut window with a usable segment size is reached as well, and no poll sends then. |
| `RecoveryBooks.RecoveryBranch` | src/tcp.rs:1295-1322 | The same for the whole recovery branch, which stops short of the limit only without untried holes and without unsent data (or with a segment size of zero). |
| `RecoveryPace.RecoveryKeepsThePipeFull` | src/tcp.rs:1295-1322 | In every reachable state: one poll in recovery ends with pipe <= max(old pipe, limit + send_mss - 1), and either pipe >= limit or nothing is left to send (or the segment size is zero). |
| `BbrModes.ModeEdges` | src/bbr.rs:254-361 | What each event makes of the mode, as an exact case table: the third flat round ends STARTUP, a round start ends DRAIN, an expired minimum RTT ends PROBE_BW, the probe deadline ends PROBE_RTT, a timeout restarts STARTUP. |
| `BbrModes.ProbeRttFromProbeBwOnly` | src/bbr.rs:61-62 | PROBE_RTT is entered if and only if the mode is PROBE_BW and an ACK finds the minimum RTT unrefreshed for ten seconds. |
| `BbrModes.StartupEnds` | src/bbr.rs:257-275 | From the initial state or the state any timeout leaves, with no further timeout and every bandwidth read in [lo, hi], STARTUP is over after 3k+1 rounds that read one whenever k growth steps of 25% lead from lo past hi. |
| `BbrModes.StartupBounded` | src/bbr.rs:257-275 | Such a number of rounds exists for all bounds and depends on them alone. |
| `Replies.AnsweredExactly` | src/tcp.rs:791-1123 | Any segment in any state: one that provokes a challenge is answered as far as the budget goes; any other exactly under stated conditions (data, a date before TS.Recent, a FIN consumed now or before, a hole to resend, the segments of the handshake). |
| `Replies.OpenReplies` | src/tcp.rs:877-1032 | In ESTABLISHED and CLOSE_WAIT: a segment dated before TS.Recent is answered at once and changes nothing but the clocks. If the acknowledgement field does not end the handling, the segment is acknowledged if and only if it carries data, or its FIN is consumed or was before, by a pure ACK at SND.NXT for the new RCV.NXT, with SACK blocks exactly when SACK is on and no FIN is consumed. |
| `Replies.FinWaitReplies` | src/tcp.rs:1047-1110 | In FIN_WAIT_1 and FIN_WAIT_2 a segment is acknowledged if and only if it carries data or a FIN in order, by a pure ACK at SND.NXT for the new RCV.NXT without blocks. |
| `Replies.DataAcknowledged` | src/tcp.rs:1028-1031 | In every reachable state data that is not refused, in order, early or repeated, draws an ACK of the new RCV.NXT at once; with SACK on and no FIN consumed its blocks are the first three maximal runs of what is buffered then. |
| `Transitions.StateExactly` | src/tcp.rs:791-1123 | The state after any segment in any state, as a table on flags, numbers and the FIN: every edge of the diagram is taken exactly when its condition holds. |
| `Transitions.NumbersExactly` | src/tcp.rs:881-922 | After any segment in any state: where SND.UNA is, SND.WND = window times 2 to the scale and its largest value so far, TS.Recent, and every timer of the connection. |
| `Transitions.ReceiverExactly` | src/tcp.rs:979-1026 | After any segment past SYN_SENT: what is buffered, what the application can read, RCV.NXT, end of file and the deferred FIN, with the exact condition under which data is looked at. |
| `Transitions.RecentForward` | src/tcp.rs:880-890 | No segment moves TS.Recent back. |
| `QueueSteps.QueueExactly` | src/tcp.rs:1673-1751 | The retransmission queue after any segment in any state, entry by entry: exactly the covered entries go, exactly the SACKed ones are marked, and with a partial ACK in recovery or the third duplicate exactly the first unsacked one is re-stamped. |
| `QueueSteps.RackExactly` | src/tcp.rs:1673-1751 | RACK after a segment has heard of exactly the newly marked and then the acknowledged entries: its time is the latest of theirs and the old one, its end that of the last entry sent then. |
| `Karn.SampleExactly` | src/tcp.rs:1668-1694 | Karn's rule: the sample is the age of the first acknowledged entry that was never resent, and there is none exactly if all acknowledged entries were resent. |
| `Karn.RackHearsAck` | src/tcp.rs:1673-1694 | The RACK record after an acknowledgement: the greatest of the old time and those of the acknowledged entries, and the end of the last one sent then. |
| `Karn.RackHearsSack` | src/tcp.rs:1730-1751 | SACK blocks mark exactly the covered entries and move the RACK record by the newly marked ones in the same way. |
| `Karn.KeepExactly` | src/tcp.rs:1673-1694 | The queue keeps exactly the entries the acknowledgement does not cover, in order and unchanged. |
| `Signals.SegmentTold` | src/tcp.rs:902-977 | What any segment tells the controller, the timer and the recovery point: new data with its round-trip sample (from the echoed timestamp, else by Karn), a partial ACK, a duplicate, or nothing. |
| `Episodes.RecoverExactly` | src/tcp.rs:961-975 | The recovery point moves to SND.NXT with an acceptable third duplicate in a row; every other segment and call keeps it. |
| `Episodes.ThirdDuplicateExactly` | src/tcp.rs:961-977 | The third duplicate: recovery point SND.NXT, the first hole resent at once, threshold 70% of the window (two segments at least, for windows up to 613566756), window the threshold and three segments, an episode under way. |
| `Episodes.EpisodeExactly` | src/tcp.rs:947-971 | An episode is under way after a call exactly if the call starts one or does not end the one there was, with the conditions for both. |
| `Episodes.EpisodeLasts` | src/tcp.rs:947-957 | Over every run of the two-endpoint system: an episode entered with SND.NXT = n is, while it lasts, ended by no acknowledgement below n. |
| `Episodes.CubicSegment` | src/congestion.rs:71-172 | The CUBIC controller after any segment, in numbers: deflation by the bytes of a partial ACK, exit at the threshold, one segment in slow start, the step towards the curve, the cut, the inflation; anything else leaves it alone. |
| `Episodes.CubicTick` | src/congestion.rs:148-155 | The CUBIC controller after any tick, in or out of an episode: if some entry times out that neither RACK nor the probe resends, one segment of window, the cut threshold, the old window remembered and no episode; otherwise untouched. |
| `CubicGrowth.AvoidsExactly` | src/congestion.rs:84-108 | Congestion avoidance in numbers: the distance to the curve over the window in segments, rounded down and at least a byte, or one segment per window above the curve; epoch and peak start with the first ACK. |
| `Timeouts.TickExactly` | src/tcp.rs:1129-1234 | Any tick in any state, on the state before it: which entries RACK, the tail probe and the RTO resend and how often each is counted, that controller and timer hear of a timeout exactly when one fires, and what persist and keepalive send and count. |
| `TailProbe.ArmedExactly` | src/tcp.rs:1356-1366 | A poll that leaves everything in flight arms the probe half an RTO ahead unless it is armed already; any other disarms it. |
| `TailProbe.TailIsProbed` | src/tcp.rs:1159-1173 | In every reachable state outside recovery: if a poll leaves everything in flight, a tick at the time set resends the last outstanding segment not SACKed. |
| `TailProbe.ProbedOnce` | src/tcp.rs:1159-1173 | No second probe is sent along any run without a new acknowledgement or a poll that finds no tail. |
| `Transmissions.PollExactly` | src/tcp.rs:1282-1368 | What a poll sends: in SACK recovery untried holes, lowest first, each re-stamped; then new segments that follow each other from SND.NXT, carry the first bytes of the send buffer and state RCV.NXT, window and clock, each queued as sent and as long as the room in the pipe (in recovery) or in the window, the segment size and the data left allow; nothing else of the queue is touched. |
| `Transmissions.PollStops` | src/tcp.rs:1328-1348 | Outside the recovery branch a poll stops only for want of data or room, for a short segment while something is in flight if Nagle is on, or for the pacing clock. |
| `Transmissions.LostExactly` | src/tcp.rs:1794-1805 | An entry is presumed lost exactly when it is not SACKed and three SACKed entries start after it. |
| `Transmissions.CloseExactly` | src/tcp.rs:671-687 | Closing sends and queues one FIN+ACK at SND.NXT. |
| `Pacing.PacedPoll` | src/tcp.rs:1338-1348 | Under a pacing rate a poll sends at most one segment, not before the time set, and sets the next time to the least millisecond by which its bytes are through at that rate. |
| `Pacing.PacedApart` | src/tcp.rs:1338-1348 | Over any run: between two paced polls that send, the rate of the first has had time for the bytes it sent. |
| `Handshake.ConnectExactly` | src/tcp.rs:551-612 | What an active open offers and where everything stands after it. |
| `Handshake.AcceptExactly` | src/tcp.rs:456-536 | A passive open is taken exactly on a SYN; segment size, scale, timestamps and SACK are adopted from any offer, and offered back exactly when adopted. |
| `Handshake.OpenedExactly` | src/tcp.rs:811-844 | What a SYN-ACK from any peer settles, and the ACK that answers it. |
| `Handshake.ThreeWay` | src/tcp.rs:456-844 | For all initial numbers, budgets and clocks: three segments delivered as sent open both ends, with matching numbers, empty queues, full-sized segments, SACK and timestamps on. |
| `Histories.TimerOfRun` | src/tcp.rs:915-945 | Over every run of a connection the timer is the one of the history it was told: the samples of its new acknowledgements and its timeouts, call by call. |
| `Histories.BbrOfRun` | src/congestion.rs:208-240 | Over every run after switching to BBR the controller is BBR after the events it was told, call by call, so the run theorems of `BbrModes` and `BbrModel` hold of it. |
| `Rfc6298.EstimatesFollow` | src/rtt.rs:32-47 | For every history: despite truncation SRTT stays within 7 ms and RTTVAR within 10 ms of the formulas of RFC 6298 in exact arithmetic. |
| `Rfc6298.TimeoutFollows` | src/rtt.rs:51-63 | For every history: 200 ms without a measurement, otherwise within 47 ms of SRTT + max(1, 4 RTTVAR) kept in [200 ms, 60 s]; then doubled for up to six timeouts in a row and capped at 60 s. |
| `BbrModel.MinimumStep` | src/bbr.rs:209-222 | The minimum round trip after any event: a sample is adopted exactly if there was none, it is no larger, or the estimate is more than ten seconds old. |
| `BbrModel.MinimumExactly` | src/bbr.rs:209-222 | Over every run there is no minimum exactly if no ACK carried a sample; otherwise it is the last sample adopted, smaller than every sample since, none of which came ten seconds after the refresh. |
| `BbrModel.RoundStep` | src/bbr.rs:224-245 | When a round starts, in terms of the minimum round trip, and what the delivery clock and the duplicate count become. |
| `BbrModel.RateInterval` | src/bbr.rs:235-245 | Over every run each delivery rate is taken over the time since the ACK before, and the first ACK yields none. |
| `BbrModel.GainsExactly` | src/bbr.rs:254-327 | Window gain, pacing gain, cycle phase and PROBE_RTT deadline after every ACK, by mode. |
| `BbrModel.PlateauStep` | src/bbr.rs:257-271 | The plateau detector: a reading of at least 1.25 times the record sets it, any other round counts as flat, and only STARTUP looks. |
| `BbrModel.LossKeepsModel` | src/bbr.rs:341-361 | A timeout starts the search over and keeps the model of the path; a duplicate changes nothing but its count. |
| `BbrModel.WindowFromSamples` | src/bbr.rs:329-339 | After every ACK of every run: four segments in PROBE_RTT, otherwise max(floor(gain * windowed-maximum rate * minimum round trip / 1000), 5840), at most 2^32 - 1. |
| `Overlaps.ArrivalDelivers` | src/reassembly.rs:46-85 | One arrival of any slice of the stream, overlapping what is delivered or buffered in any way: old ones change nothing, one that reaches RCV.NXT is trimmed and delivered to its end at least, one ahead is buffered unless more than 65536 ahead. |
| `Overlaps.DeliversBeginning` | src/reassembly.rs:46-85 | After any slices, in any order, overlapping in any way: what is delivered is the beginning of the stream, and everything buffered is where it belongs. |
| `Overlaps.DeliversWhatItReaches` | src/reassembly.rs:56-64 | In any such history, an arrival that starts at or below RCV.NXT is delivered to its end. |
| `Layout.OptionsExactly` | src/tcp.rs:101-150 | How any option bytes are read, kind by kind and number by number: padding, unknown kinds and wrong lengths skipped, end marker, truncated and overlong options ending it. |
| `Layout.BlobBytes` | src/tcp.rs:154-202 | The bytes of every option emitted. |
| `Layout.PacketLayout` | src/tcp.rs:1456-1505 | Every field of a built packet at its place in the IPv4 and TCP headers. |
| `Layout.PacketSums` | src/tcp.rs:1510-1519 | Both checksums of a built packet, over the header and over addresses, protocol, length and segment, come out zero. |
| `Layout.HeaderExactly` | src/ip.rs:38-66 | Which bytes are taken for an IPv4 header and what is read from them. |
| `Layout.TcpHeaderExactly` | src/tcp.rs:251-271 | Which bytes are taken for a TCP header and what is read from them. |

## Left out

- TUN I/O, the main loop, printing, `Instant`, sleeping and the blocking Read/Write veneer: plumbing.
- src/icmp.rs, src/udp.rs, src/http.rs, src/arp.rs, src/ethernet.rs: easy members or no relevant code.
- SYN cookies (src/tcp.rs:1523-1600 and `from_syn_cookie`): the strength of the hash is not a property of this model.
- `build_rst`, and segments of older incarnations of the same 4-tuple: not in the two-endpoint network.
- The single-connection listener (src/socket.rs:195-243): its accept is `Connection.Accept` behind the same filter.
- The exact cubic curve and cube root (src/congestion.rs:115-122): a parameter of at least one MSS.
- Floating point: BBR's rates and gains are `real`, so rounding, infinities and NaN are not modelled.
- 64-bit overflow of clocks and 32-bit overflow of the retry, duplicate-ACK and round counters: they are unbounded.
- `Server.TcpServer`: its table holds connections as values; one connection as an object is `TcpConnections.TcpConnection`. What is sent is kept per 4-tuple, because the interleaving of different connections depends on the hash map's iteration order.
- `TcpConnections.TcpConnection`: the options and timers are grouped in two record fields, and the congestion controller is a value in the connection; as objects updated in place the controllers are `Controllers.Cubic` and `Controllers.Bbr`.
- `RetxQueues.RetxQueue`: it queues segments as field records instead of bytes; `Emission.NetworkCarriesBytes` shows that the byte encoding loses nothing.
- Flow control in recovery: flight may exceed SND.WND there, because the code paces on the pipe.
- End of file covers the bytes transmitted, not those written: `close` sends the FIN with a non-empty send buffer.
- Which buffered bytes are delivered when future segments overlap each other partially: src/reassembly.rs:14-17 assumes they do not. `Overlaps` proves that delivery stays correct all the same, not that nothing is left behind in the buffer.
- Timestamps past 2^31 ms, where the 32-bit clock values wrap: `Timestamps.PawsSpares` stops there. Elsewhere they are arbitrary.
- Eventual delivery over infinite fair schedules: what is stated is that some continuation delivers (`Progress.SomeRunDelivers`), that a tick resends in time (`NoStall.ResentInTime`), and when no continuation can (`Delivery.StrandedExactly`).
- `Delivery.StrandedExactly`: speaks of the segment at RCV.NXT when it is the only one with its number and acknowledges nothing new; one that acknowledges something new is covered by `Progress.SomeRunDelivers` alone.
- `Progress.SomeRunDelivers`: also asks that less than 2^30 bytes are in flight the other way, so that an acknowledgement stays within half the circle of the lower edge of the test.
- `Delivery.StrandedForever`: a receiver that closes moves to FIN_WAIT_1, where the code does not read the acknowledgement range and takes the data in; closing is excluded in the statement.
- `NoStall.NeverStalls`: under BBR a poll may also wait for the pacing clock, and an idle CLOSE_WAIT may be reaped between the two ticks; both are excluded in the statement.
