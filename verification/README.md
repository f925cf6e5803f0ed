# Verification of the network stack

This project models the TCP offload engine under `hls/toe` of the HLS network stack, and the
IP layer below it (`hls/mac_ip_encode`, `hls/ip_handler`), in Dafny, and proves properties of
the model. `dafny verify dfyconfig.toml` checks everything.

The engine is a set of HLS functions with static variables that talk through bounded FIFOs.
Each module takes one cluster of them:

- a FIFO is a `seq`, a static variable a field, and a function one step of a state machine;
  the subsystem runs any interleaving of the steps, and a step that finds an input FIFO empty
  or an output FIFO full changes nothing;
- the steps are functions on a record of the state, about which the theorems are proved, and
  next to them stands a class with the source's static variables, whose methods update them in
  place and are proved to be those steps;
- `ap_uint` expressions widen and are truncated only on assignment. Every truncation is written
  as a remainder. Where pointers wrap, the record also keeps the unbounded stream offset that a
  pointer stands for, and the theorems are about the offsets;
- bytes travel in 64-bit words with a byte mask (`Axi`). `Burst(ws, p)` says that the words `ws`
  are one densely packed packet with the bytes `p`.

| module | what it models |
|---|---|
| `Toe`, `Axi`, `Ring` | sizes, states and shared FIFOs; words, masks and packets; 64 KiB rings and pointer arithmetic |
| `StateTable` | the lock manager for session states, its two clients and its timer |
| `SessionIds` | session IDs, the external lookup table and the reverse table |
| `RxRing`, `RxSarTable` | the receive window: from accepted segments to the bytes that the application reads |
| `Notifications` | what the application hears of data and closes, and in which order |
| `TxRing`, `TxTables` | the send window: from the application's bytes to the segments read from memory |
| `RxFsm` | the decisions of `rxTcpFSM` |
| `MetaLoader` | TX and RT events of `metaLoader`: which segments are sent |
| `RingSplit`, `RingJoin` | packets split at the end of a ring, and joined again |
| `Checksum` | the four-lane one's-complement sums |
| `TcpStrip`, `TcpCodec` | printing and parsing TCP packets |
| `Droppers` | the stages that forward or drop whole packets by verdicts from other FIFOs |
| `Verdicts` | payloads meeting their verdicts in the RX engine |
| `Events` | the event arbiter and delayed acknowledgements |
| `RetransmitTimer` | the scan of the timer table |
| `IpSums`, `MacIpEncode`, `IpHandler` | IP header checksums, the Ethernet frame around a packet, and the way back |

## Where the code differs from what one would expect

Each of these is proved, by an input that shows it or by the exact condition under which the
code does what one expects.

- `tx_app_if` writes SYN_SENT for every session that its lookup finds, without a look at the
  state. A peer that reached the port first has the session established, and the open request
  takes it back to SYN_SENT (`StateTable.OpenOverwrites`, exact: `StateTable.WritesFollowIff`).
- A SYN-ACK that is sent again names the fixed window of 65535 behind whatever is accepted. A
  peer that uses this window up to a FIN, which `rxTcpFSM` takes without a look at the free space,
  overwrites bytes that the application has not read (`RxRing.LateSynAckOverwrites`). The window
  and the delivery are kept if and only if every SYN-ACK that is sent again finds a FIN taken, or
  the application near enough behind (`RxRing.SynAckIff`, a condition for either).
- The advertised right edge of the receive window can move left: the application's pointer can
  reach the RX SAR table before the receive pointer of the same bytes
  (`RxRing.OvertakenWindow`), and after a SYN-ACK that was sent again the next window is smaller
  (`RxRing.LateSynAck`; exact for both, in terms of the pointers: `RxRing.RightEdgeIff`).
- On a simultaneous open the SYN of the peer makes 0 the acknowledged number of a line that our own
  SYN has initialised; the pointers are out of order until the SYN-ACK initialises the line again
  (`TxRing.SimultaneousOpen`). A FIN in order acknowledges any number without the test that an ACK
  has to pass: a late one takes the acknowledged number back (`TxRing.FinAcknowledges`). Exact for
  both: `TxRing.OrderIff`, and for one step `TxRing.AckMovesForward`.
- A close or reset without data is told to the application at once, ahead of data that is still
  being written (`Notifications.CloseOvertakes`, exact: `Notifications.OrderIff`).
- A repeated SYN with sequence number 0xFFFFFFFF is answered by a reset, because the sum in the
  comparison is 33 bits wide (`RxFsm.RepeatedSyn`).
- A reset in answer to a second SYN with data does not acknowledge the data
  (`RxFsm.ResetCoversSegment`).
- A fast retransmit never waits for the next segment; that branch of `rxTcpFSM` cannot be taken
  (`RxFsm.StateWrite`).
- Payloads and their verdicts are kept together by their order only. A verdict is sent if the
  length that the header makes is not zero, and words are sent if there are any behind the
  header. A corrupted data offset, a length field that does not fit the frame, or a payload with
  other flags than ACK or FIN and ACK puts every later payload with a wrong verdict, or has it
  written under a command of another length (`Verdicts.CorruptedOffset`,
  `Verdicts.VerdictForNext`, `Verdicts.StrayMisaligns`; exact: `Verdicts.AlignedIffFit`, in
  terms of the packet's bytes: `Verdicts.FitIff` and `TcpCodec.AnnouncedIff`).
- A set request for a session behind 9994 can drive the scan of the retransmit timer out of its
  table (`RetransmitTimer.HighSessionOverruns`, exact: `RetransmitTimer.SafeIffLow`).
- A reset for an unknown connection carries session 0 and settles an acknowledgement that is
  owed to session 0 (`Events.ForeignResetRun`, exact: `Events.ForeignResetSettles`).
- With seven or more words of IP header the IP handler does not look at the destination address:
  its second half is read from the end of the options (`IpHandler.OptionsMisdirect`, exact:
  `IpHandler.SeenIffRepeated`).
- A packet that ends before its total length, inside the word that holds its last byte, is
  lengthened with what stands in that word (`IpHandler.TruncatedGrows`, exact:
  `IpHandler.NothingAddedIff`).

## Model

| member | source | states |
|---|---|---|
| `StateTable.StepInv` | hls/toe/state_table/state_table.cpp:80-200 | every step of the table, its clients and its timer keeps the lock protocol: a lock holder's read value is the session's present state and its next request is the write that answers it |
| `StateTable.RunInv` | hls/toe/state_table/state_table.cpp:80-200 | the lock protocol holds in every state of every interleaving |
| `StateTable.NoLockCycle` | hls/toe/state_table/state_table.cpp:84-191 | in every run the two locks are on different sessions, the two deferred flags are not both set, and a holder's release is served and never deferred |
| `StateTable.StepRefines` | hls/toe/state_table/state_table.cpp:80-200 | each step changes the table as an atomic read-modify-write of one session does: a state replaced under a lock is the one its client was told, and the new one is an arrow for that client or an expiry; the unlocked write of an opening connection replaces whatever is there, and the commit names it |
| `StateTable.RunRefines` | hls/toe/state_table/state_table.cpp:80-200 | whole runs of the deferred-request machine are runs of an atomic per-session map whose commits carry the replaced and the new state, for every interleaving |
| `StateTable.WritesFollowIff` | hls/toe/tx_app_if/tx_app_if.cpp:94-147 | every state written by any client or timer in a run follows the diagram of section 3.3.2 of RFC 9293 if and only if each opening write is served while its session is CLOSED |
| `StateTable.OpenOverwrites` | hls/toe/tx_app_if/tx_app_if.cpp:97-112 | a run from the start in which a peer establishes the session and the open request then puts SYN_SENT over ESTABLISHED |
| `StateTable.TxLockedStateIsStable` | hls/toe/tx_app_if/tx_app_if.cpp:94-147 | between the reply to the locking read of `tx_app_if` and its write no other client and no timer changes the session |
| `StateTable.RxLockedStateIsStable` | hls/toe/rx_engine/rx_engine.cpp:747-1141 | the same for `rxTcpFSM` |
| `StateTable.FinWait2IsUnreachable` | hls/toe/rx_engine/rx_engine.cpp:1053-1071 | no run of the table with both clients ever stores FIN_WAIT_2 |
| `StateTable.SessionStates.StateTable` | hls/toe/state_table/state_table.cpp:80-200 | one call of `state_table` on its static variables and array is the table's step, with the source's priorities and deferrals |
| `StateTable.SessionStates.RetryParked` | hls/toe/state_table/state_table.cpp:152-200 | the second half of the call, in which a deferred request is retried |
| `StateTable.SessionStates.TakeTxRequest` | hls/toe/state_table/state_table.cpp:81-103 | a request of the application side is served, or deferred if the RX side holds the session |
| `StateTable.SessionStates.TakeRxRequest` | hls/toe/state_table/state_table.cpp:111-136 | a request of the RX side is served, or deferred if the application side holds the session |
| `StateTable.SessionStates.TakeTimerRelease` | hls/toe/state_table/state_table.cpp:138-151 | a release by a timer closes the session, or waits for its locks |
| `StateTable.SessionStates.OpenConnection` | hls/toe/tx_app_if/tx_app_if.cpp:97-112 | opening a connection writes SYN_SENT without a lock |
| `StateTable.SessionStates.CloseConnection` | hls/toe/tx_app_if/tx_app_if.cpp:123-128 | a close request starts with a locking read |
| `StateTable.SessionStates.FinishClose` | hls/toe/tx_app_if/tx_app_if.cpp:130-146 | the releasing write: FIN_WAIT_1 where a FIN may be sent, otherwise the state that was read |
| `SessionIds.StepInv` | hls/toe/session_lookup_controller/session_lookup_controller.cpp:39-294 | every step of the five functions and of the external table keeps the bookkeeping of IDs and connections |
| `SessionIds.EveryIdHasOnePlace` | hls/toe/session_lookup_controller/session_lookup_controller.cpp:39-59 | in every state of every run each ID is in exactly one place: not issued, free, in an insertion, valid, being deleted or being given back |
| `SessionIds.LookupTableIsInjective` | hls/toe/toe_tb.cpp:42-76 | the lookup table never maps two connections to one ID |
| `SessionIds.TablesAgree` | hls/toe/session_lookup_controller/session_lookup_controller.cpp:266-293 | the reverse entry of a valid session is the connection that the lookup table maps to it; a pair of the lookup table that is not valid is on its way in or out |
| `SessionIds.FreeIdsAreUnused` | hls/toe/session_lookup_controller/session_lookup_controller.cpp:39-59 | an ID that may be given out belongs to no connection that is valid, in flight or about to become valid |
| `SessionIds.UsedCountsTheTable` | hls/toe/session_lookup_controller/session_lookup_controller.cpp:192-218 | the 16-bit session counter is the size of the lookup table once the queued updates are applied, and at most MAX_SESSIONS |
| `SessionIds.ReverseAnswerLooksUp` | hls/toe/session_lookup_controller/session_lookup_controller.cpp:285-293 | the connection that a reverse lookup gives for a session is one whose lookup gives the session back |
| `SessionIds.LookupController.SessionIdManager` | hls/toe/session_lookup_controller/session_lookup_controller.cpp:39-59 | an ID given back is passed on before a fresh one of the counter |
| `SessionIds.LookupController.LookupReplyHandler` | hls/toe/session_lookup_controller/session_lookup_controller.cpp:79-189 | requests of both engines, creation of a session on a miss, and the answer once the insertion is acknowledged |
| `SessionIds.LookupController.UpdateRequestSender` | hls/toe/session_lookup_controller/session_lookup_controller.cpp:192-218 | insertions before deletions, with the count and the ID given back |
| `SessionIds.LookupController.UpdateReplyHandler` | hls/toe/session_lookup_controller/session_lookup_controller.cpp:221-243 | only the replies to insertions are passed on |
| `SessionIds.LookupController.ReverseLookupTableInterface` | hls/toe/session_lookup_controller/session_lookup_controller.cpp:245-294 | the reverse table and its valid bits updated in place, a release answered by a deletion if the session is valid |
| `RingSplit.SplitIsExact` | hls/toe/rx_engine/rx_engine.cpp:1284-1410 | for every start address, length, packet and stall pattern: the bursts written have the commanded lengths, carry exactly the packet and do not cross the end of the ring; a packet of n words needs at most n + 4 open cycles |
| `RingSplit.CommandsFitTheRing` | hls/toe/tx_app_stream_if/tx_app_stream_if.cpp:165-191 | the one or two commands stay inside the ring and add up to the packet; two if and only if the packet runs over the end |
| `RingSplit.StepProgress` | hls/toe/rx_engine/rx_engine.cpp:1299-1409 | a cycle stalls or brings the packet nearer to its end, and an open cycle never stalls |
| `RingSplit.NextJob` | hls/toe/rx_engine/rx_engine.cpp:1299-1320 | a finished writer is ready for the next packet in its input |
| `RingSplit.DropStep` | hls/toe/tx_app_stream_if/tx_app_stream_if.cpp:164-232 | a packet that `tasi_metaLoader` refused is consumed whole and writes nothing |
| `RingSplit.MemWriter.RxEngMemWrite` | hls/toe/rx_engine/rx_engine.cpp:1284-1410 | one cycle of the writer on its static variables is the splitter's step |
| `RingSplit.MemWriter.WriteFirstWord` | hls/toe/tx_app_stream_if/tx_app_stream_if.cpp:192-232 | a word of the first burst, cut at the end of the ring |
| `RingSplit.MemWriter.WriteSecondWord` | hls/toe/rx_engine/rx_engine.cpp:1378-1400 | a word of the second burst, realigned with the bytes left over, truncated to eight bytes |
| `RingJoin.BreakStepInv` | hls/toe/toe.cpp:213-243 | for every stall pattern the read commands issued are those of the reads taken, at most the last second half missing |
| `RingJoin.JoinIsExact` | hls/toe/toe.cpp:247-375 | for every pair of bursts and every stall pattern, the reader puts out one densely packed packet with the bytes of both bursts in order |
| `RingJoin.SplitThenJoin` | hls/toe/toe.cpp:213-375 | joining what the writer wrote for a packet gives a packet with the same bytes |
| `RingJoin.MemReader.RxAppMemAccessBreakdown` | hls/toe/toe.cpp:213-243 | one cycle of `rxAppMemAccessBreakdown` on its static variables |
| `RingJoin.MemReader.RxAppMemDataRead` | hls/toe/toe.cpp:247-375 | one cycle of `rxAppMemDataRead` on its static variables |
| `RxRing.StepInv` | hls/toe/rx_engine/rx_engine.cpp:840-866 | every step of the receive path keeps the pointers, the windows and the pending memory commands right as long as each segment with something new at the receive pointer lies inside some window that was advertised, the one of a repeated SYN-ACK included, and nothing follows a FIN |
| `RxRing.ContentsStep` | hls/toe/rx_engine/rx_engine.cpp:840-1084 | and the contents of the ring, if a FIN with its payload finds room in it; data without a FIN always does |
| `RxRing.DeliveredIsPrefix` | hls/toe/rx_app_stream_if/rx_app_stream_if.cpp:63-92 | in every interleaving, across any number of turns of the ring, the bytes given to the application are a prefix of the payload that was accepted, if the peer stays inside the advertised windows and every SYN-ACK that is sent again finds a FIN taken or at most two unrequested bytes acknowledged |
| `RxRing.ReadsFindTheirBytes` | hls/toe/rx_engine/rx_engine.cpp:1222-1267 | under the same two conditions no byte is read before it is written or after it is overwritten |
| `RxRing.FreeSpaceIsExact` | hls/toe/rx_engine/rx_engine.cpp:842-848 | if the peer stays inside the advertised windows and every SYN-ACK that is sent again finds a FIN taken or the application's pointer level with the receive pointer, the true distance of the pointers is at most 65535 and the 16-bit free space is the true one |
| `RxRing.SynAckIff` | hls/toe/tx_engine/tx_engine.cpp:503-530 | exactly: for every run of a peer that stays inside the advertised windows, either of these conditions on the SYN-ACKs holds if and only if, however the peer goes on after any part of the run, the distance of the pointers stays at most 65535, or what is delivered stays a prefix of what was accepted |
| `RxRing.LateSynAckOverwrites` | hls/toe/rx_engine/rx_engine.cpp:1014-1084 | for all sequence numbers and ring contents, a run from the start in which three bytes are received, the SYN-ACK is sent again, the peer uses its window up to a FIN, and the application reads a wrong byte first |
| `RxRing.WindowIsExact` | hls/toe/tx_engine/tx_engine.cpp:234-237 | in every run of a peer that stays inside the advertised windows, the advertised edge is 65535 past the application's pointer if and only if that pointer is neither ahead of the table's receive pointer nor a ring behind it |
| `RxRing.RightEdgeIff` | hls/toe/tx_engine/tx_engine.cpp:452-530 | section 3.8.6 of RFC 9293, exactly, for every run of a peer that stays inside the advertised windows: the advertised right edge never moves left if and only if no window is computed while the application's pointer is ahead of the table's receive pointer, or behind what an earlier SYN-ACK took it for |
| `RxRing.RightEdgeNeverMovesLeft` | hls/toe/tx_engine/tx_engine.cpp:357-369 | for such a peer: if the table takes every receive pointer before the application is told of the bytes and no SYN-ACK is sent again while the application has bytes to ask for, ack number plus window never moves left, and it is the edge that the words on the wire name |
| `RxRing.OvertakenWindow` | hls/toe/rx_sar_table/rx_sar_table.cpp:62-97 | a run from the start of a connection in which the right edge does move left |
| `RxRing.LateSynAck` | hls/toe/tx_engine/tx_engine.cpp:503-530 | a run in which a SYN-ACK sent again behind accepted data names an edge that the next window does not reach |
| `RxSarTable.TickIsSessionStep` | hls/toe/rx_sar_table/rx_sar_table.cpp:62-97 | a tick of the table for all sessions, with the source's priorities, is for each session one step of the machine in `RxRing` or none; a read of the TX engine is an advertisement or a SYN-ACK that is sent again, whichever it is for |
| `RxSarTable.TxReadsEntry` | hls/toe/tx_engine/tx_engine.cpp:234-237 | the entry that the TX engine reads is the one from which either step takes the number and the window that are sent |
| `RxSarTable.InitIsServed` | hls/toe/rx_sar_table/rx_sar_table.cpp:85-91 | the initialising write for a SYN sets both pointers, and the session is the start of the machine in `RxRing` |
| `RxSarTable.RxSar.Cycle` | hls/toe/rx_sar_table/rx_sar_table.cpp:62-97 | one cycle on the array `rx_table` |
| `RxSarTable.RxAppStreamIf.Cycle` | hls/toe/rx_app_stream_if/rx_app_stream_if.cpp:63-92 | one cycle: a request of no bytes is ignored, any other becomes a read command and a pointer update |
| `Notifications.OrderIff` | hls/toe/rx_engine/rx_engine.cpp:1222-1267 | for every interleaving: the application hears of data, closes and resets in the order of the segments if and only if no notification without data is read while one with data waits for its write |
| `Notifications.DataInOrder` | hls/toe/rx_engine/rx_engine.cpp:1222-1267 | in every run the notifications of data stay in order among themselves, and none is lost or told twice |
| `Notifications.CloseOvertakes` | hls/toe/rx_engine/rx_engine.cpp:1258-1266 | a run in which a close is told before the data in front of it |
| `Notifications.NotificationDelayer.ClockCycle` | hls/toe/rx_engine/rx_engine.cpp:1222-1267 | one cycle of `rxAppNotificationDelayer` on its static variables |
| `Notifications.NotificationDelayer.ReadNotification` | hls/toe/rx_engine/rx_engine.cpp:1258-1266 | a notification that is read waits if it has data and is told at once if not |
| `TxRing.StepInv` | hls/toe/tx_sar_table/tx_sar_table.cpp:65-146 | every step of the send path keeps the pointers, their copies, the pending writes and the ring right, unless the table takes a number for a SYN or a FIN of the peer that lies outside the interval from ackd to not_ackd |
| `TxRing.PointersInOrder` | hls/toe/tx_sar_table/tx_sar_table.cpp:65-146 | in every reachable state before our FIN is sent: ackd <= not_ackd <= app <= written <= mempt and mempt - ackd <= 65535 in true offsets, for which the 16 and 32 bits stand, unless a number outside the interval was written for a SYN or a FIN of the peer since the line was last initialised |
| `TxRing.OrderIff` | hls/toe/rx_engine/rx_engine.cpp:936-1084 | exactly: this order is kept over a whole run if and only if every number that the table takes for a SYN or a FIN of the peer lies in the interval from ackd to not_ackd |
| `TxRing.SimultaneousOpen` | hls/toe/rx_engine/rx_engine.cpp:936-951 | for every initial number: after our SYN the SYN of the peer puts the pointers out of order, unless that number is 0 or 0xFFFFFFFF, and the SYN-ACK puts them right again |
| `TxRing.FinAcknowledges` | hls/toe/rx_engine/rx_engine.cpp:1014-1084 | in every reachable state a FIN in order writes the number that it acknowledges, whatever it is, and the order is kept if and only if that number lies in the interval |
| `TxRing.UnackedBytesAreKept` | hls/toe/tx_app_stream_if/tx_app_stream_if.cpp:97-127 | no accepted write overwrites an unacknowledged byte, unless a number outside the interval was written for a SYN or a FIN of the peer since the line was last initialised |
| `TxRing.SegmentsCarryTheStream` | hls/toe/tx_engine/tx_engine.cpp:244-325 | a segment of a TX or RT event covers only bytes whose memory writes are done, and every byte of it not yet acknowledged is right, unless a number outside the interval was written for a SYN or a FIN of the peer since the line was last initialised |
| `TxRing.AcceptedIffItFits` | hls/toe/tx_app_stream_if/tx_app_stream_if.cpp:97-127 | a write is accepted if and only if the session is established and the data fits the space left by what the table knows to be unacknowledged, unless a number outside the interval was written for a SYN or a FIN of the peer since the line was last initialised |
| `TxRing.AckMovesForward` | hls/toe/tx_sar_table/tx_sar_table.cpp:86-146 | after every such run, for every step but an initialisation: no pointer of the table moves back and the acknowledged one does not pass the sent one, if and only if the step does not take a number for a SYN or a FIN from outside the interval |
| `TxRing.AckTestIsCircular` | hls/toe/rx_engine/rx_engine.cpp:833-837 | the test accepts exactly the numbers in the circular interval from ackd to not_ackd modulo 2^32 |
| `TxRing.AckTestIsInterval` | hls/toe/rx_engine/rx_engine.cpp:833-837 | in true offsets: accepted if and only if the number is not past what is sent |
| `TxTables.SarTickIsSessionStep` | hls/toe/tx_sar_table/tx_sar_table.cpp:65-146 | a tick of `tx_sar_table` for all sessions, on whole entries with their window, congestion and FIN fields, with the source's priorities and widths, is for each session's pointers one step of the machine in `TxRing` or none |
| `TxTables.AppTickIsSessionStep` | hls/toe/tx_app_interface/tx_app_interface.cpp:163-204 | the same for `tx_app_table`, acknowledgements first |
| `TxTables.InitIsServed` | hls/toe/tx_sar_table/tx_sar_table.cpp:72-85 | the initialising write sets the pointers from the number of the SYN, with its wrap-around, and the first congestion window and threshold, and tells `tx_app_table`, whatever the line was and whatever is still on its way to `tx_app_table` |
| `TxTables.StartIsShown` | hls/toe/tx_app_interface/tx_app_interface.cpp:176-188 | whatever other sessions do, the tables stay like that until `tx_app_table` takes the last push of the session, and then the session is the start of the machine in `TxRing` |
| `TxTables.TxTableArrays.TxSarTable` | hls/toe/tx_sar_table/tx_sar_table.cpp:65-146 | one cycle on the array `tx_table` |
| `TxTables.TxTableArrays.TxAppTable` | hls/toe/tx_app_interface/tx_app_interface.cpp:163-204 | one cycle on the array `app_table` |
| `TxTables.TxAppStatusHandler.Cycle` | hls/toe/tx_app_interface/tx_app_interface.cpp:81-160 | one cycle: a TX event is handed on after one write status, or after two if its bytes run over the end of the ring |
| `TxTables.TasiMetaLoader.TakeRequest` | hls/toe/tx_app_stream_if/tx_app_stream_if.cpp:85-96 | a request asks for the session's pointers |
| `TxTables.TasiMetaLoader.DecideRequest` | hls/toe/tx_app_stream_if/tx_app_stream_if.cpp:97-128 | no connection, no space, or an accepted write with its event and its new pointer |
| `RxFsm.StateWrite` | hls/toe/rx_engine/rx_engine.cpp:781-1141 | every transition writes the session's state exactly once, along the diagram of section 3.3.2 of RFC 9293 (LISTEN merged into CLOSED); ESTABLISHED is new only if our SYN is acknowledged; the close timer is set exactly on entry to TIME_WAIT; no fast retransmit is left pending |
| `RxFsm.CloseTimerPerEntry` | hls/toe/rx_engine/rx_engine.cpp:1053-1071 | over the whole life of a session, whatever segments, close requests, expiries and opens come, the close timer is set once for every entry to TIME_WAIT |
| `RxFsm.EstablishedIsAcked` | hls/toe/rx_engine/rx_engine.cpp:895-999 | a session that was not ESTABLISHED and is now has received a segment in between that acknowledged our SYN in the state it was in |
| `RxFsm.OneVerdict` | hls/toe/rx_engine/rx_engine.cpp:840-930 | a payload gets one drop verdict if the flags are ACK or FIN and ACK, and none otherwise |
| `RxFsm.ForwardedIsCommanded` | hls/toe/rx_engine/rx_engine.cpp:840-876 | a payload let through has one write command and one notification of its length, and the receive pointer moves behind it; a dropped one has none |
| `RxFsm.RepeatedSyn` | hls/toe/rx_engine/rx_engine.cpp:953-967 | the repetition of the same SYN is recognised if and only if its sequence number is not 0xFFFFFFFF |
| `RxFsm.AckedIsInInterval` | hls/toe/rx_engine/rx_engine.cpp:833-837 | the acknowledged pointer is written if and only if the number lies in the circular interval, and then with that number |
| `RxFsm.PayloadIsRxRing` | hls/toe/rx_engine/rx_engine.cpp:840-876 | the payload branches write the pointer and the command exactly when and as the machine in `RxRing` does |
| `RxFsm.AckIsTxRing` | hls/toe/rx_engine/rx_engine.cpp:784-1084 | what every transition writes to the TX SAR table, and whether it writes, is what the machine in `TxRing` queues from the same pointers: after the test for an ACK, after the test for equality for a SYN and ACK, without a test for a FIN in order, and 0 for a SYN |
| `RxFsm.CongestionBounds` | hls/toe/rx_engine/rx_engine.cpp:801-832 | from the TX initialisation to the next SYN, for every interleaving, the congestion window stays in 14600 to 65535 and the threshold in 2920 to 65535 without wrapping |
| `RxFsm.InitialCongestion` | hls/toe/tx_sar_table/tx_sar_table.cpp:76-85 | the initial values are within these bounds |
| `RxFsm.HandshakeSynchronises` | hls/toe/rx_engine/rx_engine.cpp:936-999 | the receive pointer is initialised, one past the SYN, exactly in the step in which a session leaves CLOSED or SYN_SENT for SYN_RECEIVED or ESTABLISHED |
| `RxFsm.ResetCoversSegment` | hls/toe/rx_engine/rx_engine.cpp:922-1005 | a reset acknowledges the whole segment that it answers if and only if that is not a SYN with data |
| `RxFsm.FastRetransmitOnce` | hls/toe/rx_engine/rx_engine.cpp:801-892 | section 3.2 of RFC 5681: however many acknowledgements repeat the last one, with or without data, there is exactly one fast retransmit, when as many as the parameter says came without data (limits up to 62) |
| `RxFsm.CountWraps` | hls/toe/rx_engine/rx_engine.cpp:804-816 | the 6-bit counter of repetitions wraps if and only if the limit is 63 |
| `RxFsm.GrowOk` | hls/toe/rx_engine/rx_engine.cpp:820-830 | growing neither wraps nor shrinks the window |
| `RxFsm.ThresholdIs` | hls/toe/tx_engine/tx_engine.cpp:382-393 | section 3.1 of RFC 5681: the threshold after a loss is the larger of two segments and half the flight size |
| `RxFsm.RxTcpFsm.Step` | hls/toe/rx_engine/rx_engine.cpp:781-1141 | case TRANSITION on the static variables emits exactly the writes of the specified transition |
| `RxFsm.RxTcpFsm.ProcessAck` | hls/toe/rx_engine/rx_engine.cpp:784-921 | flags ACK in a state that processes acknowledgements |
| `RxFsm.RxTcpFsm.RefuseAck` | hls/toe/rx_engine/rx_engine.cpp:922-933 | flags ACK in any other state |
| `RxFsm.RxTcpFsm.ProcessSyn` | hls/toe/rx_engine/rx_engine.cpp:936-978 | flags SYN |
| `RxFsm.RxTcpFsm.ProcessSynAck` | hls/toe/rx_engine/rx_engine.cpp:979-1013 | flags SYN and ACK |
| `RxFsm.RxTcpFsm.ProcessFin` | hls/toe/rx_engine/rx_engine.cpp:1014-1084 | flags FIN and ACK |
| `RxFsm.RxTcpFsm.ProcessOther` | hls/toe/rx_engine/rx_engine.cpp:1085-1140 | resets and all other flags |
| `MetaLoader.TxRunIsPlan` | hls/toe/tx_engine/tx_engine.cpp:220-343 | the self-loop of a TX event terminates, and what it sends is the plan for the queued data and the usable window |
| `MetaLoader.PlanIsSound` | hls/toe/tx_engine/tx_engine.cpp:244-325 | the plan is contiguous, has full segments but for the last, a short one only when nothing is outstanding, and takes all that fits |
| `MetaLoader.TxEvent` | hls/toe/tx_engine/tx_engine.cpp:220-342 | one TX event sends contiguous segments from not_ackd on, at most MSS each, in total at most the queued data and the usable window, under the rule of section 3.7.4 of RFC 9293; data left behind has the probe timer set |
| `MetaLoader.RtRunIsChop` | hls/toe/tx_engine/tx_engine.cpp:345-443 | the self-loop of an RT event terminates and chops what is outstanding into segments |
| `MetaLoader.RtEvent` | hls/toe/tx_engine/tx_engine.cpp:345-443 | one RT event sends what is outstanding again from the oldest unacknowledged byte on, at most four segments |
| `MetaLoader.TxTickIsSend` | hls/toe/tx_engine/tx_engine.cpp:244-325 | a cycle of a TX event is a send step of the machine in `TxRing` |
| `MetaLoader.RtTickIsSend` | hls/toe/tx_engine/tx_engine.cpp:395-443 | a cycle of an RT event is a send step of the machine in `TxRing` |
| `MetaLoader.Registers.TransmitCycle` | hls/toe/tx_engine/tx_engine.cpp:220-343 | one cycle of case TX on the static variables |
| `MetaLoader.Registers.RetransmitCycle` | hls/toe/tx_engine/tx_engine.cpp:345-443 | one cycle of case RT on the static variables |
| `Checksum.LanesRefineRfc1071` | hls/toe/tx_engine/tx_engine.cpp:1091-1147 | refinement: the four folded 17-bit lanes of a packet never overflow and combine to the sum of section 1 of RFC 1071 |
| `Checksum.RxAcceptsAllOnes` | hls/toe/rx_engine/rx_engine.cpp:434-461 | the receiver accepts a packet if and only if its sum is all ones, and its registers are clear for the next one |
| `Checksum.InsertedChecksumIsValid` | hls/toe/tx_engine/tx_engine.cpp:1128-1147 | the complemented sum written into the zeroed field makes the sum all ones |
| `Checksum.SentPacketIsAccepted` | hls/toe/rx_engine/rx_engine.cpp:387-461 | whatever packet carries the sender's bytes with the sender's checksum is accepted |
| `Checksum.OneWordChange` | hls/toe/rx_engine/rx_engine.cpp:434-461 | a change of one aligned 16-bit word of an accepted packet is overlooked exactly when it swaps 0x0000 and 0xFFFF and leaves a non-zero sum |
| `Checksum.LaneRegisters.AddWord` | hls/toe/tx_engine/tx_engine.cpp:1091-1120 | the lane loop over a word, in place |
| `Checksum.LaneRegisters.CheckState` | hls/toe/rx_engine/rx_engine.cpp:421-475 | the checking states after the last word |
| `TcpStrip.Extracted` | hls/toe/rx_engine/rx_engine.cpp:43-169 | on a whole packet, with options of any length or none, the first stage puts out the addresses, a gap, what is behind the IP header packed from its first byte on, and the segment length |
| `TcpStrip.Inserted` | hls/toe/rx_engine/rx_engine.cpp:178-248 | the second stage puts the protocol and the length in and shifts the rest back |
| `TcpStrip.StripsPacket` | hls/toe/rx_engine/rx_engine.cpp:43-248 | both stages in sequence on such a packet, and both ready for the next one |
| `TcpStrip.ShiftTwice` | hls/toe/rx_engine/rx_engine.cpp:107-248 | the two half-word shifts undo each other |
| `TcpStrip.StrippedBytes` | hls/toe/rx_engine/rx_engine.cpp:178-248 | what leaves is the addresses, the protocol and the length, and then every byte of the segment, densely packed |
| `TcpStrip.PacketIsStripped` | hls/toe/rx_engine/rx_engine.cpp:43-248 | in terms of the IP packet: its bytes 12 to 19, the pseudo header's protocol and length, and everything behind its header of 5 to 15 words |
| `TcpStrip.LengthExtractor.Cycle` | hls/toe/rx_engine/rx_engine.cpp:43-169 | one cycle of `rxTcpLengthExtract` on its static variables |
| `TcpCodec.ParsesPacket` | hls/toe/rx_engine/rx_engine.cpp:265-486 | on a whole packet with any data offset the verdict is the checksum's, the fields are handed on from their places, the payload's words start where the offset says, and there is a flag if and only if the computed length is not zero |
| `TcpCodec.PayloadIs` | hls/toe/rx_engine/rx_engine.cpp:347-431 | with a nonzero length the words carry exactly the bytes behind the header that the data offset names, re-aligned by half a word if need be |
| `TcpCodec.AnnouncedIff` | hls/toe/rx_engine/rx_engine.cpp:325-431 | the words are a packet of as many bytes as the length says, and none for the length zero, if and only if the length field is that of the header and of the bytes behind it, or says that there are none where at most four are left in a half word |
| `TcpCodec.OptionsAreSkipped` | hls/toe/rx_engine/rx_engine.cpp:347-387 | for every data offset of five or more inside a segment whose length field is right the options are skipped and the payload's bytes are exactly those behind them |
| `TcpCodec.ReceivedIsValid` | hls/toe/rx_engine/rx_engine.cpp:434-461 | every packet that the TX engine prints passes the checksum test |
| `TcpCodec.StitchesPacket` | hls/toe/tx_engine/tx_engine.cpp:1192-1268 | `pkgStitcher` puts the printed packet together from its header, its summed words and its checksum |
| `TcpCodec.RoundTrip` | hls/toe/tx_engine/tx_engine.cpp:687-882 | print and parse undo each other: every packet built by the TX engine, SYN or not, is accepted and yields the same numbers, flags, window, ports, addresses, length and payload bytes, for every payload length; the option of a SYN is skipped |
| `TcpCodec.SynIsSegmented` | hls/toe/tx_engine/tx_engine.cpp:869-878 | the option of a SYN is a packed segment of four bytes, so that `RoundTrip` covers SYNs |
| `TcpCodec.HeaderPrinter.IpHeaderCycle` | hls/toe/tx_engine/tx_engine.cpp:687-750 | one cycle of `ipHeaderConstruction` on its static variables |
| `TcpCodec.HeaderPrinter.PseudoHeaderCycle` | hls/toe/tx_engine/tx_engine.cpp:755-886 | one cycle of `pseudoHeaderConstruction` on its static variables, with the fifth word of a SYN |
| `TcpCodec.TcpChecker.Cycle` | hls/toe/rx_engine/rx_engine.cpp:265-486 | one cycle of `rxCheckTCPchecksum` on its static variables |
| `Droppers.DropperIsPass` | hls/toe/rx_engine/rx_engine.cpp:497-547 | word by word a dropper lets through exactly what its verdicts say, one unit up to a last word per verdict, whatever words and verdicts it is given |
| `Droppers.InvalidDropper.Cycle` | hls/toe/rx_engine/rx_engine.cpp:497-547 | one cycle of `rxTcpInvalidDropper`, and of `ip_invalid_dropper` |
| `Droppers.PackageDropper.Cycle` | hls/toe/rx_engine/rx_engine.cpp:1152-1213 | one cycle of `rxPackageDropper` |
| `Verdicts.AlignedIffFit` | hls/toe/rx_engine/rx_engine.cpp:1152-1213 | exact: for packets as the parser sends them, the payloads that go to memory are those whose own verdicts let them through, each with one write command of its number of bytes, after every part of the run and whatever fitting packets follow, if and only if every packet fits: words exist exactly with a length, its flags get a verdict, and a payload that is taken has the length announced |
| `Verdicts.VerdictsAlign` | hls/toe/rx_engine/rx_engine.cpp:600-694 | if every packet fits, every payload meets its own three verdicts and each forwarded one has its write command, in order |
| `Verdicts.CommandsMatch` | hls/toe/rx_engine/rx_engine.cpp:840-876 | packets whose verdicts let them through and write commands agree one by one, for any run |
| `Verdicts.InStep` | hls/toe/rx_engine/rx_engine.cpp:1152-1213 | fitting packets leave the four FIFOs in step: the packets behind them are treated as if they were the first ones |
| `Verdicts.FitIff` | hls/toe/rx_engine/rx_engine.cpp:325-476 | for a received packet, from its bytes: it fits if and only if words are behind its header exactly when it has a length, the flags are ACK or FIN and ACK if it has one, and the length is the number of these bytes if it is taken |
| `Verdicts.RightHeaderFits` | hls/toe/rx_engine/rx_engine.cpp:325-431 | a segment whose header is inside it and whose length field is right fits unless it has a payload on other flags than ACK or FIN and ACK |
| `Verdicts.CorruptedOffset` | hls/toe/rx_engine/rx_engine.cpp:325-476 | a plain acknowledgement with a data offset corrupted to more than five: its length wraps, no word is sent, and the good payload that follows is dropped |
| `Verdicts.VerdictForNext` | hls/toe/rx_engine/rx_engine.cpp:459-476 | any verdict without words drops the good payload that follows |
| `Verdicts.StrayMisaligns` | hls/toe/rx_engine/rx_engine.cpp:1085-1140 | a payload on flags without a verdict is forwarded with the verdict of the next payload, which is stuck |
| `Verdicts.BadForGood` | hls/toe/rx_engine/rx_engine.cpp:459-547 | a length without words and without a second verdict: of the next two packets the one with the wrong checksum is forwarded and the good one is not |
| `Verdicts.DroppersForward` | hls/toe/rx_engine/rx_engine.cpp:497-547 | both droppers in sequence, word by word, for any run of packets |
| `Events.StepInv` | hls/toe/event_engine/event_engine.cpp:76-115 | every step keeps the 8-bit counters apart by what is in the two FIFOs, and the table in step with what is owed |
| `Events.LowPriorityWaits` | hls/toe/event_engine/event_engine.cpp:76-115 | in spite of the 8-bit counters an event of a timer or the application is forwarded only when the event FIFO and its read-count FIFO are both empty |
| `Events.TableIsOwed` | hls/toe/ack_delay/ack_delay.cpp:48-86 | in every run a line of `ack_table` is nonzero if and only if an acknowledgement was absorbed since the last event sent for the session |
| `Events.OwedAckLeavesSoon` | hls/toe/ack_delay/ack_delay.cpp:68-86 | in every run from the start, whatever events, engine cycles and reads come in between, an owed acknowledgement leaves, by itself or with another event of its session, before more idle ticks have passed than the scan is away from the session, if these ticks find room |
| `Events.ForeignResetSettles` | hls/toe/ack_delay/ack_delay.cpp:60-66 | in every reachable state, for every session: what is owed to it is settled by an event that is not its own if and only if that event is a reset without a session and the session is number 0 |
| `Events.ForeignResetRun` | hls/toe/toe.hpp:405-413 | a run from the start in which it happens: nothing is owed to session 0 any more although nothing was sent for it |
| `Events.AckDelay.Accept` | hls/toe/ack_delay/ack_delay.cpp:48-67 | an event: an acknowledgement is absorbed, anything else sent on and its line cleared |
| `Events.AckDelay.Tick` | hls/toe/ack_delay/ack_delay.cpp:68-86 | a tick of the scan on the array `ack_table`, with exactly what it sends |
| `Events.EventEngine.Cycle` | hls/toe/event_engine/event_engine.cpp:76-115 | one cycle of the arbiter on its counters |
| `RetransmitTimer.RetriesAreEvents` | hls/toe/retransmit_timer/retransmit_timer.cpp:80-190 | in every run that stays inside the table `retries` is the number of events fired since the last clear or abort, and at most four |
| `RetransmitTimer.FifthExpiryAborts` | hls/toe/retransmit_timer/retransmit_timer.cpp:153-186 | in such a run, after four events the next expiry fires none; it releases the session once and notifies exactly one side |
| `RetransmitTimer.LowSessionsAreSafe` | hls/toe/retransmit_timer/retransmit_timer.cpp:99-125 | with session IDs up to MAX_SESSIONS - 6 every table access of every run is in range |
| `RetransmitTimer.HighSessionOverruns` | hls/toe/retransmit_timer/retransmit_timer.cpp:99-125 | any one session behind that bound can drive the scan out of the table |
| `RetransmitTimer.SafeIffLow` | hls/toe/retransmit_timer/retransmit_timer.cpp:99-125 | every run with session IDs up to n stays inside the table if and only if n is at most MAX_SESSIONS - 6 |
| `RetransmitTimer.Registers.Cycle` | hls/toe/retransmit_timer/retransmit_timer.cpp:80-191 | one tick on the timer table |
| `RetransmitTimer.Registers.SetEntry` | hls/toe/retransmit_timer/retransmit_timer.cpp:103-152 | a set request, with its time-out and the jump of the scan position |
| `RetransmitTimer.Registers.ScanEntry` | hls/toe/retransmit_timer/retransmit_timer.cpp:113-191 | a step of the scan: count down, fire or abort |
| `IpSums.PickSums` | hls/ip_handler/ip_handler.cpp:166-306 | the lanes that a word contributes add the 16-bit words of those bytes to the one's-complement sum |
| `IpSums.SumsCombine` | hls/ip_handler/ip_handler.cpp:309-325 | the four lanes combine to the one's-complement sum |
| `IpSums.SumRegisters.AddLanes` | hls/mac_ip_encode/mac_ip_encode.cpp:93-100 | the lane loop over a word, in place |
| `MacIpEncode.ChecksumIsRfc791` | hls/mac_ip_encode/mac_ip_encode.cpp:35-168 | every IPv4 packet gets exactly one checksum, that of its header with a zeroed field, for header lengths of 5 to 15 words, and the registers are then as they were |
| `MacIpEncode.IciInserts` | hls/mac_ip_encode/mac_ip_encode.cpp:174-219 | a packet passes with the checksum in its second word, and takes one checksum |
| `MacIpEncode.InsertedBytes` | hls/mac_ip_encode/mac_ip_encode.cpp:199-210 | that place is bytes 10 and 11 of the packet, and no other byte changes |
| `MacIpEncode.Wrapped` | hls/mac_ip_encode/mac_ip_encode.cpp:292-366 | on an ARP hit a packet leaves in one frame, and the wrapper is ready for the next |
| `MacIpEncode.Missed` | hls/mac_ip_encode/mac_ip_encode.cpp:353-365 | on a miss the whole packet is dropped and nothing else |
| `MacIpEncode.FrameBytes` | hls/mac_ip_encode/mac_ip_encode.cpp:308-351 | the frame is the destination and source addresses, the type of IPv4 and the packet, densely packed |
| `MacIpEncode.EncodesPacket` | hls/mac_ip_encode/mac_ip_encode.cpp:35-366 | the three stages in sequence: the packet leaves in one frame with its checksum and otherwise unchanged |
| `MacIpEncode.ComputeIpChecksum.ReadWord` | hls/mac_ip_encode/mac_ip_encode.cpp:86-168 | a cycle that reads a word, on the static sums and counters |
| `MacIpEncode.ComputeIpChecksum.Combining` | hls/mac_ip_encode/mac_ip_encode.cpp:52-85 | a cycle in which the sums are combined, written or cleared |
| `MacIpEncode.ChecksumInsert.ReadWord` | hls/mac_ip_encode/mac_ip_encode.cpp:174-219 | one cycle of `ip_checksum_insert` |
| `MacIpEncode.MacWrapper.Cycle` | hls/mac_ip_encode/mac_ip_encode.cpp:292-366 | one cycle of `handle_arp_reply` on its static variables |
| `IpHandler.OneVerdict` | hls/ip_handler/ip_handler.cpp:143-325 | every frame with an IPv4 packet gives one verdict: the header's sum is all ones and the address seen is ours |
| `IpHandler.ShortHeadersAreSeen` | hls/ip_handler/ip_handler.cpp:207-258 | with five or six words of header the address seen is the destination |
| `IpHandler.SeenIffRepeated` | hls/ip_handler/ip_handler.cpp:223-258 | the handler decides by the destination, whatever its own address, if and only if the two bytes that it reads at the end of the header repeat those of the destination |
| `IpHandler.OptionsMisdirect` | hls/ip_handler/ip_handler.cpp:143-450 | a frame with seven header words and a right header sum, from which the handler of the destination passes nothing and that of another host passes the packet |
| `IpHandler.PassesPacket` | hls/ip_handler/ip_handler.cpp:273-305 | the packet leaves without its Ethernet header, byte for byte |
| `IpHandler.CutsPacket` | hls/ip_handler/ip_handler.cpp:392-450 | a packet is cut behind its total length (above eight bytes; a length of zero leaves two words), the rest is dropped, and the next packet starts afresh |
| `IpHandler.PaddingIsCut` | hls/ip_handler/ip_handler.cpp:392-450 | what is left of a padded packet is exactly its total length of bytes |
| `IpHandler.TruncatedGrows` | hls/ip_handler/ip_handler.cpp:418-429 | a packet shorter than its total length, but with a word for the last byte, is lengthened by what stands in that word |
| `IpHandler.CutLengthIs` | hls/ip_handler/ip_handler.cpp:392-450 | `cut_length` on any such packet: padded ones are cut, whole ones and ones without a word for the last byte pass, and others grow |
| `IpHandler.NothingAddedIff` | hls/ip_handler/ip_handler.cpp:418-429 | exactly: nothing is added if and only if the packet does not end before its total length inside the word that holds its last byte |
| `IpHandler.Handles` | hls/ip_handler/ip_handler.cpp:143-450 | the handler on any frame with an IPv4 packet: nothing leaves unless the header's sum is all ones and the address seen is ours or the broadcast, and then the packet, cut |
| `IpHandler.RoundTrip` | hls/ip_handler/ip_handler.cpp:143-325 | the handler on a frame of the encoder passes the packet with its checksum inserted and nothing else changed, and accepts it if and only if the address seen is ours |
| `IpHandler.EncodeThenHandle` | hls/ip_handler/ip_handler.cpp:143-450 | from the words that enter the encoder to those that leave the handler, through the checksum test, the dropper and the cut: the same bytes with the header checksum if the address seen is ours or the broadcast, and nothing otherwise |
| `IpHandler.CheckIpChecksum.ReadWord` | hls/ip_handler/ip_handler.cpp:166-306 | state PACKET of `check_ip_checksum` on its static variables |
| `IpHandler.CheckIpChecksum.SendLast` | hls/ip_handler/ip_handler.cpp:294-303 | state LAST of `check_ip_checksum`: the bytes left over leave in a last word |
| `IpHandler.CutLength.ReadWord` | hls/ip_handler/ip_handler.cpp:392-450 | one cycle of `cut_length` on its static variables |

## Left out

- UDP, DHCP, the ARP server, ICMP, the echo server, the port table, the close timer and the probe timer: their shapes are covered by the parts above.
- `TCP_NODELAY` and `RX_DDR_BYPASS`: both are 0 here, as in `hls/toe/toe.hpp`.
- The DataMover and the CAM: the memory is an array of bytes per session that executes a session's commands in the order in which they are issued, with `okay` statuses, and the lookup table is the in-order map of the testbench stub.
- Memory statuses that are not `okay`.
- FIFO depths, except where a theorem needs them (`Events`): elsewhere every step takes which of its outputs have room as a parameter, and is held up where the source is.
- Masks that are not contiguous, and packets that end inside a header, for which several functions test a word that was not written.
- Order across sessions in `RxRing` and `TxRing`: a session is followed on its own, with what others do as time that passes. `RxSarTable` and `TxTables` prove that the shared tables look like that to every session; for the engines it is how the model is built.
- TX events after a FIN was sent, when the 16-bit length no longer means queued data.
- A peer that ignores the advertised windows: the FIN branch of `rxTcpFSM` does not look at the free space, so that a longer payload on a FIN overruns the ring.
- A second initialisation of a session, in `TxRing` and `TxTables`, while entries of the first connection other than pushes to `tx_app_table` are still in its FIFOs.
- Liveness of `txAppStatusHandler` for events other than TX, which consume a write status of their own.
- The second pair of counters of the event engine: it does not prove the FIFO to the TX engine empty.
- `tcpPkgStitcher`, `txEventMerger`, `rxEventMerger`, `tupleSplitter` and the stream mergers.
- `rxMetadataHandler` as a state machine: `Verdicts` has its decision per segment.
- `extract_ip_address`, `detect_mac_protocol` and `detect_ip_protocol`: routing of whole packets.
- TcpStrip.StripsPacket: not for packets with less than two words behind the IP header, which carry no TCP header, nor for header lengths below five words.
- TcpCodec.ParsesPacket: not for packets that end inside the TCP header of 20 bytes, nor for those with a nonzero length that end inside their options, where the source tests `sendWord.last` without having written it.
- IpHandler.CutsPacket: not for total lengths of one to eight bytes, for which the source shifts by a length that `lenToKeep` does not have.
