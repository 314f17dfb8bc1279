# Netplay verification

A Dafny model of how two Intellivision consoles stay in step through a TCP
relay, with proofs of what the design promises. It covers three linked parts.

**The lockstep and resync protocol** (`src/netcode/lockstep.asm`,
`resync.asm`, the match frames of `session.asm`). It is modelled three times:

- `Ideal.dfy`: unbounded ticks, every INPUT ever sent on record, every frame
  filed under the resync epoch it was sent in. A step of a run is one stretch
  of a pass, one pump, or a fault that replaces a console's state; a run is any
  list of steps. The cart's tick, with the painting that follows it, is an
  arbitrary function of the state image, of both seats' current and previous
  input cells and of the 16-bit tick. (The name row painted every 16 ticks
  follows the checksum but covers no checksummed cell; the roster it shows is
  fixed for a match, and `ARB_SEAT` stays zero on this cart.)
- `Console16.dfy`: the same machine as the console has it: 16-bit ticks and
  watermarks compared by sign, 256-slot rings, an eight-record checksum ring,
  frames without epochs.
- `Machine.dfy`: the routines themselves, updating memory cells, ring pages,
  record cells, flags and byte-sized counters in place. Every method is proved
  to do to the console what `Console16` says, and to write the bytes of the
  frames `Console16` sends. `Console.Go` is a whole stretch of a pass.

`Refinement.RunRelated` shows that on every run the 16-bit machine keeps in
step with the ideal one, so what is proved of histories in the ideal protocol
holds of the cells. `Channel.dfy` takes the frames of a run down to bytes, and
`TwoConsoles.dfy` performs every run on two consoles joined by two byte
streams. `Captures.dfy` reads the inputs of a run off its schedule: which action
made which seat capture which cell for which tick. `Lockstep.dfy`,
`Resync.dfy`, `Rebases.dfy`, `Causes.dfy`, `Progress.dfy`, `Tightness.dfy` and
`RingBound.dfy` hold the results: agreement with a
one-machine game, skew, freedom from deadlock, resync soundness, atomic images,
complete checksum detection, what makes a host push and how often, bounded
repair, and the exact delays for which the resume offset of 16 ticks and the
256-slot ring are enough.

**The relay** (`server/c/src/intv-relay.c`, protocol version 2). `Relay.dfy`
keeps the server's tables as fields and its routines as methods; every `send`
may be refused, partial or fail, and a failing send drops its receiver in the
middle of whatever was being announced. `Lobby.dfy` says what any set of losses
leaves of rooms and names, `Effects.dfy` what each frame does to the tables and
to every client's stream; the methods are proved against both. `Aftermath.dfy`
and `Wording.dfy` say the same once more of the slots, links and bytes
themselves, and `Handover.dfy` takes the relay's START to the console that
begins a match on it. `EventLoop.dfy` is the loop over ready sockets. `CrcTable.dfy` proves the fixed checksum table
equal to the dictionary of dictionaries of `server/intv_relay_server.py`.

**Streams and images.** `Framing.dfy` and `Receiver.dfy` are the relay's and
the console's stream parsers, `EndToEnd.dfy` joins a console, the relay's loop
and its peer's parser, `Image.dfy` is the 769-byte state image over memory,
`Cksum.dfy` the checksum, `Rings.dfy` and `VDispatch.dfy` the ring pages and
the events derived from them.

## How to read the runs

`Legal` delays are 1 to 127 and `ShortDelay` ones 1 to 15. Neither bound is a
convenience: `RingBound.ExactRingBound` shows that 127 is the last delay for
which the ring keeps what a tick reads, and `Tightness.ExactDelayBound` that 15
is the last for which a rebase leaves old INPUTs behind. `FaultFree` runs need
no push and hold for every legal delay; with faults, results are stated for
short delays. A run is `Calm` when its delay is short or no push has happened
yet. An epoch is `bad` when a fault hit it or hit an image being applied for
it.

Two seats, reliable first-in first-out channels, and reads of at most 64 bytes
a pump are assumed. The frames of a channel are bytes: `Channel.PumpParses`
says that a pump's bytes parse into exactly the frames the model hands out, and
`TwoConsoles.Perform` that two consoles joined by byte streams go wherever a
run of the model goes.

A client of the relay has a `Stream`: what its socket has carried and what is
queued for it. `Told` and `SentOut` say which streams grow by which frame, and
`Added` is what one has grown by. The network is `Healthy` when no send to come
fails, and things are `Easy` when also no queue is within a frame of its end.
Cascades of losses are existential: a method hands out the set of clients its
sends lost, and says what was sent when that set is empty.

Where the code and its own comments disagree the model follows the code:

- the comment at `server/c/src/intv-relay.c:704-710` says the Python server has
  no partial-frame guard, while `server/intv_relay_server.py:340` has one; the
  model has the guard;
- `server/c/src/intv-relay.c:852` calls a caller dropped by its own HELLO
  impossible. `Relay.CallerFalls` builds the state and the network outcome in
  which it happens, and `Relay.Server.OnHello` says exactly when it can: a
  caller with a valid name survives the replacement under every network outcome
  if and only if no other holder of that name shares its room;
- a JOIN whose name holds a NUL before its end: `server/c/src/intv-relay.c`
  copies it and compares with `strcmp` (lines 332-338 and 909-930), so `AB`,
  NUL, `C` joins client `AB`; `server/intv_relay_server.py:420-436` looks up the
  whole payload and answers with a list. The model is of the C;
- the comments on the ball-dead test in `src/netcode/resync.asm:459-508`
  describe other carts; on this one the tested flag says that the phase cell is
  zero.

## Model

| member | source | states |
|---|---|---|
| Lockstep.LockstepAgreement | src/netcode/lockstep.asm:74-194 | on every fault-free schedule, with delay 1 to 127 and runs of any length, each 16-bit console's state is the game one machine plays over the cells of the very actions on which the two seats captured; at an open gate the ring slots of the tick and of the one before hold exactly the cells captured for them, idle where there was no capture |
| Captures.LogIsCaptured | src/netcode/lockstep.asm:74-165 | what a seat has on record for a tick is the cell of the action on which it captured d ticks before |
| Lockstep.GameIsSolo | src/hook.asm:379-396 | the game over the record is the game over the captured cells: each tick is given both seats' cells for it and for the tick before |
| Lockstep.EqualTicksEqualStates | src/netcode/lockstep.asm:308-342 | equal 16-bit ticks mean equal states, whatever has wrapped |
| Lockstep.PlaysSolo | src/netcode/lockstep.asm:259-302 | a console's recorded states in an unspoiled epoch are the one-machine game from the epoch's starting state |
| Lockstep.QuietRun | src/netcode/resync.asm:111-130 | without faults nothing is ever pending or held and no epoch ends |
| Lockstep.Skew | src/netcode/lockstep.asm:166-203 | within an epoch the tick counters differ by at most d+1, with any faults and resyncs |
| Tightness.SkewReached | src/netcode/lockstep.asm:131-165 | for every delay some run reaches a difference of d+1 |
| Lockstep.NoDeadlock | src/netcode/lockstep.asm:166-245 | with both channels drained nobody is held, and of two consoles at the gate at least one passes |
| Progress.NeverStuck | src/netcode/lockstep.asm:8-73 | from every reachable state, faults and pushes under way included, some schedule plays any number of further ticks |
| Progress.NeverStuckLockstep | src/netcode/lockstep.asm:66-73 | the same for delays up to 127 without faults |
| Progress.PumpProgresses | src/netcode/session.asm:451-490 | a pump with bytes on their way dispatches a frame or buffers more of one |
| Refinement.RunRelated | src/netcode/session.asm:586-633 | on every calm run the 16-bit machine shows exactly the ideal protocol's state: ticks, flags, watermark, ring windows, records, image and frames |
| Refinement.StepRelated | src/netcode/lockstep.asm:8-371 | one action keeps the two machines related, also the push that ends calm |
| Refinement.ArrivingInput | src/netcode/session.asm:596-614 | an INPUT reaching a console is one or two past its watermark and within the ring, or of a dead epoch and less than 2^15 stale |
| Refinement.CrcMatches | src/netcode/resync.asm:98-124 | a record matches a report's 16-bit tick exactly when it is this epoch's record of that very tick |
| Refinement.ReadsShow | src/hook.asm:379-396 | at an open gate both rings hold, at the low tick byte and at the one before, the cells on record for the tick and the tick before, and the tick reads those four |
| IdealRuns.RunStable | src/netcode/resync.asm:393-442 | the protocol invariant holds after every calm run |
| IdealInvariant.StandApart | src/netcode/lockstep.asm:166-194 | where the two consoles can stand relative to each other, across epochs |
| Wire.InFlight | src/netcode/session.asm:586-633 | every frame in flight lies between what its receiver has seen and what its sender has sent |
| Words.DeltaOrders | src/netcode/session.asm:606-614 | the sign of a 16-bit difference orders unbounded ticks less than 2^15 apart |
| Resync.ResyncSoundness | src/netcode/resync.asm:393-442 | with any faults and resyncs and d up to 15, every tick of every epoch reads on both consoles, of both seats, exactly the cells captured for it and for the tick before in that epoch, and unspoiled epochs are the one-machine game over them from the pushed state |
| Resync.RecordIsReal | src/hook.asm:379-396 | the record that theorem speaks of is the 16-bit console's own state, and at an open gate its ring slots hold the captured cells |
| Resync.RepairedStatesAgree | src/netcode/resync.asm:179-271 | after a resync, equal ticks of an unspoiled epoch mean equal states |
| Resync.StaleInputs | src/netcode/session.asm:596-633 | an INPUT changes a console exactly when it was sent in the epoch the console is in |
| Tightness.ExactDelayBound | src/netcode/resync.asm:179-189 | a host that has rebased before its guest saw the push never moves its new watermark, on every run, if and only if the delay is at most 15 |
| Tightness.SixteenIsTooMany | src/netcode/resync.asm:409-426 | for every delay from 16 to 127 a schedule on which the rebased host accepts an INPUT sent before the guest saw the push |
| RingBound.ExactRingBound | src/netcode/lockstep.asm:74-194 | at every open gate the slots of the tick and of the one before hold the cells captured for them, on every fault-free run of every cart, if and only if the delay is at most 127 |
| RingBound.RingLapped | src/netcode/session.asm:596-633 | for every delay from 128 to 255 a fault-free schedule on which an INPUT overwrites a slot before the tick that needs it |
| Resync.ImageAtomic | src/netcode/lockstep.asm:17-65 | the guest plays no tick between the first image byte applied and its rebase |
| Resync.OnlyPumps | src/netcode/lockstep.asm:166-245 | with part of an image applied the next stretch of a pass only pumps, at the top of a pass and inside the gate |
| IdealRuns.GuestPumps | src/netcode/session.asm:451-542 | a pump of at most 64 bytes begun without a hold cannot complete the first 100-byte chunk, so it leaves no partial image |
| Resync.DetectionComplete | src/netcode/resync.asm:91-153 | a report both consoles attended to was compared by at least one; an alarm means exactly that the checksums differ; unspoiled epochs raise none |
| Causes.PendsUnspoiled | src/netcode/resync.asm:158-174 | in an epoch no fault hit, a pump makes the host want a resync exactly when it dispatches a request, and every request under way was sent from an earlier epoch that a fault hit |
| Causes.PushesBounded | src/netcode/resync.asm:476-508 | on every run the resyncs pushed or wanted are at most two for each faulty epoch and four for each fault |
| Resync.ReportsAreChecksums | src/netcode/lockstep.asm:303-342 | every report is the checksum of the state its tick led to |
| Resync.BoundedRepair | src/netcode/resync.asm:474-508 | a host with a resync pending has pushed by its 60th pending call, on every schedule |
| Rebases.PendingCall | src/netcode/resync.asm:474-508 | on every run, a host with a resync pending pushes on the call where the phase cell is zero or that is its 60th, going on 16 ticks later from the state just played, and on every other call stays and has waited once more |
| Rebases.EpochsStartSafe | src/hook.asm:334-345 | on every run, with any faults, the state each epoch after the first starts from has its phase cell at 8 or below |
| Resync.GuestAsksOnce | src/netcode/resync.asm:122-153 | over a whole run the guest asks at most once per epoch |
| Resync.PendingNeverStops | src/netcode/lockstep.asm:353-366 | pending alone keeps no console from capturing or ticking |
| Machine.Console.constructor | src/netcode/session.asm:680-724 | a console at power-on, its image that of the memory |
| Machine.Console.OnStart | src/netcode/session.asm:680-724 | a START at any time and with any delay byte: seat, delay and seed taken, rings idle, records cleared, tick 0, every watermark the low byte of the delay less one; flags, hold and gate as they were |
| Machine.StartsMatch | src/netcode/session.asm:680-724 | a console with no hold, gate or resync under way is then the model's starting console |
| TwoConsoles.Kickoff | src/netcode/session.asm:680-724 | a console powered on and sent its START stands at the start of every run |
| Machine.Console.OnFrame | src/netcode/session.asm:557-633 | on any frame buffer: a START begins a match whenever it comes, PEER_LEFT idles and pins the remote side, a match frame does what the model says and writes what the model sends, anything else changes nothing |
| Machine.Console.SesPump | src/netcode/session.asm:451-552 | exactly the frames the pure parser finds in the buffer and the read are handled, in order; its rest stays buffered and its slips are counted |
| Channel.DrainHears | src/netcode/session.asm:491-552 | draining dispatches exactly the frames complete in the buffered bytes and leaves as many bytes as are over |
| Channel.PumpParses | src/netcode/session.asm:451-552 | the buffered bytes and a read parse into exactly the frames the model's pump dispatches, with no slip, and what is over is what the buffer then carries |
| Machine.Console.Go | src/netcode/lockstep.asm:8-366 | a stretch of a pass takes the console where the model's step takes it, writes the frames the model sends, and slips no byte |
| TwoConsoles.Move | src/netcode/lockstep.asm:8-366 | one console's move, reading what the network has of its peer's bytes, is the model's step, and what it writes is the model's frames in bytes |
| TwoConsoles.Perform | src/netcode/lockstep.asm:8-366 | two consoles joined by two byte streams are, after every schedule with any reads and faults, where the 16-bit model's run is, and neither has slipped a byte |
| Machine.Console.OnInput | src/netcode/session.asm:586-633 | ring store and watermark exactly for the other seat's INPUT strictly ahead by less than half the tick range, on the cells themselves; any other changes none of them |
| Machine.Console.OnCrc | src/netcode/resync.asm:91-153 | a record of that tick with another checksum, and nothing else, marks a resync wanted and makes the guest write one request |
| Machine.Console.OnReq | src/netcode/resync.asm:158-174 | only a host neither holding nor pending starts to wait |
| Machine.Console.OnState | src/netcode/resync.asm:283-378 | for arbitrary frame bytes: BEGIN, END, an overlay of the image, or a refusal that writes nothing; outside a rebase only image cells are written |
| Machine.Console.Rebase | src/netcode/resync.asm:393-442 | tick, rings, watermarks, records and flags after a rebase, both interrupt vectors and the display registers safe, the native countdown restored, the phase cell at 8 or below, and no other cell touched |
| Machine.Console.RebaseHook | src/hook.asm:334-345 | the native countdown is restored, the phase cell kept when it is at most 8 and 0 otherwise, and no other cell touched |
| Machine.Console.ClampIsr | src/netcode/resync.asm:561-571 | both interrupt vectors hold the EXEC's default; no other cell and no image byte changes |
| Machine.Console.DisplayReset | src/netcode/resync.asm:531-541 | the six display cells hold the cart header's values; no other cell and no image byte changes |
| Machine.Console.Push | src/netcode/resync.asm:179-271 | BEGIN with tick+16, the whole image in chunks, END, then the rebase |
| Machine.Console.PushChunks | src/netcode/resync.asm:209-254 | the chunk loop writes every byte of the image once, in order |
| Machine.Console.Pending | src/netcode/resync.asm:476-508 | pushes, to tick+16, exactly when the phase cell is zero or on the 60th call; otherwise only the count goes up |
| Machine.Console.Capture | src/netcode/lockstep.asm:74-165 | the local cell goes to slot T+d of the own ring and onto the wire |
| Machine.Console.GateOpen | src/netcode/lockstep.asm:166-203 | open exactly when the match is over or the remote watermark has reached the tick |
| Machine.Console.ReadSlots | src/hook.asm:379-396 | the four cells a tick is given: both seats' page cells at the low tick byte and at the one before |
| Machine.Console.RunTick | src/netcode/lockstep.asm:246-366 | the cart's tick on those cells with its painting, the report on 64-tick boundaries, the tick counter, the pending push |
| Machine.Console.RecordCrc | src/netcode/resync.asm:65-84 | the report is kept in the record of its 64-tick slot and no other |
| Machine.Console.ClrCrc | src/netcode/resync.asm:582-590 | the fill leaves no record that a real tick could match |
| Machine.Console.IdleRemote | src/netcode/lockstep.asm:514-529 | rings idle and watermarks 16384 ticks ahead |
| Machine.PinnedStaysOpen | src/netcode/lockstep.asm:514-529 | the gate then stays open for 16384 ticks |
| Machine.Console.GetByte | src/netcode/resync.asm:608-645 | the image byte at a position |
| Machine.Console.PutByte | src/netcode/resync.asm:647-697 | one position written, its cell's other half kept |
| Image.PutGet | src/netcode/resync.asm:647-697 | writing a position changes that position and no other |
| Image.PutAllOverlays | src/netcode/resync.asm:330-353 | writing a chunk overlays the image |
| Image.PutAllConfined | src/netcode/resync.asm:293-329 | writing a chunk reaches no cell outside the image |
| Image.ImageRoundTrip | src/netcode/resync.asm:209-254 | after all chunks every carried cell equals the host's, both bytes of words included, every other cell is unchanged and the checksums agree |
| Image.ImageMissesWorking | src/netcode/resync.asm:600-606 | no image position is a cell the netcode itself works in |
| Cksum.LsCksum | src/netcode/lockstep.asm:536-571 | the hand-unrolled checksum is the rotate-add of the covered image cells |
| Cksum.TraceSum | src/debug.asm:17-36 | the table-driven loop folds the cells its table names |
| Cksum.SumRun | src/netcode/lockstep.asm:540-545 | a run folds the cells in order; its last step doubles, brings the top bit back in at the bottom and adds the cell |
| Cksum.AddCell | src/netcode/lockstep.asm:546-571 | one step by value |
| Cksum.TwinsAgree | src/debug.asm:100-112 | both routines give the same checksum on every memory |
| Cksum.OneCellMemory | src/netcode/lockstep.asm:536-571 | memories that differ in exactly one checksummed cell have different checksums |
| Cksum.SwapMemory | src/netcode/lockstep.asm:536-571 | memories in which two neighbouring checksummed cells, at least two apart, are exchanged have different checksums |
| Cksum.LoneCell | src/netcode/lockstep.asm:536-571 | a lone bit comes out turned once for each later cell |
| Cksum.FirstScratchBit | src/netcode/lockstep.asm:536-545 | a 1 at $015D alone gives $2000 |
| Cksum.FoldKeepsDifference | src/netcode/lockstep.asm:540-545 | a difference once in the accumulator is never folded away |
| Frames.ReadBytes | src/netcode/session.asm:557-585 | every frame a console writes is read back as itself |
| Frames.BytesPrefixFree | src/netcode/session.asm:1055-1080 | no frame's bytes begin another's |
| Frames.WritableIsPlausible | src/netcode/session.asm:1063-1080 | every frame a console writes passes the peer's length table and the relay's length test |
| Receiver.Pump.Run | src/netcode/session.asm:451-552 | a pump dispatches exactly the pure parser's frames, slips as many bytes, leaves at most 99, and never holds more than 163 |
| Receiver.Pump.Next | src/netcode/session.asm:491-552 | the parse loop yields the pure parser's next frame, or nothing when no frame is complete |
| Receiver.SplitParse | src/netcode/session.asm:491-552 | parsing a stream in two parts is parsing the whole, corrupt streams included |
| Receiver.ParseConserves | src/netcode/session.asm:491-552 | every byte of any stream is dispatched in a frame, slipped or still waiting |
| Receiver.FramesPlausible | src/netcode/session.asm:508-545 | whatever is dispatched has its declared length and passes the length table |
| Receiver.ReadsDoNotMatter | src/netcode/session.asm:451-490 | frames and slips depend only on the bytes, not on the reads |
| Receiver.HonestParse | src/netcode/session.asm:508-545 | an honest stream parses into the frames written, with no slip |
| Receiver.PrefixParse | src/netcode/session.asm:491-552 | the first n bytes of an honest stream parse into exactly the frames complete in them, with no slip and the part of the next as rest |
| Framing.SplitParse | server/intv_relay_server.py:333-350 | the relay's parser does not depend on chunking and reads nothing after a bad length byte |
| Framing.ParseConserves | server/c/src/intv-relay.c:717-759 | the bodies behind their length bytes and the rest are the stream, and the parse is bad exactly when the rest begins with 0 or more than 200 |
| Relay.Server.Feed | server/c/src/intv-relay.c:717-759 | each body the pure parser finds is handled with the effect of its handling and nothing in between: all of them while the client lives, none after a drop; at most 200 bytes stay unread; when all are match frames and nobody is lost, the other members' streams grow by exactly these frames and no other stream grows |
| Effects.JourneyForwards | server/c/src/intv-relay.c:1249-1273 | a stretch of match frames reaches every other member of the room verbatim and in order, and nobody else, as long as nobody is lost |
| EventLoop.Turn | server/c/src/intv-relay.c:1563-1578 | one ready socket: its queue moves on, or what it says is handled; a match's members are sent what it says if it is one of them and nothing if not |
| EventLoop.ServedElsewhere | server/c/src/intv-relay.c:1249-1291 | whatever a client outside a started room sends, nobody lost, that room's members are sent nothing and stay as they are |
| EventLoop.Serve | server/c/src/intv-relay.c:1536-1578 | over any list of ready sockets, nobody lost, each client said what its bytes parse to, and in every match each member is sent exactly what the others said, in the order it was handled |
| EndToEnd.Exchange | server/c/src/intv-relay.c:415-455 | two consoles in a match, any pieces received, any other traffic and any partial sends between: each socket's stream has grown by exactly the frames received complete from the other, and any reads of any part of it dispatch exactly those frames, in order, with no slip |
| EndToEnd.PrefixDispatches | src/netcode/session.asm:451-552 | however a part of an honest stream is read, exactly the frames complete in it are dispatched |
| EndToEnd.NothingMissing | src/netcode/session.asm:451-552 | once everything has been read every frame has been dispatched and nothing is kept over |
| EndToEnd.FramesReadBack | src/netcode/session.asm:557-585 | and each is read back as the frame written |
| Lobby.FallTwice | server/c/src/intv-relay.c:603-698 | what losses leave of rooms and names does not depend on their order |
| Lobby.FallSound | server/c/src/intv-relay.c:603-698 | any losses leave rooms disjoint, of two to max_seats live members, and names unique |
| Lobby.StartedIsFrozen | server/c/src/intv-relay.c:666-680 | a started room keeps every member in its seat or is dissolved, and keeps them exactly when none is lost |
| Aftermath.FellAfter | server/c/src/intv-relay.c:603-698 | after any losses a forming room goes on if and only if its host and somebody else are left, a started one if and only if nobody is lost; it then holds exactly those left, in order, and whoever is left of a room that ended is in no room; the names left are in their order |
| Lobby.RoomIsFree | server/c/src/intv-relay.c:363-375 | with two live clients in no room, one of the 32 slots is free |
| Lobby.PutLaws | server/c/src/intv-relay.c:340-352 | setting a name reads back, leaves the others, keeps a known name's place and appends a new one |
| Lobby.DelIsWithout | server/c/src/intv-relay.c:354-359 | deleting an entry removes its owner alone and keeps the order |
| RelayState.NameFits | server/c/src/intv-relay.c:347-348 | the name list is never full when a name is added |
| RelayState.RenamedUnique | server/c/src/intv-relay.c:855-866 | a rename leaves one entry for the client and everyone else's |
| RelayState.DetachedOk | server/c/src/intv-relay.c:603-664 | unlinking a client leaves links, names and rooms sound, and the lobby without it |
| Relay.Server.Flush | server/c/src/intv-relay.c:415-437 | queued bytes move to the socket in order, what the sends take, until the queue is empty or a send would block, and nothing else changes; a healthy network drops nobody |
| Relay.Server.SendRaw | server/c/src/intv-relay.c:439-455 | the bytes join the client's stream at its end and nothing else changes, or the client is dropped with a cascade among its room: always when the queue would overflow, never when it does not and the network is healthy |
| Relay.Server.SendEach | server/c/src/intv-relay.c:578-588 | each listed client is sent its frame, in order; when things are easy nobody is lost |
| Relay.Server.Drop | server/c/src/intv-relay.c:603-698 | under any cascade the tables are what is left without everyone lost, told of slots, members and links; the losses stay in the client's room, and are the client alone when things are easy; its room is then told, in bytes, who left a match, that a forming room is over, or the new roster |
| Wording.GoneSays | server/c/src/intv-relay.c:666-698 | a started match hears who left by seat and name; a forming room that loses its host or its last guest hears it is over; one that goes on hears its members; nobody else hears anything |
| Relay.Server.Dissolve | server/c/src/intv-relay.c:591-601 | members are home before anyone is told, and those to notify are told |
| Relay.Server.RoomBroadcast | server/c/src/intv-relay.c:578-588 | every member is sent the roster |
| Relay.Server.OnHello | server/c/src/intv-relay.c:799-867 | the name check, the replaced holder's losses, the rename and the listing sent; a caller with a valid name survives the replacement under every network outcome exactly when no other holder shares its room |
| Relay.Server.TakeName | server/c/src/intv-relay.c:855-866 | a client's own name leaves the list as it is; another one goes to the end and the old entry is taken out |
| Wording.HelloNameSays | server/c/src/intv-relay.c:806-847 | the names accepted are those of two to eight capitals and digits, under version 2, followed by nothing but NULs and spaces |
| Relay.Server.Replace | server/c/src/intv-relay.c:849-854 | the other holder and none but its room fall; the caller never does unless it shares that room, and does when it shares it and every send fails |
| Relay.CallerFalls | server/c/src/intv-relay.c:849-854 | a state of two clients and a network outcome in which the caller falls with the holder it replaces |
| Relay.Server.OnList | server/c/src/intv-relay.c:885-904 | the first eight others in list order with their status |
| Wording.ListingSays | server/c/src/intv-relay.c:885-904 | the LOBBY frame byte by byte: the others in list order, eight at most, each name padded and its room's size with the top bit when started or full |
| Relay.Server.OnJoin | server/c/src/intv-relay.c:909-976 | refusals with a fresh list, the name read up to its first NUL, the seat taken, the roster announced and the automatic start |
| Relay.Server.FindTarget | server/c/src/intv-relay.c:926-944 | a target is found exactly when another client holds that name and is in no room or in a forming one with a seat free |
| Wording.JoinMeans | server/c/src/intv-relay.c:946-975 | with nobody lost the joiner is last in the target's room, which was the target's alone when it had none, and the match starts exactly at the automatic size |
| Relay.Server.RoomAlloc | server/c/src/intv-relay.c:946-952 | the search finds a slot whenever a join needs one |
| Relay.Server.OnGo | server/c/src/intv-relay.c:978-987 | exactly the host of a forming room starts it |
| Relay.Server.StartRoom | server/c/src/intv-relay.c:989-1016 | the room is started and each member is sent the START of its seat, told byte by byte: its seat, the count, one seed for all, the delay, each name in its slot |
| Wording.StartsSay | server/c/src/intv-relay.c:1000-1009 | the member at seat k, and no other, is sent the frame that says seat k |
| Wording.RoomSays | server/c/src/intv-relay.c:578-588 | ROOM byte by byte: the count and each member's name in its roster slot |
| Handover.StartedTogether | src/netcode/session.asm:680-692 | in a room of two both consoles are sent a START they can begin on: seats 0 and 1, the same delay, the same seed |
| Handover.StartHeard | src/netcode/session.asm:680-724 | a console that hears it is in that seat, under that delay, at tick 0, its state changed in the two seed bytes alone |
| Handover.PeerLeftHeard | src/netcode/session.asm:769-789 | the relay's PEER_LEFT is read whole and ends the match |
| Relay.Server.Fanout | server/c/src/intv-relay.c:1251-1273 | a match frame goes verbatim to every other member |
| Wording.PingAnswered | server/c/src/intv-relay.c:1288 | PING is answered with PONG, to the client alone |
| Relay.Server.Handle | server/c/src/intv-relay.c:1249-1291 | for every frame body what it does to the tables and, when nobody is lost, who is sent what; the tables stay sound and started rooms are frozen or dissolved |
| Relay.Server.Accept | server/c/src/intv-relay.c:464-545 | refused exactly when every slot is in use or eight in use are the address's; otherwise a free slot starts afresh |
| Relay.OwnFramesPlausible | server/c/src/intv-relay.c:232-240 | every frame the relay originates passes the console's length table |
| CrcTable.CrcLog.Log | server/c/src/intv-relay.c:1136-1247 | the table after a report, its verdict and its count are the dictionary version's, for any seat byte; a row and a slot are always found |
| CrcTable.Replay | server/intv_relay_server.py:470-491 | every sequence of reports gets the dictionary version's verdicts |
| CrcTable.LoggedSays | server/intv_relay_server.py:476-491 | one report: kept under its seat, judged once as many seats as members have reported, agreed exactly when all equal, then forgotten; of more than 64 ticks the least goes |
| CrcTable.MismatchIsReal | server/intv_relay_server.py:470-491 | over every sequence of reports, a mismatch is only called when two seats reported different checksums for the tick |
| CrcTable.SortedSeats | server/c/src/intv-relay.c:1223-1238 | the mismatch line lists exactly the row's seats in ascending order |
| CrcTable.RowIsFree | server/c/src/intv-relay.c:1153-1164 | with at most 64 ticks held a row is free |
| CrcTable.SlotIsFree | server/c/src/intv-relay.c:1178-1192 | with fewer than eight seats held a slot is free |
| VDispatch.Dispatch | src/vdispatch.asm:359-463 | the handler calls derived from slot t and the slot before it, wrapping at 0 |
| VDispatch.EventsSay | src/vdispatch.asm:387-463 | the calls of a tick by meaning: each action button pressed, held or let go, a new disc direction, a settled disc, a keypad code, and nothing else, buttons first |
| VDispatch.ButtonLanguage | src/vdispatch.asm:392-425 | over every stream the events of a button slot are a prefix of (press, held*, release)*, and the button left down is the last cell's |
| VDispatch.ButtonsInMatch | src/vdispatch.asm:359-425 | the same of what each console dispatches in each epoch of every run, and never are two buttons down at once |
| Rings.RingInit | src/vdispatch.asm:508-522 | the two fills leave every seat's ring idle |

## Left out

- The cart's game logic, the EXEC ROM, the interrupt service routine and the freezing of `$0102`: the cart's tick is an arbitrary function of the image, the ring cells and the tick.
- Countdowns that the EXEC dispatcher fires after the netcode returns: nothing is claimed of their phase across a hold.
- Timeouts, `NET_DROPPED` and what follows a dropped match, except the cells `LS_IDLE_RMT` leaves: a run here has no clock.
- Mailbox transactions, sockets, epoll and signals: reads and sends have arbitrary outcomes.
- Three and four seats on the console: another guest's INPUT can open the gate in the middle of an image; the console side is stated for the two seats of this cart, the relay for two to four.
- A delay of 0: the START handler is modelled for it and stores a watermark low byte of 255, which opens the gate for 256 ticks; the theorems on runs start at a delay of 1.
- A START for three or four seats or with a seat number above 1, for the same reason; `FrameBuffer` excludes it.
- What PEER_LEFT records for the screen (who left), and the lobby and room frames, which only redraw screens.
- Protocol version 1 on the relay, apart from room allocation, whose counting argument is the same.
- The order of frames across a send failure inside an announcement: only who is sent what when nobody else is lost.
- EventLoop.Serve: speaks of stretches in which nobody is lost; new connections and hello timeouts between two events are not events of it, though `Accept` and `Drop` keep what it needs.
- Relay.Server.Handle: does not update the room's checksum table, which is proved on its own in `CrcTable` and is read by no other relay decision.
- Relay.Server.Accept: counts slots in use instead of keeping the counter.
- VDispatch.Dispatch: yields the handler calls; which handler the installed table names, and that a null entry calls nothing, is not modelled.
- Machine.Console.CartTick: stands for the cart's own code by writing back the state the tick function gives.
- Receiver.Pump.Run: counts slips without the saturation at 255 of the diagnostic cell.
- The lobby's HTTP publisher, logging, statistics, hello timeouts, screens, menus and the head-up display.
