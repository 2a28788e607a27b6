# Paraclete, modelled in Dafny

Paraclete is a live audio signal graph: nodes exchange audio and events in fixed blocks, a state bus
publishes parameter values, browser surfaces follow that bus over sockets, and the same instruments run
as CLAP plugins. This project models the parts of it whose state has a simple specification to agree
with, and proves that it does.

| component | modules | main theorems |
|---|---|---|
| state mirror to remote clients | `StateBus`, `Clients`, `Mirror`, `Antiphon`, `AntiphonRun`, `Selections`, `Shown` | every run keeps each replayed client's folded view plus pending changes equal to the shadow; what a due pump delivers, exactly, and value by value; when nothing is sent |
| LED mirror | `Kerygma`, `AntiphonRun`, `Shown` | every run keeps each replayed client's LEDs equal to the shadow; one replay per connection |
| client slots and producers | `SlotProtocol` | any number of session threads: no slot without its producer, no producer held twice; a release leaves no state in which a free slot lacks its producer |
| output ring | `Positions`, `AudioOut` | the device gets the executor's stream, whatever the buffer sizes |
| pause and resume | `PauseHandshake` | no callback touches a parked executor, if and only if the pause was called in a calm state |
| machine switching | `MachineSwitch` | at any sample rate the gain falls and climbs by one part of the samples of five milliseconds at most; in every run a swap comes right after a sample at most one ramp step above silence |
| parameter locks | `ParamLocks`, `BlockLocks` | a note holds exactly the locks that arrived for it; how long it keeps them, exactly |
| parameter bank | `ParameterBank`, `BankNumbers`, `UnionBank` | every stored value is a number inside its range; saved under one schema and loaded under another; lossless over every session of writes, machine switches, saves and loads |
| track chains | `ChainDerivation` | the worklist computes reachability; how many chains an engine gets |
| view declarations | `ViewValidate` | the validator reports exactly the defects there are; when it is right about all documents |
| delay line | `Delay` | the ring reads as an unbounded history |
| envelope | `Envelope` | bounds in every run; when a release and a one-shot cycle are idle |
| kits | `KitApply`, `KitRuns` | nothing of a kit is lost, repeated or moved under back-pressure until the next one is loaded; what of each kit goes out when loads interrupt one another, exactly |
| plugin transport | `Transport` | position arithmetic; over any activations, exactly when start and stop events alternate |

Objects that the original updates in place are classes here. Each of their methods is proved equal to a
step of a function on values; the theorems about whole runs are lemmas about those functions. Events of
other threads are parameters: between two locked sections of a pump the model inserts an arbitrary list
of connects and disconnects.

## What does not hold as promised

Eight promises hold only under a condition. The model keeps the code as it is, and the condition is proved.

- **The mirror and text.** After a due pump a client's view is the bus's numeric values exactly when no
  path that once carried a number now carries text (`AntiphonRun.DuePumpExact`). The pump skips text, so
  such a path keeps its old number on every client (`AntiphonRun.GoneTextStaysVisible`; a concrete run is
  `AntiphonRun.TextTurnStaysVisible`). A run that never overwrites a mirrored number by text is always
  exact (`AntiphonRun.KeepsNumbersRun`).
- **Node 0 as an engine.** For any declaration order, each engine gets exactly one chain if and only if node 0
  is not a declared engine and no other engine is declared twice (`ChainDerivation.OneChainEach`). Unwired
  sequencers put node 0 into the order; the first pass skips it and the second finds it declared.
- **Variants with one name.** The identity check compares names, so it is right about every document with
  given variant names exactly when the names are distinct (`ViewValidate.NamesDecide`).
- **A stale pause flag.** A pause is safe exactly in a calm state (`PauseHandshake.PauseSafeIffCalm`); a
  second pause after a quick resume can meet a stale flag (`PauseHandshake.StaleFlagCollides`).
- **Sixteen bits of count.** A save reads back rightly into every schema if and only if it has fewer than 65536
  slots (`ParameterBank.CountDecides`); of a larger one exactly the first count-modulo-65536 slots come back
  (`ParameterBank.ReloadedSlot`), and the last one is lost to a schema of its own (`ParameterBank.LastIsLost`).
- **Locks after the note.** A note keeps its locks, whatever they are, if and only if neither a lock for its
  node nor a trigger follows it (`ParamLocks.LocksLastIffUndisturbed`): a lock that arrives while it sounds
  replaces them at once (`ParamLocks.FirstLockReplaces`).
- **Stopping by deactivation.** Start and stop events alternate if and only if no one who is deactivated while
  playing plays again (`Transport.AlternatesIffCleanStops`); one who does gets two rewinds in a row
  (`Transport.DeactivatingWhilePlayingRewindsTwice`).
- **Kits that follow one another.** A kit loaded by a pattern switch goes out whole only if nothing of it is left
  when the next is loaded. Whatever the ring refuses, every kit goes out whole if and only if each is sent by then
  (`KitRuns.KitsWholeIffOut`); with a ring that is never full, if and only if each has at most sixteen entries for
  each tick it is given (`KitRuns.KitsWholeIffFit`). When several sequencers switch in one tick that is one tick
  for every kit but the last (`KitRuns.OwedKitsWholeIff`), so of a first kit of seventeen entries the last is never
  sent (`KitRuns.SecondSwitchCutsTheFirstKit`).

## Model

| member | source | states |
|---|---|---|
| AntiphonRun.RunSound | crates/paraclete-antiphon/src/lib.rs:146-304 | In every interleaving of bus writes, connects (also between any two locked sections of a pump), disconnects, pumps and LED traffic: each client whose replay flag is clear has a folded state view that, overridden by what is pending, is the shadow; its last context frame is the shadowed context or the context is marked dirty; its LEDs match; it was replayed exactly once. |
| AntiphonRun.DuePumpDelivers | crates/paraclete-antiphon/src/lib.rs:226-240 | After a due pump every replayed client sees the old shadow overridden by the bus's coerced mirrored numbers, and its last context frame is the bus's context, first seen in this pump or an earlier one that was not due. |
| Shown.ShowsTheNumbers | crates/paraclete-antiphon/src/lib.rs:168-240 | After a pump that comes first or 33 ms after the last flush, a replayed client shows for every value on a mirrored path the float itself, the integer as a number, 1 for true and 0 for false, and otherwise only what it was shown before. |
| Shown.ShowsTheContext | crates/paraclete-antiphon/src/lib.rs:297-304 | Its last context frame then has a slot for exactly the keys with an integer node half, a text param half and a 32-bit decimal number at the end, with that number, that node in 32 bits and that text; and every other context path with its text or number. |
| Shown.SnapshotShows | crates/paraclete-antiphon/src/lib.rs:323-387 | The same of every frame built from a bus. |
| Shown.TrailingIntIs | crates/paraclete-antiphon/src/lib.rs:391-397 | A key's number is n if and only if the key ends in n in decimal, leading zeros allowed, no further digit before them, and n fits into 32 bits. |
| Shown.OnMirrorIff | crates/paraclete-antiphon/src/lib.rs:173-180 | A path is mirrored if and only if it is under `/node/` with `/param/` or `/state/` in it, or under `/transport/`, `/script/` or `/engine/`; never if it is under `/context/`. |
| Shown.SecondPumpIsSilent | crates/paraclete-antiphon/src/lib.rs:146-240 | Once a due pump has read a bus, another pump over the same bus sends nothing to anyone. |
| Shown.WindowHoldsBack | crates/paraclete-antiphon/src/lib.rs:219-232 | Within 33 ms of the last flush, changes to fewer than 256 paths are held back from everyone. |
| Shown.BatchesStaySmall | crates/paraclete-antiphon/src/lib.rs:219-223 | In every run no batch but a replay holds more than 256 values, and there are four slots. |
| Shown.ReplayPutsStateFirst | crates/paraclete-antiphon/src/lib.rs:263-292 | A waiting client's channel gets the whole shadow, if there is any, and then the context. |
| AntiphonRun.DuePumpExact | crates/paraclete-antiphon/src/lib.rs:187-206 | That view is exactly the bus's numbers if and only if no path in the shadow now holds text. |
| AntiphonRun.KeepsNumbersRun | crates/paraclete-antiphon/src/lib.rs:187-206 | In a run where no write turns a mirrored number into text, the condition of the exact view always holds. |
| AntiphonRun.GoneTextStaysVisible | crates/paraclete-antiphon/src/lib.rs:182-198 | A path whose number turned to text is in every replayed client's view after every due pump, whoever connects or leaves during it, and not among the bus's numbers. |
| AntiphonRun.TextTurnStaysVisible | crates/paraclete-antiphon/src/lib.rs:182-198 | A concrete run of a connect, two pumps and two writes in which that happens. |
| AntiphonRun.PumpServes | crates/paraclete-antiphon/src/lib.rs:263-292 | A pump leaves nobody waiting for a replay unless a client connected after the pump's first locked section. |
| AntiphonRun.StepSound | crates/paraclete-antiphon/src/lib.rs:146-304 | Every single step, from any sound state, keeps the invariant of the whole system. |
| Selections.RunNotes | crates/paraclete-antiphon/src/lib.rs:150-217 | In every run the selection of a node with one machine path is the truncated value last seen there while that is not negative, and the kit list is the text last seen. |
| Selections.PumpPublishes | crates/paraclete-antiphon/src/lib.rs:150-217 | After any pump, due or not, the selection of every node with one machine path, and the kit list, are those of the bus. |
| Selections.PumpSelects | crates/paraclete-antiphon/src/lib.rs:213-217 | After any pump a node with one machine path selects the whole part of the number there, or the largest 32-bit number if that is too large, and the kit list is the text at `/context/kits`. |
| Mirror.PumpAgrees | crates/paraclete-antiphon/src/lib.rs:146-240 | One pump, with any client events between its locked sections and any number of overflow flushes, keeps every client's view in agreement with shadow and pending; when due it leaves nothing pending. |
| Mirror.ScanTracks | crates/paraclete-antiphon/src/lib.rs:148-224 | After k paths of the scan the shadow is the old one overridden by the numbers among them, the context shadow likewise, and the dirty mark is set if any context value changed. |
| Mirror.ReadAll | crates/paraclete-antiphon/src/lib.rs:148-224 | A whole scan reads the whole bus, whatever order it iterates in. |
| Mirror.ReplayedAgrees | crates/paraclete-antiphon/src/lib.rs:263-292 | A replay brings every waiting client's view to the shadow and its last context to the bus's, clears every flag and leaves every other slot as it was. |
| Antiphon.AntiphonHandle.Pump | crates/paraclete-antiphon/src/lib.rs:146-240 | The imperative pump changes its fields and the client table exactly as the pump function does. |
| Antiphon.AntiphonHandle.FlushStateBatch | crates/paraclete-antiphon/src/lib.rs:242-257 | Broadcasts what is pending to everyone connected and empties it; nothing pending, nothing sent. |
| Antiphon.AntiphonHandle.ServiceStateReplays | crates/paraclete-antiphon/src/lib.rs:263-292 | Sends shadow and context to the waiting clients only, under one lock. |
| StateBus.BuildContextFrame | crates/paraclete-antiphon/src/lib.rs:323-387 | For every bus and iteration order the two scans give the declared snapshot: an encoder slot exactly for the keys with an integer node half, a text param half and a parsable trailing number, and every other context path by value. |
| StateBus.SnapshotOfContext | crates/paraclete-antiphon/src/lib.rs:323-387 | The snapshot depends on the context part of the bus alone. |
| Clients.ClientTable.Allocate | crates/paraclete-antiphon/src/kerygma.rs:57-65 | Takes the first free slot with both replay flags set; none exactly when all are taken; other slots untouched. |
| Clients.ClientTable.ReplayStateToPending | crates/paraclete-antiphon/src/kerygma.rs:102-109 | The frames go once to each flagged client, in order, and its flag is cleared. |
| Kerygma.Kerygma.BroadcastLedUpdates | crates/paraclete-antiphon/src/kerygma.rs:131-160 | The shadow takes every update with a known id, and the clients one frame of exactly those. |
| Kerygma.Kerygma.ServiceReplays | crates/paraclete-antiphon/src/kerygma.rs:165-189 | The whole surface outside ids 80 to 89 goes once to each flagged client. |
| Kerygma.BroadcastAgrees | crates/paraclete-antiphon/src/kerygma.rs:131-160 | A client in step with the shadow is in step with the new shadow after folding the broadcast. |
| Kerygma.SurfaceAgrees | crates/paraclete-antiphon/src/kerygma.rs:165-189 | Whatever a client showed before, a replay puts every id outside the gap in step. |
| Shown.ShowsTheColours | crates/paraclete-antiphon/src/kerygma.rs:131-189 | In every run a client whose surface has been replayed shows the kept colour on every control below 98 outside 80 to 89. |
| Shown.LastColourWins | crates/paraclete-antiphon/src/kerygma.rs:135-142 | A control's kept colour is that of the last update naming it; others stay as they were. |
| Shown.KnownIds | crates/paraclete-antiphon/src/kerygma.rs:135-149 | A broadcast names exactly the controls below 98 that the updates name. |
| Shown.SurfaceIds | crates/paraclete-antiphon/src/kerygma.rs:173-182 | A replay names exactly the controls outside 80 to 89. |
| SlotProtocol.RunSafe | crates/paraclete-antiphon/src/server.rs:287-362 | In every interleaving of any number of sessions: a taken slot has exactly one owner, a free slot's producer is in the pool, and so is that of a slot whose owner has not taken it or has returned it. |
| SlotProtocol.ProducersUnique | crates/paraclete-antiphon/src/server.rs:351-362 | The missing-producer branch is unreachable and no two sessions hold one ring's producer. |
| SlotProtocol.TableSteps | crates/paraclete-antiphon/src/kerygma.rs:57-72 | The real table's allocate and free are the protocol's steps. |
| SlotProtocol.SlotGuard.Drop | crates/paraclete-antiphon/src/server.rs:287-297 | The states that the two sections leave behind, one by one, with any sections of other sessions in between: first the producer is back in the pool, and last the slot is free. |
| SlotProtocol.ReleaseNeverUncovers | crates/paraclete-antiphon/src/server.rs:287-297 | In each of those states a free slot has its producer in the pool, if the others keep off the slot while it is taken; and it is taken until the last of them. |
| SlotProtocol.ReleaseIsReturnThenFree | crates/paraclete-antiphon/src/server.rs:287-297 | The two sections are the protocol's return and then its free. |
| SlotProtocol.EarlyFreeLosesTheProducer | crates/paraclete-antiphon/src/server.rs:287-297 | With the two releases in the other order, from any safe state a newcomer can take the freed slot and find no producer. |
| SlotProtocol.EarlyFreeRun | crates/paraclete-antiphon/src/server.rs:287-297 | A run of four steps from the start reaches such a state, and in the other order the second session then has no producer. |
| AudioOut.OutputRing.WriteBlock | crates/paraclete-hal/src/audio.rs:459-472 | The block is laid in from the write position, wrapping; a block that fits beside the unread samples destroys none of them. |
| AudioOut.OutputRing.Drain | crates/paraclete-hal/src/audio.rs:476-493 | Copies out the oldest unread samples of the stream, as many as asked and available, and nothing else of the buffer changes. |
| AudioOut.WriteKeeps | crates/paraclete-hal/src/audio.rs:459-472 | Modular positions: writing beside what is unread keeps every unread sample in its cell. |
| AudioOut.AudioCallback | crates/paraclete-hal/src/audio.rs:504-539 | Fills the whole device buffer with the next samples of the executor's stream, for every buffer size; the loop ends, the silence branch is dead and less than two blocks are ever ahead. |
| AudioOut.StartStream | crates/paraclete-hal/src/audio.rs:440-451 | A stream begins on an empty ring of four blocks. |
| AudioOut.RunCallbacks | crates/paraclete-hal/src/audio.rs:504-539 | For every sequence of buffer sizes the buffers end to end are a stretch of the stream. |
| AudioOut.Gapless | crates/paraclete-hal/src/audio.rs:504-539 | Successive stretches are one stretch: no sample lost, repeated or moved. |
| PauseHandshake.NoCollision | crates/paraclete-hal/src/audio.rs:286-311 | If every pause is called with `is_paused` false, then in every interleaving no callback touches the executor from the observed pause to the placing of the new executor. |
| PauseHandshake.PauseSafeIffCalm | crates/paraclete-hal/src/audio.rs:594-626 | From any state with an executor, one pause is safe in every interleaving if and only if the flag is false or no callback is past its decision to run. |
| PauseHandshake.StaleFlagCollides | crates/paraclete-hal/src/audio.rs:594-626 | A run from the start reaches a collision through a flag stored after a resume. |
| MachineSwitch.ClickFree | crates/paraclete-nodes/src/analog_engine.rs:646-736 | Over every run of machine writes and block sizes, neighbouring gains between swaps differ by at most one part in the fade length. |
| MachineSwitch.ClickFreeAtRate | crates/paraclete-nodes/src/analog_engine.rs:691-736 | At any rate from 200 Hz the parts of the ramp are the whole samples of five milliseconds, and neighbouring gains between swaps are one part apart at most. |
| MachineSwitch.RampLasts | crates/paraclete-nodes/src/analog_engine.rs:691-693 | The ramp lasts at most five milliseconds, and one sample more would last longer. |
| MachineSwitch.RampLength | crates/paraclete-nodes/src/analog_engine.rs:691-693 | The whole samples of five milliseconds, and below 200 Hz one. |
| MachineSwitch.Selected | crates/paraclete-nodes/src/analog_engine.rs:647-647 | Below one selects the kick, from one the snare, from two the hi-hat; anything below zero the first and above two the last. |
| MachineSwitch.PlayTurn | crates/paraclete-nodes/src/analog_engine.rs:646-736 | One block of the engine at its own rate: the fade advances as polled, and each sample of both channels comes out multiplied by its gain. |
| MachineSwitch.CancelRestores | crates/paraclete-nodes/src/analog_engine.rs:650-664 | A switch called off: the gain climbs from where it was and is full within one ramp length, with the machine as it was. |
| MachineSwitch.SilentVoiceSnaps | crates/paraclete-nodes/src/analog_engine.rs:672-689 | A silent voice takes a machine at once, unless it is already fading to it. |
| MachineSwitch.SwapsInSilence | crates/paraclete-nodes/src/analog_engine.rs:672-736 | In every run the machine changes at a poll only for a silent voice, and otherwise only right after a sample whose gain is zero or one part in the fade length; always to the polled target, and with the voice off. |
| MachineSwitch.SteadyTarget | crates/paraclete-nodes/src/analog_engine.rs:699-736 | A target left alone is swapped in exactly when the remaining ramp samples have been played. |
| MachineSwitch.SwappedWithinTheRamp | crates/paraclete-nodes/src/analog_engine.rs:646-736 | A target written to a sounding voice is on within one fade length, from any state of the fade, and not before a sample is played. |
| MachineSwitch.ScaledByGain | crates/paraclete-nodes/src/analog_engine.rs:707-723 | Each ramped sample is the rendered one times the integer gain over the fade length. |
| MachineSwitch.Engine.PollMachineParam | crates/paraclete-nodes/src/analog_engine.rs:646-689 | Start, retarget, cancel, resume and immediate swap, as the fade function has them. |
| MachineSwitch.Engine.ApplySwitchFade | crates/paraclete-nodes/src/analog_engine.rs:699-736 | Both channels are scaled by the ramp and the fade advances or ends, with a swap if it was fading out. |
| ParamLocks.NoteOwnsItsLocks | crates/paraclete-nodes/src/analog_engine.rs:317-343 | After a retrigger the locks in force are exactly the own locks since the later of block start and previous retrigger, and stay so through any number of blocks until the next own lock or retrigger. |
| ParamLocks.PendingIsSince | crates/paraclete-nodes/src/analog_engine.rs:317-343 | In every run the pending mark says whether such a lock has arrived, and then those are what is held. |
| ParamLocks.LocksLastIffUndisturbed | crates/paraclete-nodes/src/analog_engine.rs:317-343 | What follows a retrigger leaves every note exactly its locks if and only if it holds no own lock and no retrigger. |
| ParamLocks.FirstLockReplaces | crates/paraclete-nodes/src/analog_engine.rs:317-323 | A lock after a retrigger replaces the sounding note's set. |
| ParamLocks.BlockEndDropsTheClaim | crates/paraclete-nodes/src/analog_engine.rs:1162-1167 | A lock left over from a block is not handed to a later block's first note. |
| ParamLocks.Engine.ProcessBlock | crates/paraclete-nodes/src/analog_engine.rs:1153-1219 | The bank takes exactly the block's commands, and no lock alters it; then triggers and events, in order, drive the lock state. |
| BlockLocks.NoteTakesItsLocks | crates/paraclete-nodes/src/analog_engine.rs:1162-1219 | After a block whose last trigger is a note, with no own lock after it, in force are exactly the events' locks for this node between the trigger before, or the block's start, and that note, in order; whatever was in force and whatever the commands. |
| BlockLocks.LocksAfterTheNotes | crates/paraclete-nodes/src/analog_engine.rs:1196-1200 | Own locks after the last note are what is in force. |
| BlockLocks.QuietBlock | crates/paraclete-nodes/src/analog_engine.rs:1162-1186 | Without notes and own locks in force stays what was, or nothing if a command of type 19 came. |
| BlockLocks.OthersLocksPass | crates/paraclete-nodes/src/analog_engine.rs:1198-1200 | A lock for another node changes nothing, wherever it stands. |
| ParamLocks.FirstLock | crates/paraclete-nodes/src/analog_engine.rs:348-353 | Among several locks on one parameter the first is read. |
| UnionBank.UnionParams | crates/paraclete-nodes/src/analog_engine.rs:557-603 | The `machine` slot with the active machine for default, the LFO's params and the in-place merge of every machine's come to the union of the declarations. |
| UnionBank.ActiveOnlyPicksDefaults | crates/paraclete-nodes/src/analog_engine.rs:557-603 | Whatever two machines are active, the ids, their order and their ranges are the same, defaults of the base included. |
| UnionBank.UnionCovers | crates/paraclete-nodes/src/analog_engine.rs:557-603 | Ids are unique, ranges are in order, and every machine's range of a param lies within that param's slot. |
| UnionBank.UnionTight | crates/paraclete-nodes/src/analog_engine.rs:557-603 | Each end of a slot's range is some declaration's: the union is no wider than it must be. |
| UnionBank.ActiveDefaults | crates/paraclete-nodes/src/analog_engine.rs:557-603 | Every param the active machine declares starts at that machine's default. |
| UnionBank.FirstDeclarersDefault | crates/paraclete-nodes/src/analog_engine.rs:590-598 | A param the active machine does not declare starts at the default of the first machine that does. |
| UnionBank.MachineSlot | crates/paraclete-nodes/src/analog_engine.rs:558-568 | The first slot is `machine`, over the machines, at the active one. |
| UnionBank.ReloadLossless | crates/paraclete-nodes/src/analog_engine.rs:1099-1105 | Whatever the bank holds and whichever machines save and load, every slot in range comes back as it was. |
| UnionBank.ValueOutlives | crates/paraclete-nodes/src/analog_engine.rs:754-764 | A value in range that no command writes outlives every sequence of commands, machine switches, saves and loads. |
| UnionBank.LegalValueSurvives | crates/paraclete-nodes/src/analog_engine.rs:1082-1105 | A value legal on any machine, set at any moment of a session, is in the bank after every further sequence of other writes, switches, saves and loads. |
| ParameterBank.SchemaRestores | crates/paraclete-node-api/src/parameter.rs:228-265 | For any save-time and load-time schemas with unique ids, in any order and with any trailing bytes: a saved id gets the saved value clamped to the load-time range. |
| ParameterBank.SchemaLeaves | crates/paraclete-node-api/src/parameter.rs:228-265 | An id that was not saved keeps its value. |
| ParameterBank.ReloadedSlot | crates/paraclete-node-api/src/parameter.rs:228-265 | For a save of any size, exactly the first count-modulo-65536 slots come back. |
| ParameterBank.CountDecides | crates/paraclete-node-api/src/parameter.rs:228-265 | A save of finite values is read back rightly into every schema, whatever follows it, if and only if it has fewer than 65536 slots. |
| ParameterBank.LastIsLost | crates/paraclete-node-api/src/parameter.rs:228-237 | The last slot of a larger save does not reach a schema of that one slot. |
| ParameterBank.SerializedPairs | crates/paraclete-node-api/src/parameter.rs:228-237 | Serialized bytes parse back, pair for pair, whatever follows them. |
| ParameterBank.LoadKeeps | crates/paraclete-node-api/src/parameter.rs:250-265 | Any bytes at all leave every slot's id and range alone, and every value either as it was or finite and in range. |
| ParameterBank.CommandsKeep | crates/paraclete-node-api/src/parameter.rs:95-114 | The same of any commands, whatever sum the addition returns. |
| BankNumbers.AtMostIsOrder | crates/paraclete-node-api/src/parameter.rs:101-101 | The order of the bit patterns of finite doubles is the order of the numbers their sign, exponent and fraction stand for. |
| BankNumbers.AnyLoadKeeps | crates/paraclete-node-api/src/parameter.rs:250-265 | Whatever bytes are loaded, every slot is as it was or holds a number between those of its unchanged ends. |
| BankNumbers.AnyCommandsKeep | crates/paraclete-node-api/src/parameter.rs:95-114 | The same whatever commands are handled. |
| BankNumbers.SetStores | crates/paraclete-node-api/src/parameter.rs:156-163 | A set stores the number, or the nearer end of the range, in the first slot of that id and nowhere else; values without a number and unknown ids change nothing. |
| BankNumbers.BumpCommandStores | crates/paraclete-node-api/src/parameter.rs:104-110 | A bump does so with the sum of what the slot holds and the argument. |
| BankNumbers.SetCommandStores | crates/paraclete-node-api/src/parameter.rs:97-103 | A command of type 0 does so with its argument. |
| BankNumbers.StartsAtDefaults | crates/paraclete-node-api/src/parameter.rs:60-71 | A bank has one slot for each declared param, with its range, at its default. |
| BankNumbers.Layout | crates/paraclete-node-api/src/parameter.rs:228-237 | A save byte by byte: a one, the count, and for each slot its id and its value's bits, lowest byte first. |
| ParameterBank.ParameterBank.Deserialize | crates/paraclete-node-api/src/parameter.rs:250-265 | Applies exactly the whole-pair prefix, in order; malformed headers apply nothing. |
| ParameterBank.ParameterBank.Serialize | crates/paraclete-node-api/src/parameter.rs:228-237 | Version byte, 16-bit count and the id-value pairs, little-endian. |
| ParameterBank.LeRoundTrip | crates/paraclete-node-api/src/parameter.rs:228-262 | A little-endian field of n bytes reads back every number that fits in it. |
| ChainDerivation.DeriveChain | crates/paraclete-app/src/main.rs:1055-1083 | The worklist ends on every graph, cycles included; the chain is duplicate-free and holds exactly the rule-bearing nodes, other than the engine, reachable over audio edges that never enter a mix or output. |
| ChainDerivation.BuildChains | crates/paraclete-app/src/main.rs:1032-1119 | Two passes: declared engines in declaration order, then the undeclared in id order, each with its exact chain. An engine is a tagged node or a rule-bearing one with audio out and no audio in; all have chains but a declared node 0. |
| ChainDerivation.ChainsPerEngine | crates/paraclete-app/src/main.rs:1055-1119 | How many chains any node gets, for any declaration order. |
| ChainDerivation.OneChainEach | crates/paraclete-app/src/main.rs:1055-1119 | For any declaration order, every engine gets exactly one chain if and only if node 0 is not a declared engine and no other engine is declared twice. |
| ChainDerivation.DeclaredInOrder | crates/paraclete-app/src/main.rs:1054-1083 | Declared engines have their chains in declaration order. |
| ViewValidate.ValidateView | crates/paraclete-node-api/src/view_validate.rs:76-276 | Reports a defect if and only if the declaration has it, and none if and only if it is well formed, identity being compared by name. |
| ViewValidate.RefsServeIff | crates/paraclete-node-api/src/view_validate.rs:90-206 | The well-formed references, told over the rule's own pages and each variant's: every list places declared params only and shows all the rule speaks of, and every declared param is on some list. |
| ViewValidate.ViewsAre | crates/paraclete-node-api/src/view_validate.rs:90-94 | The base view is the rule's pages, and each variant has its own name and its own pages. |
| ViewValidate.NoDefectsIff | crates/paraclete-node-api/src/view_validate.rs:76-276 | Having some defect and not being well formed by name are the same. |
| ViewValidate.NamesDecide | crates/paraclete-node-api/src/view_validate.rs:232-251 | For given variant names, well-formedness by name agrees with well-formedness on every document if and only if the names are distinct. |
| ViewValidate.CheckIdentity | crates/paraclete-node-api/src/view_validate.rs:209-251 | Reports exactly the params flagged somewhere while some variant's name is not among those that flag them. |
| ViewValidate.CheckAffordances | crates/paraclete-node-api/src/view_validate.rs:115-139 | Per view, exactly the undisplayed affordances and the envelope indices out of range. |
| Delay.DelayNode.Process | crates/paraclete-nodes/src/delay.rs:120-165 | A block over the circular buffers with any requested delay has the output, the filter state and the written values of the unbounded history, for every number of input and output channels. |
| Delay.DelayNode.Sample | crates/paraclete-nodes/src/delay.rs:142-163 | One sample reads exactly the value written `delay` samples before, or silence. |
| Delay.WriteHolds | crates/paraclete-nodes/src/delay.rs:146-162 | After a write, every delay the buffer is long enough for still reads as the history does. |
| Delay.RunReads | crates/paraclete-nodes/src/delay.rs:120-165 | Over any run of blocks, however the delay changes between them, each sample's output is the input mixed with what the run wrote `delay` samples before it. |
| Delay.DryAndWet | crates/paraclete-nodes/src/delay.rs:146-160 | A sample is heard as input times dry plus what was written `delay` samples before times wet. |
| Delay.SampleFeedsBack | crates/paraclete-nodes/src/delay.rs:150-157 | The low-pass takes in what was written `delay` samples before, and the input goes onto the line with its output times feedback. |
| Delay.NearestDelay | crates/paraclete-nodes/src/delay.rs:129-130 | A requested delay becomes the nearest the buffer is long enough for. |
| Delay.InputsAre | crates/paraclete-nodes/src/delay.rs:143-144 | No input is silence, one is on both sides, of more the first two are left and right. |
| Envelope.Bounded | crates/paraclete-nodes/src/envelope.rs:88-162 | In every run of gates, modes and parameters the level stays in [0, 1]. |
| Envelope.ReleaseClosedForm | crates/paraclete-nodes/src/envelope.rs:151-157 | Under a low gate the level is the start times the product of the coefficients, and the phase is idle exactly once that is under the floor. |
| Envelope.ReleaseSettles | crates/paraclete-nodes/src/envelope.rs:106-157 | If c^n is at most 0.001, a release is idle from sample 2n on, also when its first sample is the falling edge. |
| Envelope.CycleSettles | crates/paraclete-nodes/src/envelope.rs:112-157 | With a times the increment at least 1, a one-shot cycle with no new rise is idle from sample a + 2n on, from any state. |
| Envelope.EnvelopeNode.Process | crates/paraclete-nodes/src/envelope.rs:106-161 | Every output sample is the level of the phase machine after that sample; a short gate buffer reads as low. |
| Envelope.OneSample | crates/paraclete-nodes/src/envelope.rs:107-158 | What one sample does in every phase and mode, with gates at one half and the floor at 0.00001. |
| Envelope.HeldNoteSustains | crates/paraclete-nodes/src/envelope.rs:127-150 | A held note decays by the product of the coefficients until that is down to the sustain level, and then stays there. |
| KitApply.Conserved | crates/paraclete-app/src/perform_state.rs:164-194 | Until the next load, and whatever calls the ring refuses, accepted entries followed by pending ones are the kit in order. |
| KitApply.CommandsAre | crates/paraclete-app/src/perform_state.rs:175-180 | Each entry goes out as a command of type 0 to its node and param with its value. |
| KitApply.TickHandsOver | crates/paraclete-app/src/perform_state.rs:168-168 | At most sixteen entries go out in a tick. |
| KitApply.TakenToRefusal | crates/paraclete-app/src/perform_state.rs:171-193 | What a chunk hands over ends exactly at the ring's first refusal. |
| KitApply.NeverFull | crates/paraclete-app/src/perform_state.rs:164-194 | With a ring that is never full, n entries are out after t ticks if and only if t is at least ceil(n / 16). |
| KitApply.RoomForOneSuffices | crates/paraclete-app/src/perform_state.rs:164-194 | If each tick's first call finds room, a kit of n entries is out within n ticks. |
| KitApply.PerformState.ApplyPendingChunk | crates/paraclete-app/src/perform_state.rs:164-194 | Sends up to sixteen entries until a refusal and puts the refused one and the rest back in front, in order; the ring got exactly the accepted ones. |
| KitApply.PerformState.KitLoad | crates/paraclete-app/src/perform_state.rs:196-204 | A present kit replaces what is pending; an id of 64 or more, or an empty slot, changes nothing. |
| KitApply.PerformState.Tick | crates/paraclete-app/src/perform_state.rs:56-64 | A chunk goes out, then, outside perform mode, the first switch to a bound pattern loads its kit. |
| KitApply.ScanPaysFirst | crates/paraclete-app/src/perform_state.rs:297-330 | One look loads the first kit owed for a pattern switch and leaves exactly the others owed; with none owed, every playing sequencer is up to date. |
| KitApply.OwedIff | crates/paraclete-app/src/perform_state.rs:307-318 | A kit is owed for a sequencer seen before that now plays another of the eight patterns, if that one is bound; a negative number is no pattern. |
| KitApply.PerformState.TempReload | crates/paraclete-app/src/perform_state.rs:139-160 | A reload command to each of the eight sequencers in turn, as far as there is room, and then the snapshot, if any, is what is pending. |
| KitApply.SwitchesServedInOrder | crates/paraclete-app/src/perform_state.rs:297-330 | While the bus holds still, every switch to a bound pattern loads its kit exactly once, one a tick, in sequencer order. |
| KitRuns.RunSends | crates/paraclete-app/src/perform_state.rs:56-64 | Over any run of ticks and loads, with any refusals, the ring gets what was sent before and then, kit by kit, exactly what each sends in the ticks it is given before the next takes its place. |
| KitRuns.StagePrefix | crates/paraclete-app/src/perform_state.rs:164-204 | Of every kit that is a prefix, and what a load discards is the rest. |
| KitRuns.KitsWholeIffOut | crates/paraclete-app/src/perform_state.rs:164-204 | Every kit goes out whole if and only if nothing of any is left when its ticks are over. |
| KitRuns.KitsWholeIffFit | crates/paraclete-app/src/perform_state.rs:164-204 | With a ring that is never full, if and only if each kit has at most sixteen entries for each of its ticks. |
| KitRuns.SwitchedKitsWholeIffFit | crates/paraclete-app/src/perform_state.rs:56-64 | The same of a run of ticks over any states of the bus, each switch loading its kit. |
| KitRuns.OwedKitsWholeIff | crates/paraclete-app/src/perform_state.rs:297-330 | While the bus holds still, what was pending and the owed kits go out whole, one after the other, if and only if each but the last has at most sixteen entries. |
| KitRuns.OpenRunSends | crates/paraclete-app/src/perform_state.rs:164-204 | With a ring that is never full, of every kit exactly its first sixteen entries for each of its ticks go out. |
| KitRuns.SecondSwitchCutsTheFirstKit | crates/paraclete-app/src/perform_state.rs:297-330 | Two sequencers that switch in one tick, however long the ticks go on: of the first kit only the first sixteen entries are ever sent. |
| KitRuns.RunTicks | crates/paraclete-app/src/perform_state.rs:56-64 | The main loop's ticks over successive states of the bus are that run. |
| Transport.PositionInTicks | crates/paraclete-clap/src/transport.rs:43-56 | For positions in [0, 2^53]: ((bar - 1) * 4 + beat) * 960 + tick is the position in ticks rounded down, with beat below 4 and tick below 960; a negative position is bar 1, beat 0, tick 0. |
| Transport.ConvertedInTicks | crates/paraclete-clap/src/transport.rs:46-53 | The same of every 64-bit position in terms of its conversion to a double, and none of the casts to 32 bits cuts anything off. |
| Transport.PositionMonotone | crates/paraclete-clap/src/transport.rs:43-56 | Over the whole 64-bit range a later position is never an earlier bar, beat and tick. |
| Transport.AlternatesIffCleanStops | crates/paraclete-clap/src/subgraph.rs:75-124 | Over any run of host calls and deactivations, rewinds and stops alternate if and only if no one deactivated while playing plays again. |
| Transport.EventPerEdge | crates/paraclete-clap/src/subgraph.rs:90-107 | In every run there is one event per change of playing that a call reports. |
| Transport.EventsAlternate | crates/paraclete-clap/src/subgraph.rs:90-124 | In one activation, whatever the host says or leaves unsaid, rewinds and stops alternate, one per change of playing, and the last event tells whether it plays. |
| Transport.DeactivatingWhilePlayingRewindsTwice | crates/paraclete-clap/src/subgraph.rs:75-77 | A host that plays, deactivates and plays gets two rewinds in a row. |
| Transport.SubgraphPlugin.Process | crates/paraclete-clap/src/ffi.rs:143-217 | One host call gives the executor the translated transport with its own edge and no second one, or a stopped transport when the host says nothing. |
| Transport.GivenForHost | crates/paraclete-clap/src/transport.rs:32-111 | The position of a host that has one in ticks, the tempo, the states by their bits, and on a change of playing an event at that position with the right flags. |
| Transport.GivenForSilence | crates/paraclete-clap/src/ffi.rs:151-153 | A host that says nothing stands still at the start at 120 beats a minute, and stops what was playing. |
| Transport.SubgraphPlugin.Drive | crates/paraclete-clap/src/ffi.rs:113-217 | Over a whole run of calls and deactivations the executor gets exactly that run's events. |

## Left out

- Sockets, HTTP, JSON, threads' I/O loops, tokens and discovery: frames are values, and client threads appear as connects and disconnects between locked sections.
- Buffers the source panics on: a delay line of one sample and a ring of empty blocks.
- Rounding: state values, samples of the ring, gains and envelope levels are exact reals; the delay line and the parameter bank take arithmetic as a parameter and hold for any rounding.
- NaN and infinities on the state bus: mirrored values are reals, so the repeated sending of a NaN that never equals itself is not modelled.
- StateBus.BuildContextFrame: does not sort the slots by encoder number, because a frame is keyed by encoder key.
- KitApply.PerformState.Tick: does not publish the three `/context` lines, which are display text of fields the tick does not change.
- Nodes that two watched machine paths name: which of the paths' values a selection then is.
- Overflow of the 64-bit sample totals of the ring.
- `AudioEngine.new_paused` as a start state: the pause theorem for one pause covers every state that holds an executor.
- Memory ordering of the two pause flags: accesses interleave one at a time.
- Poisoned locks and failed serialization.
- Sound generation, the LFO and `render_span`: a block is what the executor yields, and locks are followed from event to event.
- The FM engine and the sampler: the same switch and lock logic.
- `ParamDescriptor` names, units and display hints; hashed ids are taken as distinct numbers.
- `ParameterBank.range`, `iter_values` and the path cache: they only read.
- UnionBank.LegalValueSurvives: for banks of fewer than 65536 slots, which `ParameterBank.CountDecides` shows to be the exact bound of a save.
- The text of a view defect: a defect is a value naming its kind and place.
- The tags that make a node an engine: the tagged nodes are a parameter of the chain derivation.
- Kit capture, naming, saving and committing: kits are given as entries.
- CLAP note and parameter events, audio pointers and saved plugin state.
- How a host position beyond 2^53 rounds: the conversion to a double is a parameter, exact up to there and monotone everywhere.
- Terminal surface, device opening, YAML and RON loading, argument parsing.
