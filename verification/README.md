# Verification model of the flexi-ninja motion controller

The controller turns LinuxCNC position targets into STEP/DIR edges. A host driver packs each axis's movement for one
servo period into a 32-bit word; firmware on an RP2040/RP2350 checks the packet, queues the word and keeps a position
count; a PIO state machine executes the word as a pulse train. Around this path sit a jitter ring for timer mode, two
quadrature decoders, two SPI drivers, UDP and DHCP on a W5500, an allocator of PIO state machines, and two safety
latches. This project models these parts in Dafny and proves what they promise, per call and over whole runs.

`dafny verify dfyconfig.toml` checks everything.

## How it is organised

Code that changes state is modelled as classes and loops; each method is proved equal to a step function on values, and
the whole-run theorems are lemmas about those step functions. Interrupts, devices, the network and the passage of time
are arbitrary event sequences or functions, and the theorems hold for all of them.

| file | models |
|---|---|
| `Bits` | 32-bit wrap-around, bitwise OR and XOR |
| `PioMachine` | the PIO instruction set, interpreted from the 16-bit words |
| `StepProgram`, `StepAccount` | the step program: one word, and what every instruction keeps |
| `StepHost` | timing table, position loop, word packing, feedback |
| `ChecksumGate`, `StepFirmware` | packet handling, FIFO wait, accounting, DIR set-up count |
| `StepPipeline` | host, link, gate, ring, firmware and state machine of one axis together, in both modes |
| `StepSetup`, `StepReport`, `StepCases` | DIR set-up and the overflow bits over whole runs of the pipeline; two concrete runs |
| `StepSystem` | all axes together, and their projection onto the pipeline |
| `StepRing` | the three-slot ring of timer mode |
| `Quadrature`, `IrqEncoder` | the PIO decoder and the interrupt decoder |
| `DwSpi`, `AuxSpi` | the DesignWare and the BCM2835 auxiliary SPI transfer |
| `UdpSocket` | `recvfrom` in UDP mode over the chip's ring memory |
| `DhcpOptions`, `DhcpClient` | option writer and parser (RFC 2132 section 2), client (RFC 2131 section 4.4) |
| `PioAllocator`, `HostWatchdog` | state machine allocation, the host's communication watchdog |

The main chain is `StepProgram.WordRuns` (what one word does, edge by edge and cycle by cycle), `StepHost.TableExact`
and `StepHost.PackFields` (what the host puts in a word), `StepFirmware.Firmware.HandleData` (what the firmware does
with it), `StepPipeline.EndToEnd`, `PositionEpoch` and `Completes` (conservation across the layers, at every reachable state
of every run) and `StepSetup.SetupIffNoneStranded` (exactly which losses break the DIR set-up on the pins).

## What the proofs found

- **Bursts overrun the servo period.** All 299 rows of `pio_settings.h` list `high_cycles = (sety+1)(nop+2)`. The
  program holds STEP high two cycles longer. In direct mode a burst of n steps therefore takes
  `total + n + 8 - total % n` cycles, always more than the period's `total`, and in timer mode, where the driver allows
  no dormant cycles, 6n more (`StepHost.ListedHighOverruns`). With the true high time in the table it would fit exactly
  when `n + total % n >= 8` in direct mode, and never in timer mode (`StepHost.TrueHighFits`).
- **DIR set-up is honoured exactly up to 2053 clock cycles** (`StepFirmware.SetupHonoured`): beyond that the 5-bit loop
  count saturates, and the 16-bit packet field cuts off longer pins.
- **Requests above the table's capacity lose steps.** The word's step field is 0 but `prev_pos` advances
  (`StepHost.WordMatchesMove`, exact; `StepHost.ExcessIsLost`, a concrete case). `StepPipeline.EndToEnd` accounts for
  these steps in every run as `excess`.
- **A lost word can break the DIR set-up** of a later one, because the host sets bit 11 against the last word it sent,
  not the last one executed. It takes a stranded word: one that reaches the FIFO, was sent behind a lost word of its own
  direction, and finds the last accepted word going the other way, so that the change of direction itself was lost. If
  every accepted word has steps (no request was beyond the table), or dirN is 0, the set-up is broken exactly when a
  stranded word was accepted. A stranded word without steps leaves at least 12 cycles before the next STEP edge, and
  whether that breaks a longer set-up depends on when the next word arrives (`StepSetup.SetupIffNoneStranded`).
  `StepCases.LossBreaksSetup` is a run ended by a STEP edge too soon on the pins.
- **Timer mode loses rows it has accepted**, with no flag: exactly those whose tick finds that a bad packet arrived after
  the row and is among the last ten (`StepRing.RowFate`; `StepRing.TimerModeLosesRows` is an instance).
- **Timer mode can erase an overflow bit** that no report has carried: exactly when a tick between a report's reading of
  the bits and its clearing of them drops a word (`StepReport.ErasedIffUntimely`). `StepCases.DropUnreported` is such a
  run, on any table whose one-step low time outlasts a wait. Every other dropped word is reported or waits to be
  (`StepReport.RunKeepsFlags`); in direct mode there are no others.
- **A failed alarm claim leaves the ring dead**: a full ring yields nothing until a disconnect exactly when it holds no
  alarm (`StepRing.DeadIffNoAlarm`), which three packets can bring about (`StepRing.DeadReached`).
- **DHCP**: the address in a renewal's ACK is never read, so the address-changed branch cannot be reached
  (`DhcpClient.RunKeepsInv`). A unicast REQUEST names no addresses unless the server identifier's last byte is 255
  (`DhcpOptions.WriteRequest`: the code tests that byte, not the state). While a renewal is unanswered `DHCP_run` says
  running, not leased (`DhcpClient.CodeMeans`). A first request starts with the clock and the retries its discovery left
  (`DhcpClient.OfferTaken`).
- **SPI**: the free TX entries in `tx_max` never decide; the gap that protects RX is never larger
  (`DwSpi.Spi.TxMax`).
- **A first reply with a bad checksum is taken**, and so is every one until a reply has been taken at a nonzero clock,
  because 0 stands for "never" (`HostWatchdog.ExpiredIffSilent`; with one taken, `CorruptLinkExpires`).
- **UDP**: `socket.h` says a zero-length datagram shows as PACK_FIRST with a return of 0; the code sets PACK_COMPLETED.
  PACK_FIRST also stays set on the middle fragments of a datagram. The model follows the code.

## Model

| member | source | states |
|---|---|---|
| StepProgram.Decoded | firmware/pio/freq_generator.pio.h:19-45 | The disassembly every other proof uses is that of the generated instruction words, with the five patchable operands at any value |
| StepProgram.HighLoop | firmware/pio/freq_generator.pio.h:38-39 | The nested `jmp y--` loop holds STEP for exactly (y+1)(nop+2) cycles from any count |
| StepProgram.LowLoop | firmware/pio/freq_generator.pio.h:41-42 | The low-time loop takes y+1 cycles from any count |
| StepProgram.SetupLoop | firmware/pio/freq_generator.pio.h:28-33 | The DIR set-up loop takes 66y+2 cycles from any count and leaves the step count alone |
| StepProgram.OnePulse | firmware/pio/freq_generator.pio.h:34-43 | One turn of the pulse loop: one rise, one fall after the high time, total high+low+5 cycles |
| StepProgram.AllPulses | firmware/pio/freq_generator.pio.h:34-43 | From any step count x: exactly x evenly spaced pulses, then back to the fetch |
| StepProgram.Header | firmware/pio/freq_generator.pio.h:22-33 | Unpacking: step count, DIR level on the pin before any pulse, and the set-up delay exactly when bit 11 is set |
| StepProgram.WordRuns | firmware/pio/freq_generator.pio.h:19-45 | Any word on an idle machine: exactly `w & 0x3ff` pulses, DIR = bit 10 before the first, next fetch after n(H+c+5)+8 cycles (66·dirN+3 more with bit 11), complete edge history |
| StepAccount.GoKeepsAccount | firmware/pio/freq_generator.pio.h:19-45 | Every single instruction conserves signed pulses emitted + steps in the machine + steps in the FIFO |
| StepAccount.StepsKeepAccount | firmware/pio/freq_generator.pio.h:19-45 | So does any number of instructions, from any point of the program |
| StepAccount.GoKeepsSetup | firmware/pio/freq_generator.pio.h:22-37 | Every instruction keeps: no STEP edge sooner than 66·dirN+7 cycles after any earlier DIR change, given flagged words |
| StepAccount.StepsKeepSetup | firmware/pio/freq_generator.pio.h:22-37 | The same over any number of instructions, with more flagged words still to arrive |
| StepAccount.GoKeepsFlags | firmware/pio/freq_generator.pio.h:21-26 | Fetching and unpacking keep the DIR level the queued words lead to, and the chain of flags, also with words still to come |
| StepAccount.GoKeepsDoom | firmware/pio/freq_generator.pio.h:21-37 | No instruction saves the set-up time once the machine holds a word with steps that changes DIR without bit 11 |
| StepAccount.StepsKeepDoom | firmware/pio/freq_generator.pio.h:21-37 | Nor does any number of instructions |
| StepAccount.GoKeepsEase | firmware/pio/freq_generator.pio.h:21-37 | Every instruction keeps 12 cycles (7 if dirN is 0) from any DIR change to a STEP edge while only words without steps change DIR without bit 11 |
| StepAccount.Finishes | firmware/pio/freq_generator.pio.h:19-45 | From every address and register content the machine gets back to the fetch without touching the FIFO (no livelock) |
| StepAccount.Drains | firmware/pio/freq_generator.pio.h:19-45 | With no more words the machine ends idle, having emitted exactly the account |
| StepHost.TableExact | hal-driver/flexi-ninja.c:847-857 | The nonzero entries are exactly 1..min(1023, total/(2·high+dormant)), dormant being 6 in direct and 0 in timer mode; each carries its own step count, no flags, and its low count exactly when that fits 20 bits |
| StepHost.BurstTiming | hal-driver/flexi-ninja.c:849-857 | Length of the burst and STEP low time on the pins, for any difference between table and real high time |
| StepHost.TrueHighFits | hal-driver/flexi-ninja.c:849-857 | With the real high time in the table a burst fits the servo period if and only if n + total mod n >= 8 in direct mode, and never in timer mode |
| StepHost.ListedHighOverruns | firmware/lib/modules/inc/pio_settings.h:15-315 | With the listed high time every burst overruns the servo period, in both modes, by a stated amount; STEP is still low at least as long as high |
| StepHost.CycleMoves | hal-driver/flexi-ninja.c:876-914 | prev_pos moves by exactly clamp(target - prev, -1023, 1023), including the out-of-range conversion and the negation that overflows |
| StepHost.PackFields | hal-driver/flexi-ninja.c:902-904 | ORing the direction and its change flag into an entry sets those two fields and disturbs neither count |
| StepHost.WordMatchesMove | hal-driver/flexi-ninja.c:880-914 | The word's signed steps equal the movement of prev_pos if and only if the clamped request is within the table |
| StepHost.ExcessIsLost | hal-driver/flexi-ninja.c:903-910 | Counterexample: a request of five where four fit moves prev_pos by five and sends no step |
| StepHost.WordFlagged | hal-driver/flexi-ninja.c:868-941 | In every mode, across zero-step cycles and disables, a sent word carries bit 11 exactly when its DIR differs from the last word sent, the first word included |
| StepHost.WordWorth | hal-driver/flexi-ninja.c:869-940 | In every mode a word is worth the steps asked if the table can carry them, and nothing if not |
| StepHost.HistoryState | hal-driver/flexi-ninja.c:871-879 | After every sequence of requests to an axis it is marked for re-basing if and only if no request has come or the last one was Disabled; otherwise prev_pos is where the requests alone say it was left |
| StepHost.HistoryMoves | hal-driver/flexi-ninja.c:869-940 | In every history, read off the requests alone: the first enabled request, and each one whose predecessor was Disabled, is measured from its own home, every other from where its predecessor left the axis; in position mode prev_pos becomes that plus clamp(target - that), in velocity mode it stays; the word is worth the steps so asked if the table can carry them, and nothing if not; Disabled sends nothing |
| StepHost.CatchUp | hal-driver/flexi-ninja.c:880-914 | With a fixed target: no overshoot or reversal, reached after exactly ceil(d/1023) cycles, zero words thereafter |
| StepHost.FeedbackTracks | hal-driver/flexi-ninja.c:783-788 | Accumulated int32 differences follow the true position through wrap-around while it moves less than 2^31 between reports |
| StepHost.Host.BuildTiming | hal-driver/flexi-ninja.c:847-857 | The loop fills exactly that table and reports its capacity as the most steps per cycle |
| StepHost.Host.SendAxis | hal-driver/flexi-ninja.c:869-940 | One axis in place refines Cycle, whose re-basing HistoryMoves states, and leaves the other axes alone |
| StepHost.Host.ProcessSend | hal-driver/flexi-ninja.c:868-944 | Over all sends so far, on every axis: marked for re-basing if and only if its last request was Disabled; otherwise prev_pos is where its own requests lead by the rule of HistoryMoves, and the word is worth the steps they ask for if the table can carry them, and nothing if not |
| StepHost.Follower.ProcessRecv | hal-driver/flexi-ninja.c:783-788 | Every axis's feedback moves by the int32 difference of its reports, and is the total FeedbackTracks speaks of |
| StepFirmware.SetupCovers | firmware/src/main.c:354-359 | The set-up provided covers the requested cycles if and only if at most 2053 are requested |
| StepFirmware.DirCountIsLeast | firmware/src/main.c:357-359 | The count patched in is the least whose loop, with the two cycles that leave it, takes the cycles requested, or 31 where none does |
| StepFirmware.SetupHonoured | hal-driver/flexi-ninja.c:945 | In nanoseconds from the driver's pin to the edges, with the 16-bit cut: honoured if and only if pin·MHz <= 2053000 |
| StepFirmware.WaitRuns | firmware/src/main.c:140-144 | Waiting for FIFO room only lets the machine run; it succeeds exactly when it ends with room |
| StepFirmware.WaitFails | firmware/src/main.c:140-144 | The wait fails exactly when each of its polls finds the FIFO full |
| StepFirmware.RefusedIffFull | firmware/src/main.c:138-155 | A word is dropped and its overflow bit raised if and only if it is nonzero and all thousand polls find the FIFO full |
| StepFirmware.WiredFields | firmware/src/main.c:146-149 | Inverting an axis flips the DIR level only; the axis still counts the same signed steps |
| StepFirmware.Firmware.ApplyWord | firmware/src/main.c:137-157 | The polling loop with its timeout refines Offer: queued and counted, or dropped and flagged; other axes untouched |
| StepFirmware.Firmware.ApplyCommands | firmware/src/main.c:132-158 | All axes of a packet, or none when the gate is shut |
| StepFirmware.Firmware.HandleData | firmware/src/main.c:795-936 | Gate, commands, then a report of every position and overflow bit, which clears the bits |
| ChecksumGate.Counts | firmware/src/main.c:795-808 | While shut, the counter is exactly the good packets since the last bad one; open means ten packets without a bad one |
| ChecksumGate.SlidingWindow | firmware/src/main.c:795-810 | A packet takes effect if and only if none of it and the nine before it is bad |
| ChecksumGate.DisconnectForgets | firmware/src/main.c:280 | A disconnect leaves a stale count behind, and it never matters: what passes afterwards is what a new gate would pass |
| ChecksumGate.OnlyLater | firmware/src/main.c:795-810 | After a packet that passed, only later packets decide whether the gate is open |
| StepPipeline.WordMatchesIntent | hal-driver/flexi-ninja.c:868-941 | In every mode the word is worth the steps asked for if and only if the table can carry the request, and nothing otherwise |
| StepPipeline.OfferKeeps | firmware/src/main.c:137-157 | An offered word adds its signed steps to the machine's account and to the position, or to neither and raises the overflow bit |
| StepPipeline.ArriveConserves | firmware/src/main.c:795-818 | A packet, good or bad, in either mode, keeps the books |
| StepPipeline.TickConserves | firmware/src/main.c:976-1000 | So does a tick: the row taken off the ring is applied, or lost and counted so |
| StepPipeline.RunConserves | firmware/src/main.c:132-226 | Conservation is kept by every send, delivery, packet lost on the link, report, tick, disconnect and burst of instructions in any interleaving, whatever is requested |
| StepPipeline.LossesAreReal | firmware/src/main.c:132-226 | Each kind of counted loss has its cause: only the link misses a packet, a shut gate gates one, a full ring crowds one out, a disconnect cuts one off, a FIFO full at all thousand polls drops one |
| StepPipeline.GateIsWindow | firmware/src/main.c:795-808 | In every run of the pipeline the gate is shut if and only if one of the last ten arrivals since a disconnect is bad |
| StepPipeline.EndToEnd | firmware/src/main.c:132-226 | In every run of both modes, at every reachable state: asked = under way + in the ring + lost + in excess of the table + counted; the position is, mod 2^32, pulses emitted + pending; steps are lost only to the link, the gate, a full ring, a disconnect or a full FIFO |
| StepPipeline.EpochMoves | hal-driver/flexi-ninja.c:868-914 | From any state on, while the axis stays enabled in position mode, prev_pos moves by exactly the steps asked for |
| StepPipeline.HostFollows | hal-driver/flexi-ninja.c:869-940 | In every run of the pipeline the host is where its requests alone leave it |
| StepPipeline.PositionEpoch | hal-driver/flexi-ninja.c:868-947 | For a position-mode epoch after any history: prev_pos's movement is the growth of pulses emitted plus steps in the machine, FIFO, ring, on the way, lost and in excess; the firmware's position moves by the same, mod 2^32, when nothing is on the way, lost or in excess |
| StepPipeline.FifoFits | firmware/src/main.c:141-150 | In no run does the firmware overrun the four-word TX FIFO |
| StepReport.RunKeepsFlags | firmware/src/main.c:935-936 | With the report's read and clear of the overflow bits as separate steps: each dropped word is covered by a report with the bit set, or the bit waits to be read, or it was erased between the two; reports carry it only for dropped words; in direct mode none is erased |
| StepReport.ErasedIffUntimely | firmware/src/main.c:935-936 | In every run, a bit is erased if and only if some tick between the two takes a nonzero word with the gate open and finds the FIFO full at every poll, and the clearing follows |
| StepCases.WaitInLow | firmware/src/main.c:141-144 | A wait that the low time outlasts fails on a full FIFO, with the machine running all the while |
| StepCases.DropUnreported | firmware/src/main.c:935-936 | Whatever the machine executes between polls: if the one-step low time outlasts a wait, there is a run from power-on in timer mode that drops a word whose bit no report carries |
| StepCases.LowOutlastsPolls | hal-driver/flexi-ninja.c:849-857 | The low time of one step does outlast a wait of m instructions a poll when 1000m cycles of the period are left by the high time |
| StepPipeline.Completes | firmware/pio/freq_generator.pio.h:19-45 | In every run, left alone the machine ends idle with exactly the counted steps on the pins: those asked for, less those lost and in excess |
| StepSetup.OfferForetold | firmware/src/main.c:137-157 | A word that enters the FIFO, however long the wait, extends what the accepted words foretell of the pins: set-up kept while they are flagged, doomed once one is not |
| StepSetup.SetupIffFlagged | firmware/pio/freq_generator.pio.h:22-37 | In every run: while the accepted words carry the flag wherever they change DIR, every STEP edge is at least 66·dirN+7 cycles after every earlier DIR change, and at least 12 (7 if dirN is 0) while those with steps do; with the FIFO drained, if and only if, when all have steps or dirN is 0 |
| StepSetup.RunInLine | firmware/src/main.c:132-226 | In every run the accepted words are words sent, in the order sent; all but those under way, if none was lost |
| StepSetup.RunInStep | hal-driver/flexi-ninja.c:902-914 | In every run a word carries bit 11 if and only if it is the first sent or goes another way than the one sent before it |
| StepSetup.SetupIffNoneStranded | hal-driver/flexi-ninja.c:902-914 | In every run of both modes, packets lost on the link included: the drained log keeps the set-up if no accepted word was sent behind a lost word of its own direction with the last accepted one going the other way, breaks it if such a word has steps, and leaves 12 cycles (7 if dirN is 0) otherwise |
| StepSetup.RunKeepsSetup | hal-driver/flexi-ninja.c:902-914 | In both modes, in every run without a lost word, whatever is requested, the set-up is kept at every reachable state |
| StepSystem.RunIsAxis | firmware/src/main.c:132-158 | In every run of all axes together, in both modes, each axis is a run of the one-axis pipeline on its share of the events |
| StepSystem.EveryAxis | firmware/src/main.c:132-226 | So at every reachable state every axis's position is, mod 2^32, pulses emitted plus pending, and no FIFO is overrun |
| StepSystem.TimerCallback | firmware/src/main.c:976-1000 | The tick on ring and step generators refines the system's: all axes of the oldest row, or none with the gate shut |
| StepSystem.HandlePacket | firmware/src/main.c:795-818 | A packet in timer mode on gate and ring refines the system's arrival |
| StepSetup.UnflaggedBreaksSetup | firmware/pio/freq_generator.pio.h:24-37 | A word with steps that changes DIR without bit 11 breaks the set-up time on the pins |
| StepSetup.OneWordKeepsSetup | firmware/pio/freq_generator.pio.h:22-37 | One word with steps keeps the set-up if and only if it leaves DIR alone or carries bit 11 |
| StepCases.LossBreaksSetup | hal-driver/flexi-ninja.c:902-905 | A run on any table that can carry a step: forward, back (lost to a bad packet), still while the gate recovers, back; the set-up is broken on the pins |
| StepRing.MeasuresSpacing | firmware/src/main.c:194-200 | The measured packet spacing is the true one, also across the wrap of the 32-bit clock |
| StepRing.Ring.Push | firmware/src/main.c:206-211 | Writing at head appends to the queue between tail and head, wrapping around |
| StepRing.Ring.EnqueueStepgenCommands | firmware/src/main.c:193-226 | The buffer refines Enqueue, whose effect on the period PeriodFollows states from event times and on all else RunRules |
| StepRing.Ring.ArmStepTimer | firmware/src/main.c:176-191 | Claims an alarm if none is held; starts one period ahead, or changes nothing but the failed claim |
| StepRing.Ring.TimerCallback | firmware/src/main.c:976-1000 | A tick of the held alarm takes the oldest row or stops on an empty ring; another alarm's tick does nothing |
| StepRing.Ring.StopTimer | firmware/src/main.c:1004-1016 | Releases the alarm and empties the ring |
| StepRing.RunKeepsInv | firmware/src/main.c:165-226 | Over any interleaving: rows taken off followed by rows in the ring are the rows accepted since the last disconnect, in order |
| StepRing.RunRules | firmware/src/main.c:193-226 | At every step of every run, on rows, timer, alarm, deadline and both flags: refused exactly when the ring is full, and appended otherwise; the timer starts exactly when the third row finds an alarm held or free, and stops exactly on an empty tick or a disconnect; a start or a tick sets the next one period ahead; underflow is raised by an empty tick and lowered by the third row; accepted + refused = packets that passed the gate since the last disconnect |
| StepRing.DeadWithoutAlarm | firmware/src/main.c:179-184 | After a failed claim a full ring refuses every row and yields none, until a disconnect |
| StepRing.LiveWithAlarm | firmware/src/main.c:976-1000 | A full ring that holds an alarm is running and yields its oldest row at that alarm's tick |
| StepRing.DeadIffNoAlarm | firmware/src/main.c:176-226 | So a full ring yields nothing until a disconnect if and only if it holds no alarm |
| StepRing.DeadReached | firmware/src/main.c:176-226 | Three good packets reach that state when no alarm can be claimed at the third |
| StepRing.GateIsWindow | firmware/src/main.c:795-808 | At every point of every run, disconnects included, the gate is shut if and only if one of the last ten packets since the disconnect is bad |
| StepRing.RowFate | firmware/src/main.c:132-135 | In every run, an accepted row is lost at its tick if and only if a bad packet arrived after it and is among the last ten |
| StepRing.TimerModeLosesRows | firmware/src/main.c:999 | An instance: three rows accepted, then a bad packet before the first tick |
| StepRing.PeriodFollows | firmware/src/main.c:194-203 | In every run, from event times alone: when a packet passes the gate at t1 and the last to pass since a disconnect came at t0, not 0 mod 2^32, then with 50 < t1 - t0 < timeout the period becomes (3p + t1 - t0 + 2)/4; at every other event it stays |
| StepRing.PeriodWithin | firmware/src/main.c:199-203 | The tick period stays within the bounds of its initial value and the spacings taken into account |
| StepRing.SteadySpacing | firmware/src/main.c:201 | Under a steady spacing m the period rests exactly on m-1..m+2 and from elsewhere moves strictly towards it |
| StepRing.SteadyRun | firmware/src/main.c:194-203 | Under a steady spacing m, ticks anywhere between, the period reaches m-1..m+2 within as many readings as it is away from it, and stays there |
| StepRing.RunSettles | firmware/src/main.c:194-203 | So it does in every run from power-on, whatever came before, disconnects and bad packets included |
| Quadrature.Decoded | firmware/pio/quadrature_encoder.pio.h:19-46 | The disassembly is that of the 24 generated words |
| Quadrature.DecodesMotion | firmware/src/irq_encoder.c:8-13 | The table's entry for two samples is the displacement between them if and only if that is at most one step |
| Quadrature.SwapNegates | firmware/src/irq_encoder.c:54 | Exchanging the pins negates every transition |
| Quadrature.Incremented | firmware/pio/quadrature_encoder.pio.h:42-44 | Complement, decrement, complement adds one, also across wrap-around |
| Quadrature.RoundCounts | firmware/pio/quadrature_encoder.pio.h:20-44 | One round of the computed jump changes the count by the table's entry for the last and the new sample, in at most ten cycles |
| Quadrature.ProgramRefinesTable | firmware/pio/quadrature_encoder.pio.h:20-44 | On any motion, at any speed, the count changes by the table's total over the samples, mod 2^32 |
| Quadrature.TracksMotion | firmware/pio/quadrature_encoder.pio:25-27 | At the documented rate of one step per ten cycles the count follows the true displacement, mod 2^32 |
| Quadrature.CountIsFresh | firmware/pio/quadrature_encoder.pio.h:95-107 | For every interleaving of pushes (dropped when full) and reads, the value returned is the count at some instruction executed during the call |
| Quadrature.DrainsStale | firmware/pio/quadrature_encoder.pio.h:99-105 | The call reads exactly the stale entries, oldest first, and one more: polling alone empties the FIFO and then waits |
| Quadrature.GetCount | firmware/pio/quadrature_encoder.pio.h:95-107 | The reading loop returns that value once it has read level+1 entries |
| IrqEncoder.CountsOpposite | firmware/src/irq_encoder.c:46-60 | On any pin sequence the interrupt count moves exactly opposite to the table's total for the raw pins |
| IrqEncoder.RepeatsCountNothing | firmware/src/irq_encoder.c:8-13 | A poller and an edge handler see the same total |
| IrqEncoder.NetIsDisplacement | firmware/src/irq_encoder.c:8-13 | Along single steps the table's total is the displacement |
| IrqEncoder.InterruptTracksMotion | firmware/src/irq_encoder.c:46-60 | An edge handler that misses no edge counts minus the displacement, mod 2^32 |
| IrqEncoder.ProgramAndInterruptOppose | firmware/src/irq_encoder.c:52-58 | On the same samples the two decoders' counts move by exactly opposite amounts, mod 2^32, at any speed |
| IrqEncoder.Encoders.HandleEdge | firmware/src/irq_encoder.c:46-60 | Handles exactly the edges on the two pins of a configured encoder above pin 31, and changes only that encoder |
| IrqEncoder.Encoders.Enable | firmware/src/irq_encoder.c:79-90 | Starts from zero at the present pins, for served encoders only |
| IrqEncoder.Encoders.ResetCount | firmware/src/irq_encoder.c:69-76 | Zeroes any counter, resampling the pins only of a served one |
| DwSpi.ShiftConsistent | hal-driver/spi-dw.c:121-152 | However many words the device shifts, the FIFOs hold exactly the words sent and the answers unread, and no FIFO faults |
| DwSpi.WriteConsistent | hal-driver/spi-dw.c:35-36 | Writing the next word keeps that picture while fewer than fifo_len words are outstanding |
| DwSpi.ReadConsistent | hal-driver/spi-dw.c:46-57 | The word read is the answer to the oldest unanswered word |
| DwSpi.WidthKeepsWords | hal-driver/spi-dw.c:48-53 | A word of 1, 2 or 4 bytes is stored whole, and nothing wider is |
| DwSpi.Spi.TxMax | hal-driver/spi-dw.c:3-12 | Exactly the words left or, if fewer, the gap that keeps RX from overrunning, which is never more than the free entries; zero only when nothing is left or the gap is closed |
| DwSpi.Spi.RxMax | hal-driver/spi-dw.c:14-17 | Exactly the answers waiting, after all the device shifts before the level is read |
| DwSpi.Spi.Writer | hal-driver/spi-dw.c:19-38 | Sends the next words in order while the device runs: all that are left, or as many as keep fifo_len outstanding |
| DwSpi.Spi.Reader | hal-driver/spi-dw.c:40-59 | Stores each answer waiting at the start, cut to the word width, at its word's place; makes progress whenever the device did |
| DwSpi.Spi.PollTransfer | hal-driver/spi-dw.c:121-152 | For every device schedule: no overrun or underrun; at most a million rounds, -1 only after the millionth and with answers missing; 0 means every word (zero without a buffer) sent once in order and rx[i] the answer to it, whole if it is below 2^8, 2^16 or 2^32 for words of 1, 2 or 4 bytes; a live device always gets 0 for up to a million words |
| AuxSpi.PackRoundTrip | hal-driver/bcm2835.c:1203-1211 | What the controller shifts out for a packed entry is the one to three bytes packed |
| AuxSpi.AlignRoundTrip | hal-driver/bcm2835.c:1224-1240 | The driver takes back the bytes shifted in, from a right-aligned word |
| AuxSpi.ShiftOneConsistent | hal-driver/bcm2835.c:1199-1267 | A shift turns the oldest entry into the replies to its chunk, with tx and rx chunks the same 3,3,...,r split |
| AuxSpi.ShiftConsistent | hal-driver/bcm2835.c:1199-1267 | Any number of shifts keeps the picture, at most four entries under way |
| AuxSpi.GuardBoundsEntries | hal-driver/bcm2835.c:1201 | `tx_len + 12 > rx_len` holds if and only if fewer than four entries are under way |
| AuxSpi.Transfer.SendEntry | hal-driver/bcm2835.c:1203-1218 | Sends the next chunk, byte for byte |
| AuxSpi.Transfer.ReadEntry | hal-driver/bcm2835.c:1224-1242 | Stores the replies to the next chunk at its place, overwriting in place only bytes already sent |
| AuxSpi.Transfer.Fill | hal-driver/bcm2835.c:1201-1220 | The first loop keeps the picture and ends with something under way or nothing left to send |
| AuxSpi.Transfer.Drain | hal-driver/bcm2835.c:1222-1266 | The second and third loops never read an empty FIFO, and read something whenever the device shifted |
| AuxSpi.Transfer.AllShifted | hal-driver/bcm2835.c:1245-1248 | The third loop, which does not test the RX FIFO, always finds it non-empty |
| AuxSpi.Transfer.Run | hal-driver/bcm2835.c:1199-1268 | For every device behaviour: no overrun or underrun; on completion every byte's reply is in its place; a live device completes it within a stated number of status reads |
| AuxSpi.TransferInPlace | hal-driver/bcm2835.c:1270-1272 | The same with one buffer for both directions |
| AuxSpi.Loopback | hal-driver/bcm2835.c:1270-1272 | Looped back, a completed in-place transfer is the identity, for every length |
| UdpSocket.RunReassembles | firmware/src/socket.c:628-694 | For any arrivals and reads, the pieces up to each call that leaves nothing remaining join to the arrived payloads, whole and in order, never mixed |
| UdpSocket.ReadKeepsReassembled | firmware/src/socket.c:628-694 | Each call extends the current payload or completes it |
| UdpSocket.RunAttributes | firmware/src/socket.c:642-676 | For any arrivals and reads, the senders reported, in order, are the addresses and ports of the datagrams in the order they arrived, one for each datagram opened so far |
| UdpSocket.CallReturns | firmware/src/socket.c:627-694 | When a call fails, with which error, and that it then changes nothing; otherwise it reports the sender if and only if it opens a datagram, and returns less than there was room for only at the datagram's end |
| UdpSocket.WaitedFor | firmware/src/socket.c:628-637 | A blocking call waits for the first arrival that fits, however many that do not come before it |
| UdpSocket.WindowSplits | firmware/src/w5500.c:240-255 | Reading a then b bytes through the wrapping pointer gives what reading a+b would |
| UdpSocket.HeaderOf | firmware/src/socket.c:645-672 | The eight header bytes decode to the address, port and length that were encoded |
| UdpSocket.Socket.RecvData | firmware/src/w5500.c:240-255 | Copies n bytes of the ring from the pointer and advances it by n mod 2^16 |
| UdpSocket.Socket.Arrive | firmware/src/socket.c:632-635 | The chip side assumed of the level polled there: on an open socket a datagram is stored whole behind the unread bytes, or dropped for lack of room |
| UdpSocket.Socket.Close | firmware/src/socket.c:198-239 | Closing forgets the datagram being read and everything waiting |
| UdpSocket.Socket.Await | firmware/src/socket.c:628-637 | The wait ends with the first datagram that fits |
| UdpSocket.Socket.Recvfrom | firmware/src/socket.c:627-765 | Blocking or not, over ring memory and 16-bit pointers the code refines the datagram queue RunReassembles, RunAttributes and CallReturns speak of; the pointer advances by exactly the bytes consumed; PACK_COMPLETED exactly on the last fragment, PACK_FIRST and PACK_REMAINED on the others; failing calls change nothing |
| DhcpOptions.LandsOnNext | firmware/src/dhcp.c:629-699 | The scan lands on the next option if and only if a fixed-size option has its proper length |
| DhcpOptions.TakesOption | firmware/src/dhcp.c:629-699 | On a well-formed option the scan takes its value and lands on the next one |
| DhcpOptions.LeaseTimeRoundTrip | firmware/src/dhcp.c:673-679 | Reading a lease time undoes its four-byte big-endian encoding, and the other way round |
| DhcpOptions.ParseRecovers | firmware/src/dhcp.c:627-701 | From any well-formed option list the scan recovers the last value of each known field, whatever follows the end mark |
| DhcpOptions.ParseOptions | firmware/src/dhcp.c:627-700 | The scanning loop refines Parse and ends on every input, the pointer strictly increasing |
| DhcpOptions.Writer.PutHostName | firmware/src/dhcp.c:389-401 | The length patched back is that of the name with its six hexadecimal digits, in its place, for every name of at most 249 bytes |
| DhcpOptions.WriteDiscover | firmware/src/dhcp.c:354-412 | The whole option area: cookie, options, end mark, zeros |
| DhcpOptions.WriteRequest | firmware/src/dhcp.c:427-515 | The same, with the addresses present exactly when the destination's last byte is 255 |
| DhcpOptions.WriteDecline | firmware/src/dhcp.c:526-570 | The same for DECLINE |
| DhcpOptions.SuffixIsHex | firmware/src/dhcp.c:393-399 | The name's suffix is the last three bytes of the hardware address, two upper-case hexadecimal digits each |
| DhcpOptions.DiscoverBytes | firmware/src/dhcp.c:373-408 | DISCOVER's option area byte by byte, with the hardware address and the name in their places |
| DhcpOptions.RequestBytes | firmware/src/dhcp.c:459-513 | REQUEST's, with the address requested under 50 and the server's identifier under 54 when addressed |
| DhcpOptions.DeclineBytes | firmware/src/dhcp.c:540-568 | DECLINE's |
| DhcpOptions.WrittenIsParsed | firmware/src/dhcp.c:623-701 | Round trip: the parser on a written message recovers the meaning of the list written |
| DhcpOptions.DiscoverMeans | firmware/src/dhcp.c:373-408 | DISCOVER's list means its message type and nothing else |
| DhcpOptions.RequestMeans | firmware/src/dhcp.c:459-513 | REQUEST's list means its type and, when addressed, the server identifier |
| DhcpOptions.DeclineMeans | firmware/src/dhcp.c:540-568 | DECLINE's list means its type and the server identifier |
| DhcpClient.RunKeepsInv | firmware/src/dhcp.c:706-834 | Over every run: while leased or renewing the address is the one last installed; while renewing the old address equals it, so the address-changed branch is never taken; retries within the limit |
| DhcpClient.LeaseWasAcked | firmware/src/dhcp.c:743-760 | In every run, the address leased or renewed came into force by an accepted ACK to a client requesting it, with nobody else answering for it |
| DhcpClient.AddressComesFrom | firmware/src/dhcp.c:728-741 | One event leaves the address as it is or takes it from an accepted OFFER |
| DhcpClient.AddressWasOffered | firmware/src/dhcp.c:706-834 | The address requested, leased or renewed was offered to the client in this run |
| DhcpClient.OfferThenAck | firmware/src/dhcp.c:728-761 | OFFER, any ticks and fruitless polls that do not make the client give up, and ACK: leased with the offered address installed, or, on a conflict, declined and restarted |
| DhcpClient.ForeignIsSilence | firmware/src/dhcp.c:603-625 | A message from another port, for another hardware address or, once a server is chosen, from another server changes nothing: the poll is one that finds none; any other is read |
| DhcpClient.ServerIsHeard | firmware/src/dhcp.c:603-701 | A message in bytes, header and well-formed options, from a server listened to: the address offered is yiaddr, the fields are the options' meaning |
| DhcpClient.OfferTaken | firmware/src/dhcp.c:728-741 | An accepted OFFER is requested at once; the retransmission clock and the retries run on from the discovery |
| DhcpClient.RenewsAtHalf | firmware/src/dhcp.c:773-795 | A client leased L seconds, with any ticks and unanswered polls, sends nothing through tick L/2; the first poll with more than L/2 ticks since the lease began sends REQUEST for the leased address and is renewing; an infinite lease is never renewed |
| DhcpClient.RenewalAnswered | firmware/src/dhcp.c:743-828 | An accepted ACK to a renewal returns to the lease, as long as the ACK says, with the ticks restarted; a NAK, there or to a first request, goes back to discovery |
| DhcpClient.Retransmits | firmware/src/dhcp.c:842-893 | A discovery or request is repeated at the first unanswered poll with more than ten ticks since it was sent, and not before |
| DhcpClient.GivesUp | firmware/src/dhcp.c:842-893 | After two repeats the next unanswered poll gives up: a discovery fails and starts over, a request turns to discovery |
| DhcpClient.CodeMeans | firmware/src/dhcp.c:706-834 | What each return code says of the client: leased in a lease and when a renewal is answered, not while one is unanswered; address changed never |
| DhcpClient.StopIsFinal | firmware/src/dhcp.c:836-840 | A stopped client sends nothing and never starts again |
| DhcpClient.PollProgress | firmware/src/dhcp.c:706-893 | A poll that finds nothing sends DISCOVER or brings the next one no farther away |
| DhcpClient.RoundProgress | firmware/src/dhcp.c:842-893 | After a tick it sends DISCOVER or brings the next one nearer |
| DhcpClient.Rediscovers | firmware/src/dhcp.c:842-893 | With a silent server every phase but leased and stopped sends DISCOVER again within 23 ticks, for every interleaving of ticks and fruitless polls with at least one poll after each tick |
| DhcpClient.Dhcp.ParseMessage | firmware/src/dhcp.c:596-703 | Accepts exactly messages from port 67, for this hardware address, from the chosen server if there is one |
| DhcpClient.Dhcp.CheckDhcpTimeout | firmware/src/dhcp.c:842-893 | Retransmission and give-up on the fields, refining CheckTimeout |
| DhcpClient.Dhcp.Run | firmware/src/dhcp.c:706-834 | One poll on the fields refines DhcpRun, whose renewal, retransmission, answers and codes the lemmas above state over runs |
| DhcpClient.Dhcp.TimeHandler | firmware/src/dhcp.c:972-975 | The one-second tick refines the event Tick |
| PioAllocator.ScanFinds | firmware/src/pio_utils.c:21-42 | The scan grants the first free slot of the length's block with room, else of the first undedicated block |
| PioAllocator.ScanFails | firmware/src/pio_utils.c:21-42 | With neither, it fails and changes nothing |
| PioAllocator.RunKeepsPicture | firmware/src/pio_utils.c:18-42 | Over every run: dedicated blocks form a prefix, each block is filled in order, as many blocks are dedicated as the grants demand |
| PioAllocator.GrantsAreExclusive | firmware/src/pio_utils.c:18-42 | No state machine is handed out twice and a block only ever serves one program length |
| PioAllocator.DemandAppend | firmware/src/pio_utils.c:24-40 | One more request needs one more block exactly when its length's blocks are all full |
| PioAllocator.Capacity | firmware/src/pio_utils.c:18-42 | All requests are granted if and only if the sum over lengths of ceil(n/4) is at most the number of blocks |
| PioAllocator.Allocator.GetNextPio | firmware/src/pio_utils.c:21-42 | The nested loops refine the scan; 255 exactly on failure |
| HostWatchdog.Latches | hal-driver/flexi-ninja.c:439-460 | Once expired it stays expired through any further calls, sends nothing and takes no reply |
| HostWatchdog.ExpiredIffSilent | hal-driver/flexi-ninja.c:439-460 | From the events alone: it is expired if and only if at some point more than ten ticks had passed since the last reply that counted, which is one that came before any such silence and was good, or came while none had counted since the first tick |
| HostWatchdog.BadRepliesIgnored | hal-driver/flexi-ninja.c:676-693 | Once a reply has counted since the first tick, a bad one changes nothing |
| HostWatchdog.CorruptLinkExpires | hal-driver/flexi-ninja.c:676-693 | So eleven ticks in which only bad replies arrive expire the watchdog |
| HostWatchdog.SendsAtEveryCall | hal-driver/flexi-ninja.c:802-815 | In every run the packets sent are the calls made while running and unexpired, each one |
| HostWatchdog.Driver.WatchdogProcess | hal-driver/flexi-ninja.c:439-460 | Refines the tick |
| HostWatchdog.Driver.ProcessRecv | hal-driver/flexi-ninja.c:667-699 | Accepts exactly when not expired and the checksum is good, ignored, or no reply was timed yet; accepting sets the time, rejecting changes nothing |
| HostWatchdog.Driver.ProcessSend | hal-driver/flexi-ninja.c:808-812 | Sends exactly when running and not expired |

## Left out

- Floating point: targets and velocities arrive as integer step counts; the scale factors, the low-pass filter, RPM,
  PWM duty and the choice of the nearest table row are not modelled. The table's float divisions are taken as exact,
  which they are for totals below 2^24.
- An out-of-range double-to-int32 conversion, and int32 overflow in `stepgen_position` and the interrupt counters, are
  undefined in C; the model takes INT_MIN and two's-complement wrap-around.
- `offset` and the enable position are the parameter `home`; velocity mode receives the steps per cycle computed.
- StepSetup.SetupIffFlagged: with dirN above 0, leaves open whether a word that changes DIR unflagged but has no steps
  (a request beyond the table) breaks the set-up; the next word's arrival time decides that.
- StepCases.DropUnreported: the ticks of its run come within one low time, faster than a period; the model does not tie
  the alarm's clock to the machine's cycles.
- An axis's machine also runs while the firmware waits for another axis's FIFO; that is an `Execute` event here.
- The link loses packets and may spoil them in ways the checksum finds, but neither duplicates nor reorders them.
- Patching the PIO program while a burst runs, and its jump to address 1; the timing is fixed during a run. Instruction
  memory starts at offset 0, as the firmware loads it.
- The two-cycle synchroniser of the PIO input pins, clock dividers and electrical timing.
- Whether a packet's checksum is good is a parameter; the running checksum itself, packet identifiers, outputs, PWM,
  analogue inputs, FlexGPIO and the jitter report are not part of this model.
- Handlers are assumed to be interleaved whole, but for the report's read and clear of the overflow bits. The source's
  critical sections mask interrupts on their own core only, so this is an assumption about `stop_timer` on core 1 and
  about arming the timer, which no critical section covers.
- A reply is built for every packet, but over UDP it is sent only with the gate open; which reports arrive is not
  modelled.
- Encoder velocity, index reset and `pio_enc_offset` on the host and in the firmware; `irq_encoder_init` and
  `irq_encoder_disable`, whose effect on the counters is that of Enable or none.
- The encoder positions accumulated by the host from counter differences.
- DwSpi.Spi.PollTransfer: words are values below the buffer's width; byte order in memory is not modelled.
- The registers that configure either SPI controller, chip select and the choice between TXHOLD and IO for the last
  entry; `bcm2835_spi_transfernb`, a simpler loop of the same kind.
- AuxSpi.Transfer.Run: the device's schedule is finite, so the statement is about every prefix of an endless wait.
- UdpSocket.Socket.Recvfrom: a blocking call waits for finitely many arrivals, Busy meaning that it still waits, and
  the socket does not close meanwhile. TCP, MACRAW, IPRAW, W5300 and `sendto` are left out.
- UdpSocket.Socket.Arrive: is an assumption about the chip, whose code is not part of the repository.
- DhcpOptions.ParseRecovers: takes well-formed options; the scan of a malformed message is modelled, reading whatever
  memory holds beyond it, but nothing is promised of the result beyond termination.
- The DHCP header fields and transaction identifier, which replies are not compared with; the ARP exchange of the
  conflict check (the parameter `unique`), its two-second wait, and the 32-bit wrap of the second counter.
- PioAllocator.Capacity: takes nonzero program lengths; a length of 0 would match every undedicated block.
- The near copies `flexi-ninja-eth.c` and `picobob-dlx.c`, HAL pins, register and GPIO set-up, flash, serial terminal,
  display and build scripts: plumbing without a hard property.
