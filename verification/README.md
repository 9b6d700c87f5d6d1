# A verified model of an eMMC/SD host controller and its drivers

This project models the clocked state machines of an eMMC host controller (Verilog), the polled C driver that
controls it, the SD card bring-up on top of that driver, and the interrupt-driven UART of the example design, and
proves properties of them in Dafny. `dafny verify dfyconfig.toml` checks everything. Nothing was executed.

## What is modelled, and how

The hardware is a set of registers that all change on a clock edge. Each register file is a value (`Regs`), a
function `Next` gives the registers after one clock for any inputs, and runs are sequences of clocks with an arbitrary
environment: SERDES, card, memory and bus stall as they like. `Next` gives each register its next value register by
register; beside it each clocked block is written out case by case as the source writes it (`Edge…`, `Tick`:
assignments in order, later ones overriding earlier ones, every read from before the edge, no use of the next-state
functions) and proved to give the same registers.

| file | content |
|---|---|
| `Geometry.dfy`, `Framing.dfy` | the two tables a block's length is decoded from, and how many words a block really takes |
| `Payload.dfy`, `AxiManager.dfy`, `ShowAheadFifo.dfy` | payload state machine, bus manager, register FIFO |
| `BlockFrame.dfy` | every beat one block hands to the SERDES, in either direction |
| `Transfer.dfy` | both machines, memory and card wired together, with a record of what crossed each interface |
| `WritePath.dfy`, `CardAnswer.dfy`, `Progress.dfy` | memory to card: joint invariant, end-to-end theorem, the card's answer to every block, bounded completion |
| `ReadPath.dfy`, `ReadProgress.dfy` | card to memory: joint invariant, end-to-end theorem, bounded completion |
| `UndrainedRead.dfy`, `StalledRead.dfy` | reads of several blocks go wrong: in every build, and one such run clock by clock |
| `Settling.dfy` | nothing leaks into the next command; address channel rules |
| `CommandProc.dfy`, `Exchange.dfy`, `Timeout.dfy` | command and response machines, response capture, timer and recovery |
| `ResponsePhase.dfy`, `ResponseRuns.dfy` | how the response phase ends and a write gets its cue; runs in which that goes wrong |
| `Whole.dfy`, `NextCommand.dfy` | command processor and bus manager wired together: data commands from start to end, and from one to the next |
| `Interrupts.dfy`, `Handshake.dfy`, `LostStart.dfy` | status register; APB completer, register file and command processor under a polling master; what happens without polling |
| `ClockRate.dfy` | the driver's divider arithmetic and the clock generator |
| `Fields.dfy`, `Registers.dfy`, `Driver.dfy`, `SdCard.dfy` | bit fields, register accesses, driver calls, SD initialisation |
| `Composition.dfy` | driver accesses over the bus into the hardware, and what its reads get back |
| `ResponseTable.dfy` | which response each command is given, and what that does to SD initialisation |
| `Uart.dfy` | the UART rings and their interrupt handler |
| `Words.dfy`, `Arith.dfy` | machine words, powers of two, division facts |

## Hypotheses

- 32-bit bus width, synchronous APB, `MAX_BLOCK_SIZE` at most 1024 and a power of two, `FIFO_DEPTH` (words) at least
  `MAX_BLOCK_SIZE / 2`, selected block of at least 8 bytes, at least one block.
- The transfer theorems take `Sound` tables; `Geometry.SoundIffWithinMinimum` proves that to be the same as a selected
  length within `MIN_BLOCK_SIZE`.
- Registers stable while a command runs. `Composition.RegistersStill` proves that the driver's habit gives this.
- In a command no restart falls in, and response words come only when asked for (`Exchange.Legal`).
- The transfer theorems ask that the command half has left its response phase by the time the wait flag drops,
  otherwise the flag would come up again (`WritePath.Legal`, `ReadPath.Legal`). `ResponsePhase.WriteIsLegal` derives
  this for every write that has not missed the end of its response, `ResponsePhase.ReadIsLegal` for every such read
  whose response ends before its data does; `Whole.dfy` puts both halves together without it.
- For reads the SERDES answers only beats handed to it, each once and in order: a word for a four-byte beat, the end
  mark for the CRC slot. What it owes is counted from those beats, and its data clock runs while it owes anything.
- `CardAnswer.CardAnswersFirst` counts what the card sends from the block's beginning; to count it from the block's CRC
  slot, `CardAnswersSlot` asks that the SERDES hands over nothing while it is being given a block to send.
- The completion theorems count the clocks on which nobody outside keeps the engine waiting. What that asks depends on
  the state: a beat to be taken, an end mark or a card's answer only where one is awaited, the data clock to have
  stopped only where the payload machine waits for that, an address or a word to be taken or delivered only in a burst.
  For writes they count from the cue on, a beat taken on the CMD line after the response that drives nothing; it comes
  from the command half, and without it nothing else helps (`ResponsePhase.StrandedIffUncued`).
- The UART raises RXRDY only while it holds a byte and its receive interrupt is enabled, and masking the interrupt
  masks the handler. What it holds has no bound; a device that drops bytes is not modelled.
- The SERDES is otherwise an arbitrary ready/valid party.

## What was found

- A block length the design offers but that exceeds `MIN_BLOCK_SIZE` makes the two machines disagree: the bus fetches
  one block, the payload counter starts at zero and wraps. With the catalogue's defaults (512/1024) a 1 KB block
  fetches 256 words and sends 512 (`Framing.DefaultBuildOverruns`).
- Reads are right whatever memory and card do if and only if they are of one block
  (`UndrainedRead.RightIffOneBlock`, in register values `UndrainedRead.OfferedReads`). `mem_free` admits the next block
  while the previous one still drains; a word of it that is in the FIFO when a burst's last beat is taken is queued
  with that burst's last flag and ends the next burst after one beat. For every build, block length and number of
  blocks from two on `UndrainedRead.CutShortRun` constructs a legal run in which the last burst is cut short like
  that; `StalledRead.WordIsLost` is one clock by clock, in which only memory is slow, for a build and registers on
  offer (`StalledRead.SmallIsOffered`). A particular run is right exactly when the FIFO was empty at every burst's
  last beat (`ReadPath.CorrectIffDrained`). The driver reads one block per command
  (`Composition.DataCommandsAgree`), so its reads are safe
  (`ReadPath.OneBlockEndToEnd`, `Whole.ReadEndToEnd`).
- A command leaves its response phase only on a beat taken on the CMD line while the response's last word is awaited
  (`ResponsePhase.LeavesIffCaught`); one whose response is in without such a beat never does, short of a restart
  (`ResponsePhase.MissedForEver`), and `ResponseRuns.EndIsMissed` is a legal run to it. A command without data then
  ends if and only if it had such a beat (`ResponsePhase.EndsIffCaught`).
- A write needs more: its payload half begins only on a beat that drives nothing, taken while the response's last word
  is awaited or while the receiver waits for the CMD clock to stop (`ResponsePhase.ValidIffCued`). A write past its
  response with the receiver idle hangs for ever, with busy up and no timeout to come, if and only if it had none
  (`ResponsePhase.StrandedIffUncued`);
  `ResponseRuns.WriteIsStranded` is a legal run to it in which every response word is seen and no end is missed. A
  cued write completes (`Whole.WriteCompletes`).
- A response word that arrives while the CMD clock has not been seen running is stored but not counted by the
  receiver, which then waits for one more (`Exchange.SeenIffCounted`, `ResponseRuns.WordIsUnseen`).
- At the counter's top value a timeout never fires (`Timeout.ExactTimeout`, `Timeout.ExactDataTimeout`), although
  README.md line 130 gives the formula for every value. The driver's 0xFFFE for data is, cut to any build's timer
  width, the longest that does (`Composition.LongestThatExpires`).
- The table of response types gives index 41 no response. SD initialisation reads CMD41's response all the same, and
  what it reads is the cleared register, all ones (`ResponseTable.SilentLeavesOnes`): every card is taken for powered
  up and of high capacity after one round (`ResponseTable.OneRoundOnly`).
- The width of the data bus is taken over for the next block's start token only once a beat of the card's answer to the
  block before has been taken (`BlockFrame.BlockIsFramed`).
- A recovery also raises `cmd_done` (`Timeout.Recovering`), so that bit alone does not mean success.
- A start that arrives during a recovery is lost (`Handshake.StartLostIffRecovering`), and `LostStart.StartIsLost` is
  a run from reset in which that happens; polling for idle first, as the driver does, rules it out
  (`Handshake.StartIsTaken`), and the status clear that follows is not undone (`Handshake.ClearSticks`).
- A divider wider than `CLKDIV_WID` keeps only its low bits and clocks the card too fast
  (`ClockRate.NotTooFastIff`); a divider of zero in a build without divide-by-one is the slowest clock, while the
  driver records the fastest (`ClockRate.FastestIsSlowest`).
- The driver's divider is computed in 32 bits and is wrong exactly when the products wrap and the frequency asked for
  is below the system clock (`ClockRate.WrapIff`); twice the frequency wrapping to zero divides by zero.
- The driver encodes block sizes below 16 bytes as 512 (`Driver.EncodingIff`).
- `driver/sd_init.c` describes OCR bit 31 the wrong way round in one comment, and says HCS is not set for old cards
  though it always is; the model follows the code. Doc comments of the driver give SUCCESS as 0 and FAILURE as 1; the
  header defines them the other way round.

## Model

| member | source | states |
|---|---|---|
| Geometry.PayloadTable | rtl/emmc_cmd_proc.v:336-351 | the payload counter's preset is the block's bytes exactly when the length is within MIN_BLOCK_SIZE, and zero otherwise |
| Geometry.SoundIffWithinMinimum | rtl/emmc_axi4_m.v:239-246 | for every build and length the design offers, both tables describe the same block, the counter has room and the FIFO holds two blocks, if and only if the length is within MIN_BLOCK_SIZE |
| Geometry.BaseIsAddress | rtl/emmc_axi4_m.v:225-236 | word k of a transfer lies 4k bytes above the word-aligned address in SRC_DST, around the end of the address space |
| Framing.BlockTakesBeats | rtl/emmc_cmd_proc.v:745-797 | for any ready pattern, a block makes the counted number of FIFO pops and the same number of data handshakes, then its CRC slot, and is counted once |
| Framing.BlockBeatsIffWithinMinimum | rtl/emmc_cmd_proc.v:336-351 | that number is the block's words exactly when the length is within MIN_BLOCK_SIZE; beyond it, half of MAX_BLOCK_SIZE |
| Framing.DefaultBuildOverruns | rtl/emmc_cmd_proc.v:336-351 | with MIN 512 and MAX 1024 a 1 KB block fetches 256 words and sends 512 |
| BlockFrame.BlockIsFramed | rtl/emmc_cmd_proc.v:745-833 | for any ready pattern a block of either direction is handed over as a silent start beat, one four-byte beat for each word counted, one two-byte CRC slot, two silent beats of one and two clocks, and for a write the beats that read the card's answer, each with its lanes; the words are those popped; it is counted once; the lanes left behind are the bus's only if a beat of the answer was taken |
| BlockFrame.ReadBlockAsks | rtl/emmc_cmd_proc.v:766-783 | a read block asks for one four-byte beat for each word counted, then one two-byte CRC slot, and for nothing else |
| BlockFrame.FirstBlockBegins | rtl/emmc_cmd_proc.v:845-884 | the first block of a command begins with the registers so set, the bus width taken over |
| BlockFrame.StartBitOnEveryLane | rtl/emmc_cmd_proc.v:880-882 | the start token pulls down exactly the top bit of each data line in use |
| Payload.Edge | rtl/emmc_cmd_proc.v:644-892 | the wait flags, the block counter and the payload state machine, written case by case with their overrides, give the step function's registers in every state |
| AxiManager.Manager.Tick | rtl/emmc_axi4_m.v:261-399 | one clock edge of the burst machine, FIFO, write queue, counters and flags, written from the bus signals on, takes the manager to the step function's value |
| ShowAheadFifo.Fifo.Tick | rtl/emmc_fifo.v:1341-1451 | one clock edge of the register FIFO removes the oldest element when read, appends when written, and keeps the oldest in view with exact flags |
| WritePath.FifoKept | rtl/emmc_axi4_m.v:360-399 | while fetching, the FIFO and its pending register hold exactly the words fetched and not taken, in order, the count equals the length, and they never exceed depth minus one |
| WritePath.BusStep | rtl/emmc_axi4_m.v:261-342 | the bus side's invariant (burst k fetches block k from its address) is kept by every clock |
| WritePath.PopFindsData | rtl/emmc_cmd_proc.v:320-321 | inside a started block a pop always finds a word |
| WritePath.LineKept | rtl/emmc_cmd_proc.v:719-892 | the payload side's invariant (what was sent is whole frames plus a prefix of the current one) is kept by every clock |
| WritePath.AllTakenMeansBusOver | rtl/emmc_axi4_m.v:219 | when the last block has been taken, the bus has stopped with every queue empty, without being told |
| WritePath.RunKeepsInv | rtl/emmc_cmd_proc.v:663-687 | every state of every run of a write command is in the joint invariant |
| WritePath.SentIsPrefix | rtl/emmc_cmd_proc.v:745-783 | at every moment the words handed to the SERDES are exactly a prefix of the memory words from the base address |
| WritePath.CountersOrdered | rtl/emmc_axi4_m.v:447-450 | blocks sent, blocks fetched, bursts requested and blocks ordered stay in that order, and no extra block starts |
| WritePath.EndToEnd | rtl/emmc_axi4_m.v:261-399 | a finished write command has sent exactly its memory words in order, one CRC slot after each block, for any stalls, with exactly one request per block at the right address |
| CardAnswer.RspLeaves | rtl/emmc_cmd_proc.v:818-833 | a written block's answer state is left exactly when, since the block was begun, the end mark and after it the card's answer beat have come in and DAT0 was high on the clock before, or in the bus test |
| CardAnswer.CardAnswersFirst | rtl/emmc_cmd_proc.v:818-833 | over whole runs: whatever follows block c on the data lines, and the end of the command, come after the block was all sent, its end mark, the card's answer and DAT0 high |
| CardAnswer.CardAnswersSlot | rtl/emmc_cmd_proc.v:818-833 | and all of these after the block's CRC slot, with a SERDES that is silent while it is given a block |
| CardAnswer.ClockStopsBetween | rtl/emmc_cmd_proc.v:835-841 | no block begins before the data clock was seen stopped after the one before it |
| Progress.NeverBothStuck | rtl/emmc_axi4_m.v:124 | a payload side that waits for a block leaves the bus side room and work |
| Progress.CueLasts | rtl/emmc_cmd_proc.v:870-875 | a payload half that is valid stays so for the rest of the write |
| Progress.Works | rtl/emmc_cmd_proc.v:877-878 | once the payload half is valid, every clock on which nobody outside keeps the engine waiting, judged by the state it is in, lowers a bounded measure of the work left, and no clock raises it |
| Progress.EveryWriteCanFinish | rtl/emmc_axi4_m.v:285-340 | from rest every write command has a legal run that finishes it, cued once, with a SERDES that marks one end per block and runs its clock while it sends: the two machines cannot lock each other up |
| Progress.Completes | rtl/emmc_cmd_proc.v:663-673 | however the stalls fall, a write of N blocks of L words has finished once its payload half was valid and nobody outside kept the engine waiting on N(3L+16)+3 clocks since |
| ReadPath.FifoKept | rtl/emmc_axi4_m.v:389-391 | a block admitted by mem_free never overflows the FIFO, which holds exactly the words received and not queued |
| ReadPath.CountKept | rtl/emmc_axi4_m.v:281-301 | the beat counter and last flag mark the last word of a burst and no other while the FIFO drains between bursts |
| ReadPath.RunKeepsInv | rtl/emmc_axi4_m.v:347-355 | every state of a read command whose bursts drain is in the joint invariant |
| ReadPath.OldestAsk | rtl/emmc_cmd_proc.v:766-783 | the oldest read beat not yet answered is a CRC slot exactly when one answer is due in all, so that words and end mark can be told apart by count |
| ReadPath.EndToEnd | rtl/emmc_axi4_m.v:250-301 | such a command writes every received word in arrival order, L beats a burst, WLAST on the last only, each burst at its address, and has asked the SERDES for exactly L four-byte beats and one CRC slot a block |
| ReadPath.LastBeatPrefetch | rtl/emmc_axi4_m.v:347-355 | at a burst's last beat the queue stays empty exactly when the FIFO is empty; otherwise the next block's first word is queued already marked last |
| ReadPath.MarkedBeatEndsBurst | rtl/emmc_axi4_m.v:319-326 | a burst that meets such a beat ends after one beat though L were announced |
| ReadPath.CorrectIffDrained | rtl/emmc_axi4_m.v:347-391 | for every legal run, the finished command wrote its blocks correctly if and only if the FIFO was empty at every burst's last beat |
| ReadPath.OneBlockDrains | rtl/emmc_axi4_m.v:347-355 | in every legal run of a one-block read the FIFO is empty at the burst's last beat |
| ReadPath.OneBlockEndToEnd | rtl/emmc_axi4_m.v:250-301 | a finished one-block read has asked for exactly its words and one CRC slot and written the words in order in one burst at its address, with nothing asked of the bus |
| ReadProgress.NeverBothBlocked | rtl/emmc_cmd_proc.v:863-869 | a line side that waits for room, or for the last word to be written, leaves the bus side something to do |
| ReadProgress.Works | rtl/emmc_axi4_m.v:285-340 | every clock of a read on which nobody outside keeps the engine waiting lowers a bounded measure of the work left, and no clock raises it |
| ReadProgress.Completes | rtl/emmc_cmd_proc.v:689-691 | however the stalls fall, a read of N blocks of L words whose bursts drain has finished correctly once nobody kept the engine waiting on N(5L+12)+6 clocks of its data phase |
| ReadProgress.OneBlockCompletes | rtl/emmc_cmd_proc.v:689-691 | a one-block read finishes correctly within 5L+18 such clocks, with no condition on its burst |
| UndrainedRead.SomeoneWorks | rtl/emmc_cmd_proc.v:835-841 | a card that holds each block back until the last burst but one, and a memory that withholds that burst's last answer until a word of the next block has come, never stop the engine |
| UndrainedRead.CutShortRun | rtl/emmc_axi4_m.v:347-355 | from rest every read of two or more blocks has a legal run that announces all its bursts and ends with the last of them cut after one beat |
| UndrainedRead.RightIffOneBlock | rtl/emmc_axi4_m.v:347-391 | every finished legal run of a read has written exactly its blocks if and only if the read is of one block |
| UndrainedRead.OfferedReads | rtl/emmc_axi4_m.v:239-246 | the same in register values, for every build and block length it takes |
| StalledRead.WordIsLost | rtl/emmc_cmd_proc.v:863-869 | two eight-byte blocks in a build for 256 to 512 bytes: a legal run from rest in which only memory stalls ends with three of four words written, a short burst, and the last word left in the queue |
| StalledRead.SmallIsOffered | settings.xml:149-168 | the build and register values of that run are on offer and make sound tables |
| Settling.FinishedIsQuiet | rtl/emmc_cmd_proc.v:835-841 | a finished command of either direction leaves every queue and pending register empty |
| Settling.SettlesForNextCommand | rtl/emmc_axi4_m.v:328-339 | three clocks later both machines are back at rest, ready for the next command |
| Settling.ReadAddressHeld | rtl/emmc_axi4_m.v:303-309 | a fetch address and length stay put while waiting, and are those of the burst in hand |
| Settling.WriteAddressHeld | rtl/emmc_axi4_m.v:311-317 | a write address and length stay put while waiting, and are those of the burst in hand |
| Settling.BurstsKeepToPages | rtl/emmc_axi4_m.v:225-246 | for every build and block length it takes, with a block-aligned address no burst crosses a 4 KB boundary, wrap-around included |
| CommandProc.Processor.Tick | rtl/emmc_cmd_proc.v:358-1038 | one clock edge of the six clocked blocks (command, response, timer, recovery, response registers, payload), written case by case, takes the registers to the step function's value |
| Exchange.SplitBits | rtl/emmc_cmd_proc.v:425-436 | the response beats asked for add up to 48 bits, 136 for R2, none for R0 |
| Exchange.CommandFramed | rtl/emmc_cmd_proc.v:386-480 | a finished command has sent start, index, argument most significant byte first and CRC slot, nothing else, and has clocked in exactly its response's bits; the receiver's own count is theirs less the words it did not see, and is past the response only when there were none |
| Exchange.RunKeepsBeats | rtl/emmc_cmd_proc.v:445-475 | on every clock of a legal run the gap after the token is two clocks, the last response beat and no other is checked as a CRC, the gaps after are eight clocks, and none of these beats drives a bit |
| Exchange.EndsQuietly | rtl/emmc_cmd_proc.v:482-498 | a command ends only after a clock on which it waited for its end, the CMD clock stood still, no gap was being clocked out and no data was waited for |
| Exchange.OneLateGap | rtl/emmc_cmd_proc.v:482-498 | once no data is waited for, at most one more gap is handed over before the end |
| Exchange.SeenIffCounted | rtl/emmc_cmd_proc.v:590-623 | the clock that brings the last response word ends the receiver's wait if and only if every word found it counting |
| Exchange.ResponseRoundTrip | rtl/emmc_cmd_proc.v:1015-1036 | the response registers read back the card's response bytes, big-endian, whatever the stalls and whatever the receiver counted |
| ResponsePhase.LeavesIffCaught | rtl/emmc_cmd_proc.v:460-480 | a command is past its response phase if and only if a beat was taken while the response's last word was awaited |
| ResponsePhase.MissedForEver | rtl/emmc_cmd_proc.v:611-630 | a command whose whole response has come without such a beat stays in its response phase for ever, short of a restart |
| ResponsePhase.PastOrNever | rtl/emmc_cmd_proc.v:460-480 | once the response is in and the receiver not waiting for its last word, whether the command is ever past its response phase is settled by whether such a beat was taken |
| ResponsePhase.EndsIffCaught | rtl/emmc_cmd_proc.v:482-527 | a command without data whose response is in is idle two clocks later, the CMD line idle on the first, if and only if such a beat was taken |
| ResponsePhase.WriteIsLegal | rtl/emmc_cmd_proc.v:663-687 | unless the end of its response was missed, a write command is not in its response phase again once its data phase has begun, which is what the write path assumes |
| ResponsePhase.ReadIsLegal | rtl/emmc_cmd_proc.v:689-712 | the same for a read whose response is in before its wait flag falls |
| ResponsePhase.ValidIffCued | rtl/emmc_cmd_proc.v:870-875 | in every legal run of a write the payload half is valid if and only if a beat that drives nothing was taken after the response with the wait flag up |
| ResponsePhase.StrandedIffUncued | rtl/emmc_cmd_proc.v:482-527 | a write past its response, receiver idle, waits for ever with busy up and no timeout to come, whatever the inputs, if and only if it was not cued |
| ResponseRuns.WriteIsStranded | rtl/emmc_cmd_proc.v:870-875 | a legal run of a write in which every response word is seen and the end not missed reaches that state |
| ResponseRuns.EndIsMissed | rtl/emmc_cmd_proc.v:460-480 | a legal run in which all beats are taken before the first response word misses the end of the response |
| ResponseRuns.WordIsUnseen | rtl/emmc_cmd_proc.v:590-601 | a legal run in which one of all response words is not counted and the receiver waits for one more |
| Whole.RunIsBoth | rtl/emmc_cmd_proc.v:644-717 | a run of command processor and bus manager wired together is a legal run of the command half and a run of the data side |
| Whole.WriteEndToEnd | rtl/emmc_cmd_proc.v:358-1038 | a started write whose wait flag is down again has sent exactly its memory words, framed, one request per block, unless it missed the end of its response |
| Whole.WriteCompletes | rtl/emmc_cmd_proc.v:358-1038 | however the stalls fall, such a write has finished once it was cued and nobody outside kept the engine waiting on N(3L+16)+3 clocks since |
| Whole.WriteEnds | rtl/emmc_cmd_proc.v:482-527 | and the engine is idle two clocks after, the CMD line idle on the first |
| Whole.WriteIsAnswered | rtl/emmc_cmd_proc.v:818-833 | and the card has answered every one of its blocks and freed the line before anything followed it |
| Whole.ReadEndToEnd | rtl/emmc_cmd_proc.v:358-1038 | a started one-block read whose wait flag is down again has written its words in order in one burst at its address, having asked for each word and one CRC slot, if its response ended before its data and was not missed |
| Whole.ReadCompletes | rtl/emmc_cmd_proc.v:358-1038 | such a read finishes within 5L+18 clocks of its data phase on which nobody outside kept the engine waiting |
| NextCommand.WriteLeaves | rtl/emmc_cmd_proc.v:358-1038 | a write that ended without a recovery, its response counted, leaves the engine over: both machines, all queues and flags quiet |
| NextCommand.ReadLeaves | rtl/emmc_cmd_proc.v:358-1038 | so does a one-block read |
| NextCommand.NextBegins | rtl/emmc_cmd_proc.v:500-519 | from there, after four clocks with the card's clocks still and new registers in place, a start begins any data command, of either direction and any length, in exactly the state its theorems ask for |
| Timeout.CountersInClosedForm | rtl/emmc_cmd_proc.v:545-567 | both timer counters and both flags as functions of the pulses seen, wrap-around included |
| Timeout.ExactTimeout | rtl/emmc_cmd_proc.v:545-567 | the response timeout has fired if and only if the value is below the counter's top and the 32(v+1)-th pulse is two clocks past |
| Timeout.ExpiryStartsRecovery | rtl/emmc_cmd_proc.v:924-935 | the clock on which it fires begins a recovery |
| Timeout.DataCountersInClosedForm | rtl/emmc_cmd_proc.v:545-567 | the same counters in a read's data phase, with the data timeout's flag |
| Timeout.ExactDataTimeout | rtl/emmc_cmd_proc.v:545-567 | with the data line silent, the data timeout has fired if and only if its value is below the counter's top and the 32(v+1)-th pulse is two clocks past, whatever the command timeout is |
| Timeout.DataExpiryStartsRecovery | rtl/emmc_cmd_proc.v:924-935 | the clock on which it fires begins a recovery |
| Timeout.StartArms | rtl/emmc_cmd_proc.v:749-754 | the start beat of a read block arms the timer from zero |
| Timeout.TimerGoesOff | rtl/emmc_cmd_proc.v:545-567 | once what a running timer waits for has come (a response word, a card's answer to a block, data) it is off and at zero within three clocks |
| Timeout.TimerStaysOff | rtl/emmc_cmd_proc.v:545-567 | a timer that is off raises no flag, and runs after a clock if and only if a response, a card's answer or a block's data was asked for on it, the first two once for each wait and no answer in the bus test |
| Timeout.DataStopsTimer | rtl/emmc_cmd_proc.v:767 | when a read block's data or its start bit is seen its timer is off three clocks later |
| Timeout.NoTimeoutOnceBegun | rtl/emmc_cmd_proc.v:545-567 | and no data timeout comes for the rest of that block, however long it takes |
| Timeout.RestartHome | rtl/emmc_cmd_proc.v:897-937 | a timeout makes exactly one restart pulse of four clocks; from its second clock command, response and payload machines, wait flags and busy are idle, and stay so without a new start |
| Timeout.DataRestartIff | rtl/emmc_cmd_proc.v:917-933 | the data line's SERDES is restarted by that pulse, on each of its clocks, if and only if the data timed out |
| Interrupts.SetIffRaisedSinceClear | rtl/emmc_csr.v:317-319 | a status bit is set if and only if something raised it at or after the last time it was cleared |
| Interrupts.CheckLosesNothing | driver/emmc_controller.c:328-346 | read and write back, with any events in between, makes the call fail or leaves the bit set, for every error not cleared before |
| Handshake.EngineKept | rtl/emmc_cmd_proc.v:482-525 | which states of the command, response, payload and recovery machines can meet, kept by every clock |
| Handshake.StepKeepsInv | rtl/emmc_apb_s.v:156-176 | the joint invariant of master, completer, registers and engine is kept by every clock of a disciplined master |
| Handshake.IdleIsNeverStale | driver/emmc_controller.c:138-146 | when a poll returns idle, every start written has been taken up and has ended, and what the last one reported since it was started is in the status register |
| Handshake.ReadIsRegister | rtl/emmc_apb_s.v:357-377 | a completed read returned its register as it was on the transfer's first clock, two clocks before |
| Handshake.StatusReadTells | rtl/emmc_csr.v:273 | a read of the status returns a bit if and only if something raised it before the transfer's first clock and no write cleared it since, over any run |
| Handshake.StatusOfCommand | rtl/emmc_csr.v:386-405 | a status read before the register was written since the start returns what was up then and everything raised since, with the command's end among it once idle has been read |
| Handshake.EventsAreRaised | rtl/emmc_csr.v:317-319 | the end and the two timeouts among the events since the start are exactly those the engine raised, each under its own name |
| Handshake.PollFromReset | rtl/emmc_apb_s.v:357-377 | a poll begun at reset returns idle three clocks later |
| Handshake.StartIsTaken | rtl/emmc_cmd_proc.v:500-517 | a start written after such a poll is taken up and the command begins |
| Handshake.StartLostIffRecovering | rtl/emmc_cmd_proc.v:521-525 | a start that meets no command is lost if and only if a recovery is running |
| LostStart.StartIsLost | rtl/emmc_cmd_proc.v:521-525 | from reset, with a card that does not answer and software that does not read idle, the second of two starts written is never taken up |
| Handshake.ClearSticks | rtl/emmc_csr.v:499-505 | a clear written after idle was read is not undone by a late trigger of the finished command |
| Handshake.KnownIdleBalances | rtl/emmc_csr.v:516 | starts, commands and ends differ by at most one, and agree whenever software knows idle |
| Handshake.Completer.Tick | rtl/emmc_apb_s.v:235-253 | the completer's registers, from psel, penable and pwrite, are those of the step function |
| Composition.RegistersStill | driver/emmc_controller.c:120-150 | with accesses that the driver's own view allows, no register a running command relies on is written while the engine holds a command or recovers, for every run |
| Composition.BeliefIsRight | driver/emmc_controller.c:138-146 | software that believes the controller idle is right |
| Composition.StatusLogged | driver/emmc_controller.c:328-346 | the status value software logs, if it has not written the status since the start, is what was up at the start and everything raised since; it passes the driver's error test exactly when no error is among it; after idle the command's own end is |
| Composition.ResponseLogged | rtl/emmc_csr.v:275-279 | the value logged for a response register is the engine's captured word on the transfer's first clock |
| Composition.WordTells | rtl/emmc_csr.v:386-405 | a status word reads back as its bits, and is below two exactly when no error is among them |
| Composition.TimeoutTells | driver/emmc_controller.c:453-478 | the driver's test for a timeout holds exactly when one of the two timeout bits is up |
| Composition.FollowingIsConsiderate | driver/emmc_controller.c:120-150 | software that makes the accesses of a log which disturbs nothing never begins an access its own view would count as disturbing |
| Composition.DriverKeepsRegistersStill | driver/emmc_controller.c:165-1043 | with the accesses of the driver's own log, whatever was called on it, no register a running command relies on is written while the engine holds a command or recovers |
| Composition.DataCommandsAgree | driver/emmc_controller.c:668-1043 | the driver sets up memory and one block for exactly the commands that move data in the hardware, and the long data timeout for exactly those that read and the two that fetch long registers |
| Composition.LongestThatExpires | driver/emmc_controller.c:684 | the driver's data timeout, cut to a build's timer width, is the longest value that can expire |
| ResponseTable.DataIsAnswered | rtl/emmc_csr.v:613-676 | every command that moves data in the hardware is given a 48-bit response |
| ResponseTable.DriverIsAnswered | rtl/emmc_csr.v:613-676 | every command of the driver's common shape is given a response, a long one exactly for the two long registers, and none is open-ended |
| ResponseTable.SilentLeavesOnes | rtl/emmc_cmd_proc.v:1016-1023 | a command without a response leaves all ones in the response registers and stores nothing, whatever the stalls |
| ResponseTable.OneRoundOnly | driver/sd_init.c:118-143 | if commands without a response read back as all ones, every initialisation makes at most one round of CMD41 and goes on with a ready card of high capacity |
| ClockRate.RateIsLeast | driver/emmc_controller.c:183-186 | the divider chosen is the least one that does not exceed the frequency asked for |
| ClockRate.WrapIff | driver/emmc_controller.c:185-188 | the rate computed in 32 bits is the true one if and only if nothing wraps or the frequency asked for is not below the system clock |
| ClockRate.RecordedIsFloor | driver/emmc_controller.c:196-198 | the recorded frequency is the exact quotient rounded down and at most the one asked for |
| ClockRate.ClockGen.Tick | rtl/emmc_clkgen.v:99-169 | one clock edge of the generator takes its registers to the step function's value |
| ClockRate.PulseTrain | rtl/emmc_clkgen.v:138-139 | with a constant divider r there is one rising pulse every 2r clocks, a falling one exactly r clocks after each, and no others |
| ClockRate.Resumes | rtl/emmc_clkgen.v:93-113 | from any counter value the pulses are regular again within as many clocks as the counter has states |
| ClockRate.NotTooFastIff | rtl/emmc_clkgen.v:203-206 | without divide-by-one the card is clocked no faster than asked if and only if the rate needed is within the counter's range |
| ClockRate.FastestIsSlowest | driver/emmc_controller.c:185-198 | asking for the system clock or more programs zero, which such a build takes as its longest period while the driver records the system clock |
| ClockRate.DivideByOne | rtl/emmc_clkgen.v:159-169 | with divide-by-one built in and selected, both pulses are on every clock |
| Fields.GetAfterSet | driver/emmc_controller.h:65-90 | a field read after it was set is the value's low bits |
| Fields.SetKeepsOther | driver/emmc_controller.h:65-90 | setting a field leaves every disjoint field as it was |
| Fields.SetsCommute | driver/emmc_controller.h:65-90 | sets of disjoint fields commute |
| Fields.SetFits | driver/emmc_controller.h:65-90 | setting a field of a 32-bit word stays within 32 bits |
| Registers.PackUnpack | rtl/emmc_csr.v:336-346 | CONFIG0's implemented fields read back as held |
| Driver.EncodingIff | driver/emmc_controller.c:373-396 | the block size encoding means the size exactly for the powers of two from 16 to 32768 |
| Driver.SwitchArgument | driver/emmc_controller.c:588-591 | the four fields of a switch argument come out as put in, each cut to its width |
| Driver.OneBlockField | driver/emmc_controller.c:688-691 | a data command's CTRL0 says one block of the encoded length |
| Driver.Rewritten | driver/emmc_controller.c:188-194 | rewriting one field of what was read and storing it changes that field only, to the value if the build keeps it whole |
| Driver.Driver.Init | driver/emmc_controller.c:70-105 | initialisation disturbs nothing, loads the handle's rate, and fails without a base address |
| Driver.Driver.WaitIdle | driver/emmc_controller.c:120-150 | polling ends only after a read of idle |
| Driver.Driver.CheckErrorStatus | driver/emmc_controller.c:328-346 | success exactly when the status read had no bit above the lowest; exactly that value is written back |
| Driver.Driver.Issue | driver/emmc_controller.c:538-1043 | each command of the common shape starts exactly one command with its own code, argument, block setting, address and timeouts, waits for idle, reads the status before anything writes it and then the five response registers in order, and reports exactly the error bits read |
| Driver.Driver.GoIdle | driver/emmc_controller.c:398-423 | CMD0 with argument zero, once |
| Driver.Driver.SendOpCond | driver/emmc_controller.c:426-486 | only CMD1 with its argument is issued; every one but the last had timed out or was answered not ready, and the last was answered ready |
| Driver.Driver.TryOpCond | driver/emmc_controller.c:453-478 | a round ends the loop exactly when it neither timed out nor was answered not ready |
| Driver.Driver.AllSendCid | driver/emmc_controller.c:489-535 | only CMD2 is issued, and every one but the last had timed out |
| Driver.Driver.SetClockFreqKhz | driver/emmc_controller.c:165-202 | the handle records the rate as computed in 32 bits, wrap-around included, and its frequency, and mirrors CONFIG0 whenever the rate is one the build keeps, even when the write is skipped |
| Driver.Driver.SetDdrMode | driver/emmc_controller.c:205-234 | the handle records the DDR mode, and mirrors CONFIG0 whenever the build keeps the value, even when the write is skipped |
| Driver.Driver.SetIoWidth | driver/emmc_controller.c:237-266 | the handle records the bus width, and mirrors CONFIG0 whenever the value fits its field, even when the write is skipped |
| Driver.Driver.SetClkIoConfig | driver/emmc_controller.c:269-325 | the handle records all four settings, and mirrors in CONFIG0 exactly those the build keeps, even when the write is skipped |
| Driver.Session | driver/emmc_controller.c:165-1043 | after any sequence of calls against any controller, no register a running command relies on was written while it could be running, none is running, and the access log has only grown |
| SdCard.StageIsPattern | driver/sd_init.c:77-180 | a command sequence at a stage of initialisation is exactly that part of CMD0 CMD8 (CMD55 CMD41)^n CMD2^m CMD3 CMD7, n at most 1000 |
| SdCard.SendCmd | driver/sd_init.c:45-67 | one command with the given code and argument, success exactly when the status read shows no error |
| SdCard.CardInit | driver/sd_init.c:77-180 | whatever the controller answers, the commands issued are a stage of that sequence, each with its argument, each round repeated only after not ready; success means the whole of it, the capacity bit of the ready OCR, and CMD7 addressed with the card's own RCA |
| SdCard.CardFields | driver/sd_init.c:21-31 | ready and capacity are OCR bits 31 and 30, CMD7's argument is the response's upper half, and the arguments of CMD8 and CMD41 carry the check pattern, voltage, capacity support and voltage window |
| UartDriver.WriteKeepsStored | example_design/soc_emmc/sge/bsp/driver/uart/uart.c:310-313 | writing the next slot loses no unread byte while the ring is not full |
| UartDriver.Uart.constructor | example_design/soc_emmc/sge/bsp/driver/uart/uart.c:191-214 | initialisation establishes the ring and wake-up invariants |
| UartDriver.Uart.IsrReceive | example_design/soc_emmc/sge/bsp/driver/uart/uart.c:80-109 | the device's oldest byte is taken; without an error it is appended to what was received, with one it is dropped, and a full ring turns the interrupt off |
| UartDriver.Uart.IsrTransmit | example_design/soc_emmc/sge/bsp/driver/uart/uart.c:112-149 | exactly the oldest queued bytes, at most a FIFO's worth, go to the device in order, and the last one turns the interrupt off |
| UartDriver.Uart.Isr | example_design/soc_emmc/sge/bsp/driver/uart/uart.c:64-155 | one event at the device does to device, rings and histories exactly what the abstract step says: with room in the ring a receive interrupt always takes a byte, a transmit interrupt always sends |
| UartDriver.Uart.Preempt | example_design/soc_emmc/sge/bsp/driver/uart/uart.c:64-155 | and a batch of events does so one after another |
| UartDriver.ReceivesInOrder | example_design/soc_emmc/sge/bsp/driver/uart/uart.c:80-109 | n receive interrupts take in the n oldest bytes held, those without error in order, while the ring has room |
| UartDriver.SendsAll | example_design/soc_emmc/sge/bsp/driver/uart/uart.c:112-149 | n transmit interrupts send n times what the device takes at once, or all there is |
| UartDriver.Uart.Putc | example_design/soc_emmc/sge/bsp/driver/uart/uart.c:299-323 | with the handler running at any point outside the masked region, the byte is accepted whenever there is room when the call begins, refused only when the ring is full, and both invariants hold after |
| UartDriver.Uart.Getc | example_design/soc_emmc/sge/bsp/driver/uart/uart.c:242-277 | with the handler running at any such point, the oldest unread byte is returned whenever there is one when the call begins, none only when the ring is empty, and both invariants hold after |
| UartDriver.Session | example_design/soc_emmc/sge/bsp/driver/uart/uart.c:64-324 | over any sequence of calls and any schedule of arrivals and interrupts, bytes at the device are a prefix of those offered; the error-free bytes that came in so far are those received followed by those the device still holds; bytes returned are a prefix of those received; no get fails while a received byte is unread and no put while there is room; the transmit interrupt is on exactly while bytes wait |

## Left out

- The AHB-Lite manager (`rtl/emmc_ahbl_m.v`), which the repository describes as not fully validated.
- Blocks above 1 KB, whose partial-block counter is overwritten rather than accumulated (`rtl/emmc_axi4_m.v:437`).
- Aborting a transfer in the middle of a burst: the source marks bus error handling as to be done.
- Boot mode, DDR, 8- and 16-bit SERDES widths, asynchronous APB, IO pads, SERDES bit timing and CRC polynomials.
- Bus and CRC error flags beyond their status bits; the AxSIZE constant, which differs from the documentation: each beat is one 32-bit word.
- Soft reset of a running core; block counters are unbounded and proved to stay within the number of blocks.
- Reads of several blocks in `Whole.dfy`; their own theorems take the data side alone.
- Completion of reads whose bursts do not drain: `UndrainedRead.CutShortRun` shows that they can end, wrongly.
- The interrupt output line (`rtl/emmc_csr.v:498`), the or of the enabled status bits: the driver polls.
- The gated output clock of the generator (`clk_out`); only its pulses are modelled.
- The polled UART mode, `uart_config`, `uart_set_rate` and null-pointer arguments.
- Other copies of the driver and the UART in the example design.
- Driver.Driver.Issue: the source repeats this body once per command; here the commands differ by a table.
- Driver.Driver.WaitIdle: an unbounded poll; the controller is any finite script of answers followed by idle and ready, which covers every run that ends.
- Driver.Driver.SetClockFreqKhz: a frequency of zero or of half the 32-bit range divides by zero in the source and is excluded.
- Driver.Driver.SetClkIoConfig: the same.
- SdCard.CardInit: assumes a base address; without one the source writes through address zero.
- UartDriver.Uart.Putc: a blocking wait that outlives the given interrupts is reported as pending, where the source waits on.
- Exchange.ResponseRoundTrip: assumes no response word arrives before the receiver waits for one.
- Timeout.ExactTimeout: assumes the card is silent and no data timeout has come first.
- Timeout.ExactDataTimeout: assumes the data line is silent and the response is over.
