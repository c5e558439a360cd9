# stm32-sdmmc in Dafny

This project models an SD-card host driver for the SDMMC peripheral of the
STM32L4x6, in two layers.

**Card-data decoders (`src/lib.rs`).** These are pure bit-level functions:
- the 32-bit card status word (the R1 response);
- the 64-byte SD Status register;
- the card capacity encoded in the Card-Specific Data (CSD) register, in its version 1.0 and version 2.0 layouts;
- the wire encodings of the SD commands and application commands.

**The driver state machine (`src/stm32l4x6.rs`).** The host is in one of four states: `Uninitialized`, `Ready`, `Reading` or `Writing`. On top of that state the driver provides:
- a readiness gate;
- the command-completion classifier;
- the initialisation sequence;
- single-block read and write;
- the non-blocking completion poll `result()`;
- `card_size` and `free`.

The peripheral registers are replaced by inputs. One poll of the status register is a `Status` record of the flags the driver reads. A `Reply` is one poll plus the echoed command index and the four response words. A blocking wait (`nb::block!`) becomes a finite sequence of polls. When every poll shows the command still active, the call has not returned (`Pending`).

The modules follow the program's structure:
- `SdTypes` holds the shared vocabulary and the explicit unsigned 32-bit arithmetic.
- `CardStatusWord`, `SdStatusRegister` and `CsdRegister` are the decoders.
- `Transport` holds command frames, the completion classifier and the short, long, application and ACMD41 completions.
- `Host` holds the session record and the readiness gate.
- `Init` models the initialisation sequence, one phase per command.
- `InitLog` gives the exact command log of a successful initialisation.
- `Operations` covers block transfers and the completion poll.
- `Device` strings calls together into runs of the whole driver.

The model follows the code as written, including where the code and the documentation of its interface differ:

- **The error mask.** `ERROR_MASK` is `0xfff9_8004`. It selects bit 2 and bits 15, 16 and 19 to 31 of the card status; it does not select bit 3.
- **CSD version 2.0 capacity.** The code reads only the high half of the third word: the low 16 of the 22 C_SIZE bits. `CsdRegister.V2FieldLayout` states this. Every reported version 2.0 capacity is therefore at most 2^26 blocks.
- **The CID.** The card identification register read during initialisation is discarded.
- **Initialisation does not consult the host state.** A successful run sets `Ready` from any state, even `Reading` or `Writing`.
- **A failed initialisation keeps partial updates.** The host state is unchanged, but the card version, relative address and CSD the failed run recorded stay. After a failed re-initialisation the stored CSD layout may therefore disagree with the stored version. `Init.InitCsdMatchesVersion` is stated for successful runs only, for this reason.
- **`result()` in `Ready` panics.** The model makes this a precondition of `Operations.PollResult`. In the `Device` model it is a call that halts the run.
- **`card_size` answers in every initialised state**, including `Reading` and `Writing`.
- **Unsigned 32-bit arithmetic is explicit.** `u32` sums and shifts are written over the integers with their wrap-around (`SdTypes.AddU32`, `SdTypes.ShlU32`). The capacity lemmas show that the wrap never happens.
- **Initialisation is modelled as `init`.** The driver implements `init`, `read_block` and `write_block`, while the interface trait in `src/lib.rs` names `init_card` and `write_blocks`. The model follows the driver.

## Model

| member | source | states |
|---|---|---|
| SdTypes.BusWidthArg | src/stm32l4x6.rs:285-298 | SET_BUS_WIDTH is sent with 0 or 2, and with 2 exactly for the 4-bit bus |
| SdTypes.CommandIndexRoundTrip | src/lib.rs:76-96 | the command encoding is a bijection onto its indices: decoding an index gives back the command, and only that command's index decodes to it |
| SdTypes.AppCommandIndexRoundTrip | src/lib.rs:98-105 | the same bijection for the application commands |
| SdTypes.CommandIndexInjective | src/lib.rs:76-96 | two commands with the same wire index are the same command |
| CardStatusWord.ErrorMaskBits | src/lib.rs:140 | the set bits of the error mask are exactly bits 2, 15, 16 and 19 to 31 |
| CardStatusWord.AnyErrorIffErrorBit | src/lib.rs:140-145 | the error flag is raised for a 32-bit word if and only if one of the error bit positions is set |
| CardStatusWord.AnyErrorOnlyMaskBits | src/lib.rs:140-145 | flipping any bit outside the error positions never changes the error flag |
| CardStatusWord.ReadyForDataIsBit8 | src/lib.rs:147-149 | READY_FOR_DATA is bit 8: flipping bit 8 flips it, and flipping any other bit leaves it alone |
| CardStatusWord.AppCmdIsBit5 | src/lib.rs:151-153 | APP_CMD is bit 5: flipping bit 5 flips it, and flipping any other bit leaves it alone |
| CardStatusWord.State | src/lib.rs:155-169 | field values 0 to 8 decode to the state with that discriminant; the values 9 to 15, and only they, decode to Reserved |
| CardStatusWord.StateOnlyBits9To12 | src/lib.rs:155-169 | flipping any bit outside 9 to 12 leaves the decoded state unchanged |
| CardStatusWord.StateRoundTrip | src/lib.rs:119-169 | a state's discriminant placed in bits 9 to 12 decodes back to that state |
| SdStatusRegister.DataBusWidth | src/lib.rs:187-193 | the top two bits of byte 0 decode to 1-bit for 0 and 4-bit for 2; 1 and 3 are InvalidValue, in both directions |
| SdStatusRegister.DataBusWidthRoundTrip | src/lib.rs:187-193 | the code the driver sends with SET_BUS_WIDTH, reported back in DAT_BUS_WIDTH, decodes to the width that was configured |
| SdStatusRegister.AuSize | src/lib.rs:196-215 | InvalidValue exactly for code 0; any other code gives a whole number of 16 KiB units between 16 KiB and 64 MiB, and the top code 0xf gives 64 MiB |
| SdStatusRegister.AuSizeStrictlyIncreasing | src/lib.rs:196-215 | a larger valid code always means a strictly larger allocation unit |
| SdStatusRegister.AuSizeDoubles | src/lib.rs:197-207 | codes 1 to 0xa give 16 KiB times 2^(code-1) |
| SdStatusRegister.SdCardType | src/lib.rs:217-219 | SD_CARD_TYPE is bytes 2 and 3 as a big-endian value below 65536 |
| SdStatusRegister.EraseSize | src/lib.rs:221-224 | ERASE_SIZE is bytes 0x0b and 0x0c as a big-endian value below 65536 |
| SdStatusRegister.EraseTimeout | src/lib.rs:226-229 | ERASE_TIMEOUT is at most 63 and is byte 0x0d's value divided by four, rounded down |
| SdStatusRegister.DiscardSupport | src/lib.rs:231-234 | DISCARD_SUPPORT is the second binary digit of byte 0x18 |
| SdStatusRegister.FuleSupport | src/lib.rs:236-239 | FULE_SUPPORT is the parity of byte 0x18 |
| CsdRegister.V1FieldLayout | src/lib.rs:246-247 | the two words the driver combines give register bits 73..62 as C_SIZE and bits 49..47 as C_SIZE_MULT |
| CsdRegister.V2FieldLayout | src/lib.rs:251 | the version 2.0 C_SIZE the driver uses is register bits 63..48: the low 16 bits of the 22-bit field at 69..48 |
| CsdRegister.CapacityV1Exact | src/lib.rs:245-249 | a version 1.0 capacity equals (C_SIZE+1) times 2^(C_SIZE_MULT+2) with no 32-bit wrap-around, and lies between 4 and 2^21 blocks |
| CsdRegister.CapacityV2Exact | src/lib.rs:250-253 | a version 2.0 capacity equals (C_SIZE+1) times 1024 with no 32-bit wrap-around |
| CsdRegister.CapacityV2Range | src/lib.rs:250-253 | a version 2.0 capacity is a multiple of 1024 between 2^10 and 2^26 blocks |
| Transport.WaitResp | src/stm32l4x6.rs:137-197 | the WAITRESP code is 0 for no response, 1 for a short response and 3 for a long one; code 2 is never used |
| Transport.CheckCommand | src/stm32l4x6.rs:207-226 | each outcome holds exactly when its flags are set and all higher-priority flags are clear: still active, then CRC failure, then timeout, then the missing completion flag |
| Transport.CheckCommandIgnoresDataFlags | src/stm32l4x6.rs:207-226 | two polls that agree on the command flags are classified alike, whatever the data-path flags |
| Transport.CompleteShort | src/stm32l4x6.rs:151-168 | a short command succeeds with the first response word if and only if it completed cleanly and the card echoed its index; a clean completion with another index is UnexpectedResponse; completion errors pass through unchanged |
| Transport.CompleteLong | src/stm32l4x6.rs:170-197 | a long command yields all four response words exactly when it completed cleanly, and fails exactly when the completion failed, with the same error |
| Transport.CompleteApp | src/stm32l4x6.rs:99-113 | the application command after APP_CMD returns the first response word exactly when it completed cleanly; the echoed index is not checked |
| Transport.CompleteOpCond | src/stm32l4x6.rs:115-135 | SD_SEND_OP_COND succeeds exactly when the command completed cleanly or failed only its CRC; every other outcome is the application command's own, and CRCFail is never reported |
| Transport.CheckOperatingConditions | src/stm32l4x6.rs:86-97 | SEND_IF_COND succeeds exactly when the card echoes 0x1aa; any other echoed word is OperatingConditionsNotSupported; command failures propagate unchanged |
| Transport.OpCondArg | src/stm32l4x6.rs:117 | the SD_SEND_OP_COND argument has the 3.2-3.3 V bit 20 set, bit 30 set if and only if the host asks for high capacity, and no other bit |
| Transport.AwaitShort | src/stm32l4x6.rs:162 | the blocking wait is Pending exactly when every poll shows the command active; otherwise it is the outcome of the first poll that does not |
| Host.New | src/stm32l4x6.rs:58-69 | a new host is Uninitialized and its relative address is aligned |
| Host.Free | src/stm32l4x6.rs:73-80 | the peripherals are handed back exactly when no transfer is in progress |
| Host.CheckReady | src/stm32l4x6.rs:199-205 | Ok exactly in Ready, Uninitialized exactly in Uninitialized, Busy exactly in Reading or Writing |
| Host.CardSize | src/stm32l4x6.rs:313-318 | fails, with Uninitialized, exactly when the host is uninitialised; otherwise it is the stored CSD's capacity |
| Host.CardSizeRange | src/stm32l4x6.rs:313-318 | every reported card size is between 4 and 2^26 blocks |
| Host.ClockModeOf | src/stm32l4x6.rs:300-306 | the divider is bypassed exactly when the configured divider is below 2; otherwise CLKDIV plus two is the configured divider |
| Host.WidBus | src/stm32l4x6.rs:285-298 | WIDBUS is 0 or 1, and it is the SET_BUS_WIDTH argument shifted right by one, so the card and the host agree on the width |
| Init.PhaseCommand | src/stm32l4x6.rs:248-298 | only SD_SEND_OP_COND and SET_BUS_WIDTH are application commands; only ALL_SEND_CID and SEND_CSD expect a long response; only GO_IDLE_STATE expects none; SEND_CSD, SELECT_CARD and the second APP_CMD carry the stored address |
| Init.VersionOf | src/stm32l4x6.rs:266-270 | the card is V1SC exactly when SEND_IF_COND timed out, and V2HC exactly when it answered and CCS is set |
| Init.TagCsd | src/stm32l4x6.rs:277-281 | the CSD words are kept verbatim and read with the version 2.0 layout exactly for V2HC cards |
| Init.GoIdleStep | src/stm32l4x6.rs:248-249 | GO_IDLE_STATE advances exactly when the command-sent flag confirms it, and aborts with the classifier's error otherwise |
| Init.IfCondStep | src/stm32l4x6.rs:251-256 | a timeout means a version 1 card and the echoed pattern a version 2 card; any other outcome of the operating-conditions check, including OperatingConditionsNotSupported for a wrong echo, ends initialisation with that error |
| Init.AppCmdStep | src/stm32l4x6.rs:115-116 | the APP_CMD before SD_SEND_OP_COND advances exactly when the short command succeeds, and aborts with its error otherwise |
| Init.OpCondStep | src/stm32l4x6.rs:258-270 | the loop leaves exactly when bit 31 of the OCR is set, and then records the version from bit 30; otherwise it goes round again unchanged; errors abort |
| Init.CidStep | src/stm32l4x6.rs:272-273 | ALL_SEND_CID advances, changing nothing, exactly when the long command succeeds |
| Init.RcaStep | src/stm32l4x6.rs:274-276 | SEND_RELATIVE_ADDR stores the upper half of the response as the address exactly when the short command succeeds |
| Init.CsdStep | src/stm32l4x6.rs:277-281 | SEND_CSD stores the words verbatim, in the layout that matches the recorded version |
| Init.SelectStep | src/stm32l4x6.rs:282-283 | SELECT_CARD advances, changing nothing, exactly when the short command succeeds |
| Init.BusAppCmdStep | src/stm32l4x6.rs:99-100 | the addressed APP_CMD before SET_BUS_WIDTH advances exactly when the short command succeeds |
| Init.BusWidthStep | src/stm32l4x6.rs:285-310 | SET_BUS_WIDTH finishes initialisation, making the host Ready, exactly when the application command succeeds |
| Init.InitStep | src/stm32l4x6.rs:248-311 | only the last phase finishes; no intermediate step changes the host state; only SEND_RELATIVE_ADDR changes the address, only SD_SEND_OP_COND the version, only SEND_CSD the CSD |
| Init.RunInit | src/stm32l4x6.rs:248-311 | a run sends at most one command per poll |
| Init.Initialize | src/stm32l4x6.rs:248-249 | every initialisation sends GO_IDLE_STATE first, and sends at most one command more than it polls |
| Init.RcaStepAddress | src/stm32l4x6.rs:275-276 | the stored address has its low 16 bits clear and keeps the upper half of the card's response |
| Init.RunInitState | src/stm32l4x6.rs:308-310 | a run that returns success leaves the host Ready; any other run leaves the host state as it was |
| Init.InitReadyOnSuccess | src/stm32l4x6.rs:308-310 | initialisation makes the host Ready when it returns success, and otherwise leaves its state unchanged |
| Init.RunInitRca | src/stm32l4x6.rs:275-276 | a run keeps the address aligned, and never changes it once it has been assigned |
| Init.InitRcaAligned | src/stm32l4x6.rs:275-276 | initialisation keeps the relative address aligned |
| Init.RunInitVersion | src/stm32l4x6.rs:266-270 | once SD_SEND_OP_COND has reported power-up, the card version no longer changes |
| Init.RunInitCsd | src/stm32l4x6.rs:277-281 | a successful run from a phase whose invariant holds ends with the CSD layout matching the version |
| Init.InitCsdMatchesVersion | src/stm32l4x6.rs:277-281 | after a successful initialisation, the stored CSD uses the version 2.0 layout exactly when the card is V2HC |
| InitLog.RunInitLog | src/stm32l4x6.rs:248-298 | a successful run from any phase sends exactly the remaining commands of the identification sequence, for some number of power-up rounds and the address that was assigned; from inside the power-up loop, the rounds carry the loop's own HCS request |
| InitLog.InitLog | src/stm32l4x6.rs:248-298 | a successful initialisation sends exactly: GO_IDLE_STATE, SEND_IF_COND 0x1aa, one or more APP_CMD 0 / SD_SEND_OP_COND rounds, ALL_SEND_CID, SEND_RELATIVE_ADDR, then SEND_CSD, SELECT_CARD and APP_CMD to the assigned address, then SET_BUS_WIDTH with the configured width; the rounds ask for high capacity exactly when the recorded card is not V1SC |
| InitLog.RunLoopVersion | src/stm32l4x6.rs:252-270 | a successful run from inside the power-up loop records a card other than V1SC exactly when SEND_IF_COND was answered, the flag the loop sends as HCS |
| InitLog.FirstOpCondFrame | src/stm32l4x6.rs:115-117 | the first SD_SEND_OP_COND of a successful run sets HCS exactly when the run records a card other than V1SC |
| InitLog.OpCondArgInjective | src/stm32l4x6.rs:117 | the SD_SEND_OP_COND argument determines the HCS request |
| Operations.StartTransfer | src/stm32l4x6.rs:321-434 | a host that is not Ready refuses with the gate's error and sends nothing; otherwise it sends the data command; the host becomes busy exactly when that command succeeds, and is unchanged otherwise |
| Operations.ReadBlockCall | src/stm32l4x6.rs:321-376 | a host that is not Ready refuses with the gate's error and sends nothing; from Ready, READ_BLOCK with the block index is sent, the call succeeds exactly when it completes cleanly with its echoed index, and only then does the host become Reading |
| Operations.WriteBlockCall | src/stm32l4x6.rs:378-434 | a host that is not Ready refuses with the gate's error and sends nothing; from Ready, WRITE_BLOCK with the block index is sent, the call succeeds exactly when it completes cleanly with its echoed index, and only then does the host become Writing |
| Operations.DataOutcome | src/stm32l4x6.rs:451-463 | each data-phase result holds exactly when its flag is set and all higher-priority flags are clear: CRC failure, then timeout, then overrun, then underrun, then a missing end flag; Ok exactly when all are clean |
| Operations.DataOutcomeIgnoresCommandFlags | src/stm32l4x6.rs:451-463 | two polls that agree on the data flags are classified alike |
| Operations.PollResult | src/stm32l4x6.rs:436-464 | an uninitialised host reports Uninitialized; the poll is Pending exactly while the data path of the current direction is active, and then nothing changes; otherwise the host is Ready again with the data-phase result |
| Operations.AwaitCompletionSettles | src/stm32l4x6.rs:436-450 | repeated polling stays Pending exactly while every poll shows the data path active; once done, the host is Ready and the result is that of the first idle poll |
| Device.Apply | src/stm32l4x6.rs:230-464 | every call moves the host only along the driver's state graph; a call halts exactly when it panics or blocks without end |
| Device.ApplyRcaAligned | src/stm32l4x6.rs:275-276 | no single call breaks the alignment of the relative address |
| Device.RunRcaAligned | src/stm32l4x6.rs:275-276 | every sequence of calls keeps the relative address aligned |
| Device.NewRunRcaAligned | src/stm32l4x6.rs:58-69 | from construction on, the relative address the host sends always has its low 16 bits clear |
| Device.RunStaysInitialised | src/stm32l4x6.rs:230-464 | an initialised host never returns to Uninitialized |
| Device.LeavingUninitialised | src/stm32l4x6.rs:308-310 | only an initialisation that returns success takes a host out of Uninitialized, and it leaves the host Ready |
| Device.BusyRefusesTransfers | src/stm32l4x6.rs:199-205 | while a transfer is in progress, read and write are refused with Busy, send nothing and change nothing |
| Device.BusyRefusesFree | src/stm32l4x6.rs:73-80 | while a transfer is in progress the peripherals are not handed back |

## Left out

- Register access through the peripheral access crate is replaced by `Status` and `Reply` inputs. This includes the interrupt-clear writes of `STATUS_ERROR_MASK` (`0x5ff`) and the raw `status()` read.
- DMA channel programming and the data-path register writes are side effects with no result the driver reads back. This covers data length, DCTRL and the FIFO address.
- Power and clock enabling and the data timeout write at the start of `init` are left out for the same reason.
- Initialisation's clock-control writes are modelled only as the field values they write (`Host.ClockModeOf`, `Host.WidBus`).
- The fixed busy-wait after a long response does not change the result.
- `nb::block!` spinning is a finite sequence of polls. A wait whose polls all show the command active is `Pending`: the model cannot express a wait that never ends.
- The `unsafe` contract that the caller keeps a block buffer untouched during a transfer is an ownership concern, and the block contents are not modelled.
- The GPIO pin types are not modelled. The `Config` default appears only as the constant `Host.DefaultConfig`.
- The `Debug` formatting of the SD Status register is not modelled, nor are the `Block` indexing impls and `Block::zeroed`.
- The trait methods `card_id`, `erase`, `erase_card`, `read_sd_status`, `reset` and `write_blocks` have no implementation in the driver. There is no erasing state either.
- The module-name mismatch between `src/lib.rs` and the driver file is a build concern.
- Init.RunInit: its contract bounds only the number of commands a run sends. What the run sends and does is stated by `InitLog.RunInitLog` and the `Init` lemmas.
- Init.Initialize: its own contract states only the first command and the command count. The full log is `InitLog.InitLog`.
- InitLog.RunInitLog: from GO_IDLE_STATE or SEND_IF_COND its returned HCS flag is not tied to the run. `InitLog.InitLog` ties it to the recorded card version for a whole initialisation.
