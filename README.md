# MiniVendi state machines in Dafny

MiniVendi is a two-microcontroller vending machine.

- **Node A (`main.c`)** reads the inputs:
  - an IR coin sensor on the ADC;
  - a keypad and a Bluetooth module for the product choice.

  It encodes them into one control byte and sends each new value over a serial link.
- **Node B (`uC2.c`)** receives the byte. It:
  - keeps the balance in quarters;
  - decides whether the selected product is paid for;
  - drives one of two stepper motors through a full rotation;
  - shows the state of the purchase on a character LCD.

Each node runs cooperative finite-state machines as FreeRTOS tasks. Each machine
has a `Tick`: a switch of actions on the current state, then a switch of
transitions. The machines talk only through a few global variables.

The project models every tick in two forms:

- **Pure transition functions** (`NodeASpec`, `NodeBSpec`). Each takes the
  machine's state datatype (enum plus static locals), the node's globals and the
  hardware inputs. It returns the new state, the new globals and the hardware
  outputs. Their contracts state what each branch of the source does. Lemmas over
  runs of ticks prove the timing, handshake, accounting and invariant properties.
- **Classes that update their fields in place** (`NodeA`, `NodeB`), as the C
  code does. There is one class per machine, and a `Context` class holds the
  node's globals. Each `Tick` is written as the source's two switches. It is
  proved to leave exactly the state the matching transition function computes.

Hardware boundary:

- Inputs are parameters:
  - the ADC conversion result;
  - the keypad key;
  - the Bluetooth byte and the link byte, each `Option` (none when nothing arrived).
    `PO_Tick`'s Init tick does not poll the port, so it ignores the link byte; the
    byte stays in the port, which a schedule models by offering it again;
  - the serial send-ready flag.
- Outputs are results:
  - the byte written to the stepper port;
  - the list of LCD driver calls, in order;
  - the byte sent on the link, if any.
- A node's schedule is a sequence of events, each naming the task that ticks next
  with the inputs it sees. Any interleaving is allowed.

Types:

- `unsigned char` counters and codes are `Byte` (0..255). The balance increment
  wraps modulo 256, as the C code does.
- The control byte and the receive buffer are `bv8`, because the code tests and
  sets their bits.
- Flags that are only ever 0 or 1 are `bool`.
- `motorCount` and `timer` are `nat`. Invariants keep them within the limits the
  code counts to, so the `unsigned short` width is never reached.

## Model

| member | source | states |
|---|---|---|
| `NodeBSpec.DisplayCoins` | uC2.c:50-63 | four characters: dollars, a point, two cent digits; the first is a digit exactly when the balance is under 40 quarters, and then the digits read as 25 × coins cents |
| `NodeBSpec.FiveQuartersRender` | uC2.c:50-63 | a balance of 5 renders as "1.25" |
| `NodeBSpec.SdTick` | uC2.c:94-173 | Init zeroes the statics and stops the motor; Process goes to Drive1 iff the code is 3, to Drive2 iff it is 5, otherwise stays with nothing changed; a drive tick emits the pattern at the pre-advance index, advances that index modulo 4, sets motorRunning and counts or finishes; Finish stops the motor and clears the code; the balance is never touched; `StepperInv` is preserved |
| `NodeBSpec.SdRun` | uC2.c:94-173 | consecutive driver ticks keep the indices in range, the balance unchanged and `StepperInv` |
| `NodeBSpec.DriveAdvances` | uC2.c:109-124 | while the phase count is below its total, each drive tick stays in the drive state, counts one phase and emits the product's sequence cyclically from its saved index, the index after m ticks being the saved one plus m modulo 4 |
| `NodeBSpec.DriveStep` | uC2.c:109-124 | one drive tick below the total: same state, one more phase, the pattern at the saved index emitted, that index advanced by one position, the other product's index and the code untouched, the motor flag raised |
| `NodeBSpec.DriveCounts` | uC2.c:148-163 | over m drive ticks below the total the state, the other index and the code stay, and the phase count grows by m |
| `NodeBSpec.DriveCycles` | uC2.c:109-124 | over m drive ticks the drive's index advances m positions, and the last pattern emitted is the one m − 1 positions on |
| `NodeBSpec.NextPositionIsModular` | uC2.c:112-115 | one advance, wrapping 3 to 0, from a position taken modulo 4 is the next value modulo 4 |
| `NodeBSpec.RevolveIsModular` | uC2.c:112-115 | advancing a step index one position at a time, wrapping 3 to 0, is counting modulo 4 |
| `NodeBSpec.DriveCompletes` | uC2.c:148-170 | a drive entered with count 0 lasts PHASES_TO_DISPENSE + 1 = 2049 ticks; the next is Finish, after which the driver is in Process, the motor stopped, the code cleared and the balance unchanged |
| `NodeBSpec.ProcessIdles` | uC2.c:140-146 | in Process with any code other than 3 or 5 the driver never changes anything |
| `NodeBSpec.LcdTick` | uC2.c:175-272 | never writes the balance or the motor flag; clears the code only when the insufficient-funds dwell ends; each dwell state holds iff its timer is below 40/60/60 and then returns to the balance screen with the timer reset; the balance screen rewrites the amount first and follows the code; a dispensing screen holds exactly while the motor runs, and writes nothing while it holds; `LcdInv` (timer bounds) is preserved |
| `NodeBSpec.LcdRun` | uC2.c:175-272 | consecutive presenter ticks keep the balance, the motor flag and `LcdInv` |
| `NodeBSpec.DwellHolds` | uC2.c:202-267 | below its limit a dwell only counts: same state, timer up by one per tick |
| `NodeBSpec.DwellLastTick` | uC2.c:247-267 | the tick at a dwell's limit goes to the balance screen with the timer 0, writes the balance banner, and clears the code only for the insufficient-funds dwell |
| `NodeBSpec.DwellEnds` | uC2.c:247-267 | a dwell entered with timer t ends after exactly limit − t + 1 ticks on the balance screen; only the insufficient-funds dwell clears the code |
| `NodeBSpec.BalanceIdles` | uC2.c:212-227 | with no code to act on, the balance screen stays as it is forever |
| `NodeBSpec.LcdScreenWrites` | uC2.c:175-272 | the display calls of any tick: on the balance screen the amount refresh comes first; then a screen change writes exactly the new screen's message (clear and write at column 1, then the second line at column 17), and a screen that holds writes nothing more |
| `NodeBSpec.DispenseScreenSkipped` | uC2.c:212-245 | on an approval seen while the motor flag is still low, the presenter enters the dispensing screen and leaves it for the thank-you screen on its next tick |
| `NodeBSpec.PoTick` | uC2.c:274-320 | without a received byte nothing changes; with one, a coin bit adds 1 (mod 256) before the price check, bit 1 wins over bit 2, a selection is approved iff the balance covers the price and then exactly the price is taken, otherwise the insufficient code is set and the balance is kept; the buffer ends at 0; the code stays in {0,2,3,4,5} and is never reset here |
| `NodeBSpec.Feed` | uC2.c:282-304 | a sequence of received bytes never touches the motor flag |
| `NodeBSpec.ChargeStep` | uC2.c:285-301 | for one received byte, what the coin bit credits is either charged as the price or left in the balance |
| `NodeBSpec.BalanceConserved` | uC2.c:285-301 | for any run of received bytes in which no single coin takes the balance past 255, final balance + total charged = initial balance + coins received |
| `NodeBSpec.Step` | uC2.c:323-351 | any single task tick keeps `NodeInv`: valid code, stepper invariant, timer bounds, empty receive buffer |
| `NodeBSpec.Run` | uC2.c:323-358 | any schedule of task ticks keeps `NodeInv` |
| `NodeBSpec.InvariantFromBoot` | uC2.c:66-93 | every schedule from power-on satisfies `NodeInv` |
| `NodeBSpec.PurchaseOfProduct1` | uC2.c:282-304 | from balance 0, a coin then a product-1 selection approve it with balance 0; the driver starts Drive1, runs its full count and closes the purchase |
| `NodeBSpec.RefusedProduct2` | uC2.c:294-300 | a product-2 selection with no balance is refused; the driver never moves; the presenter shows the message for 61 ticks and then clears the code |
| `NodeBSpec.PaidButNotDispensed` | uC2.c:125-304 | an approval received while the driver is in a drive takes the price, the drive's Finish clears the new code with the old, and the driver then idles forever: paid for, never dispensed |
| `NodeBSpec.TwoCoinsNoSelection` | uC2.c:282-304 | two coins and no selection give balance 2, and neither driver nor presenter ever changes afterwards |
| `NodeB.Context.constructor` | uC2.c:66-68 | the globals start at zero |
| `NodeB.StepperDriver.constructor` | uC2.c:82-84 | SD_Init with zeroed statics |
| `NodeB.StepperDriver.Tick` | uC2.c:94-173 | the in-place tick leaves exactly the state and globals `SdTick` computes, returns the port byte and keeps `StepperInv` |
| `NodeB.StepperDriver.Actions` | uC2.c:98-131 | the actions switch updates the statics and globals as the driver's actions do |
| `NodeB.StepperDriver.Transitions` | uC2.c:135-172 | the transitions switch changes only the driver's state and phase count, as its transitions do |
| `NodeB.LcdLogic.constructor` | uC2.c:86-88 | LCD_Init with the timer zero |
| `NodeB.LcdLogic.Tick` | uC2.c:175-272 | the in-place tick leaves exactly what `LcdTick` computes and returns its display calls |
| `NodeB.LcdLogic.Actions` | uC2.c:178-194 | the actions switch resets the timer in Init and refreshes the amount on the balance screen |
| `NodeB.LcdLogic.Transitions` | uC2.c:195-271 | the transitions switch moves between screens, counts the dwell timer, writes each screen's banner and clears the insufficient-funds code |
| `NodeB.ProductOutput.constructor` | uC2.c:90-92 | PO_Init with the buffer zero |
| `NodeB.ProductOutput.Tick` | uC2.c:274-320 | the in-place tick leaves exactly what `PoTick` computes; without a byte nothing changes |
| `NodeASpec.LedsTick` | main.c:88-141 | the sensor always ends in Read and writes only the coin flag; Init clears it; in Read the flag is set exactly when the reading is at most 900 |
| `NodeASpec.LedsRun` | main.c:88-141 | sensor ticks touch no other global |
| `NodeASpec.SensorTracksLastReading` | main.c:97-125 | in Read the coin flag reflects only the most recent reading |
| `NodeASpec.InTick` | main.c:143-201 | writes only the selection; in Receive a '1' from either source wins over '2', else it stays, and a Bluetooth byte is latched; Select1/2 publish 1/2 and block; Block holds until reset, then clears the selection and the Bluetooth byte; `SelectorInv` is preserved |
| `NodeASpec.PlTick` | main.c:203-241 | writes only the control byte; Init zeroes it; in Update bit 0 mirrors the coin flag, a selection sets its bit and keeps the other, 0 or an unknown value clears bits 1–2, and bits 3–7 are never changed; exclusivity is kept only when the other product's bit was already clear |
| `NodeASpec.TrTick` | main.c:243-298 | writes only reset; sends iff in Transmit with the port ready, and sends the current control byte; CheckUpdate moves to Transmit iff the byte differs from the last sent and records it; Reset raises reset and counts to 10, then drops it and returns to CheckUpdate; `TrInv` is preserved |
| `NodeASpec.TrRun` | main.c:243-298 | consecutive transmitter ticks touch no global but reset and send at most one byte per tick |
| `NodeASpec.TrRunAppend` | main.c:243-298 | running two flag sequences one after the other is running their concatenation, the bytes sent concatenated |
| `NodeASpec.NoResendWhenUnchanged` | main.c:267-274 | an unchanged control byte, the initial 0 included, is never sent again |
| `NodeASpec.StallsWhenNeverReady` | main.c:275-283 | a port that never becomes ready stalls the transmitter in Transmit, sending nothing |
| `NodeASpec.HoldOffCounts` | main.c:256-287 | inside the hold-off the transmitter only counts, with reset raised |
| `NodeASpec.HoldOffEnds` | main.c:284-293 | a hold-off entered with count d ends after exactly 11 − d ticks with the count cleared and reset dropped |
| `NodeASpec.SendsChangeOnce` | main.c:267-293 | a changed control byte is sent exactly once: one check tick, any number of busy ticks, the send, the full hold-off, and nothing afterwards |
| `NodeASpec.SendPhase` | main.c:267-283 | a changed byte is recorded on the check tick, held while the port is busy, and sent once on the first ready tick |
| `NodeASpec.QuietAfterSend` | main.c:284-293 | after the send the full hold-off passes, reset is dropped, and nothing more is sent while the byte is unchanged |
| `NodeASpec.Step` | main.c:300-338 | a tick sends only from the transmitter, and sends the current control byte |
| `NodeASpec.Run` | main.c:300-346 | a schedule sends at most one byte per event |
| `NodeASpec.StepKeepsInv` | main.c:300-338 | every task's tick preserves `NodeInv`: bits 3–7 of the control byte clear, `SelectorInv`, `TrInv` |
| `NodeASpec.RunKeepsInv` | main.c:300-346 | any schedule keeps `NodeInv`, and every byte sent has bits 3–7 clear |
| `NodeASpec.RunAppend` | main.c:300-346 | running two schedules one after the other is running their concatenation, the bytes sent concatenated |
| `NodeASpec.InvariantFromBoot` | main.c:61-86 | from power-on every schedule keeps the invariant, and every byte on the link is ≤ 7 |
| `NodeASpec.HandshakeReleasesSelection` | main.c:188-196 | with a selection latched and the transmitter ready to send, the byte goes out once, the next transmitter tick raises reset, and the latch's next tick releases the selection |
| `NodeASpec.SecondSelectionOverlaps` | main.c:209-224 | a product-2 choice published before the encoder sees the cleared selection is ORed into a byte that still has bit 1: both bits are set |
| `NodeASpec.FirstPurchaseFromBoot` | main.c:143-298 | from power-on, one product-1 choice is latched, encoded as 0x02 and sent once, and the hold-off starts with reset raised |
| `NodeASpec.BothSelectionBitsReachable` | main.c:203-298 | a concrete schedule from power-on sends 0x02 and then leaves the control byte at 0x06 |
| `NodeA.Context.constructor` | main.c:61-65 | the globals start at zero |
| `NodeA.LedSensor.constructor` | main.c:72-74 | LEDS_Init with the reading zero |
| `NodeA.LedSensor.Tick` | main.c:88-141 | the in-place tick leaves exactly what `LedsTick` computes |
| `NodeA.InputLogic.constructor` | main.c:76-78 | IN_Init with the keys zero |
| `NodeA.InputLogic.Tick` | main.c:143-201 | the in-place tick leaves exactly what `InTick` computes and keeps `SelectorInv` |
| `NodeA.ProductLogic.constructor` | main.c:80-82 | PL_Init |
| `NodeA.ProductLogic.Tick` | main.c:203-241 | the in-place tick leaves exactly what `PlTick` computes |
| `NodeA.UpdateControl` | main.c:209-224 | the Update action's bitwise OR and AND updates give the encoded byte: bit 0 is the coin flag and bits 3–7 are kept |
| `NodeA.LinkTransmitter.constructor` | main.c:84-86 | TR_Init with the statics zero |
| `NodeA.LinkTransmitter.Tick` | main.c:243-298 | the in-place tick leaves exactly what `TrTick` computes, returns the byte sent and keeps `TrInv` |

### Behaviour of the code worth knowing

- **Both selection bits can be set.** One would expect the control byte to carry
  at most one of bit 1 (product 1) and bit 2 (product 2). The code does not
  guarantee this. `PL_Tick` only ORs a selection bit in, and clears bits 1–2
  only when it samples `productSelect` as 0. `IN_Tick` can release one selection
  and publish the next between two encoder ticks: reset releases the latch, then
  there is one Receive tick and one Select tick. When that happens, the encoder
  produces bits 1 and 2 together: 0x06 with the coin flag clear, 0x07 with it set.
  - `SecondSelectionOverlaps` states this for any such node, coin flag either way.
  - `BothSelectionBitsReachable` gives a concrete schedule from power-on ending in 0x06.
  - `PlTick` proves exclusivity only when the other product's bit was already clear.
  - Whether the real task periods (25 ms input, 50 ms encoder) rule this out
    depends on the scheduler, which is not modelled. It is therefore reported
    here, not as a defect.

  Node B resolves a byte with both bits set in favour of product 1 (`Selected`).
- **A purchase made during a drive is lost.** The driver reads `productValid`
  only in Process. While it dispenses one product, `PO_Tick` still approves a new
  selection that the balance covers: it takes the price and sets the code again.
  The drive's Finish then clears that code together with its own. The driver goes
  back to Process and idles, so the second purchase is paid for and never
  dispensed (`PaidButNotDispensed`). A drive lasts 2049 driver ticks, far longer
  than Node A's hold-off between two sent bytes, so this needs no unusual timing.
- **Dispensing screen.** `LCD_Tick` leaves its dispensing screen as soon as it
  sees `motorRunning` low. The driver raises that flag one driver tick after
  leaving Process. A presenter that ticks twice in between shows the thank-you
  screen before the product is dispensed (`DispenseScreenSkipped`).

`switch` default branches on the state enums (`default: state = INIT`) cannot be
reached: a Dafny datatype has no out-of-range values. The inner `default` of the
`productSelect` switch in `PL_Tick` is modelled, because `productSelect` is a
`Byte`.

## Left out

- FreeRTOS tasks, `vTaskDelay` periods, `StartSecPulse` and `main`: scheduling and concurrency. The model is instead an arbitrary sequence of whole ticks (`Event`), each running to completion.
- The serial, keypad, LCD and ADC drivers (`USART_*`, `GetKeypadKey`, `LCD_*`, `ADC_init`) are not part of this model. Their results are parameters and their effects are recorded outputs (`LcdWrite` calls, the sent `Option<bv8>`, the stepper port byte).
- The `sprintf`/`LCD_AppendString` echo of the raw ADC reading in `LEDS_Tick`: a display side effect only.
- `transmit_data` (debug shift register) in `TR_Tick` and the SPI header: hardware I/O on a debug path.
- The commented-out `IR_WAIT` state and `AdminKey`: dead code.
- The floating-point expression for `PHASES_TO_DISPENSE`: the model uses its value, 2048.
- The ADC is 10-bit, but the model admits any `unsigned short` reading. Only the comparison with 900 matters.
- `NodeBSpec.BalanceConserved`: requires that no coin in the run finds the balance at 255, where the `unsigned char` increment wraps to 0 and money is lost. Runs where purchases keep the balance low are covered however many coins they carry. The wrap itself is modelled by `PoTick`.
