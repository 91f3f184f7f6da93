/**
 * The input controller's tasks as objects updated in place, the way main.c
 * updates its globals and static locals. Each Tick is the source's two switches,
 * actions then transitions, and is proved to compute the matching transition
 * function of NodeASpec, where the properties of the machines are proved.
 */
module NodeA {
  import opened Common
  import opened NodeASpec

  /** The controller's globals, shared by reference among its tasks. */
  class Context {
    var coinReceived: bool
    var productSelect: Byte
    var control: bv8
    var reset: bool

    function View(): Globals
      reads this
    {
      Globals(coinReceived, productSelect, control, reset)
    }

    constructor ()
      ensures View() == Globals(false, 0, 0, false)
    {
      coinReceived, productSelect, control, reset := false, 0, 0, false;
    }
  }

  /** LED: reads the IR sensor and reports whether a coin blocks the beam. */
  class LedSensor {
    var state: LedState
    var irVal: Word

    function View(): Sensor
      reads this
    {
      Sensor(state, irVal)
    }

    /** LEDS_Init, with the static reading zero as C initialises it. */
    constructor ()
      ensures View() == Sensor(IrInit, 0)
    {
      state, irVal := IrInit, 0;
    }

    /** LEDS_Tick; `adc` is the conversion result the ADC register holds. */
    method Tick(ctx: Context, adc: Word)
      modifies this, ctx
      ensures (View(), ctx.View()) == LedsTick(old(View()), old(ctx.View()), adc)
      ensures state == IrRead
      ensures old(state) == IrRead ==> (ctx.coinReceived <==> adc <= CoinThreshold)
    {
      // Actions
      match state {
        case IrInit =>
          ctx.coinReceived := false;
        case IrRead =>
          irVal := adc;
          if irVal > CoinThreshold {
            ctx.coinReceived := false;
          } else {
            ctx.coinReceived := true;
          }
      }
      // Transitions
      match state {
        case IrInit =>
          state := IrRead;
        case IrRead =>
          state := IrRead;
      }
    }
  }

  /** Input_Logic: latches one product choice from the keypad or Bluetooth until released. */
  class InputLogic {
    var state: InState
    var inputKey: char
    var btInput: char

    function View(): Selector
      reads this
    {
      Selector(state, inputKey, btInput)
    }

    /** IN_Init, with the static characters zero as C initialises them. */
    constructor ()
      ensures View() == Selector(InInit, NoKey, NoKey)
    {
      state, inputKey, btInput := InInit, NoKey, NoKey;
    }

    /** IN_Tick; `key` is the keypad scan and `bt` the Bluetooth byte, if one has arrived. */
    method Tick(ctx: Context, key: char, bt: Option<char>)
      modifies this, ctx
      ensures (View(), ctx.View()) == InTick(old(View()), old(ctx.View()), key, bt)
      ensures SelectorInv(old(View()), old(ctx.productSelect)) ==> SelectorInv(View(), ctx.productSelect)
    {
      // Actions
      match state {
        case InInit =>
          ctx.productSelect := 0;
          inputKey := NoKey;
          btInput := NoKey;
        case InReceive =>
          if bt.Some? {
            btInput := bt.value;
          }
          inputKey := key;
        case InSelect1 =>
          ctx.productSelect := 1;
        case InSelect2 =>
          ctx.productSelect := 2;
        case InBlock =>
      }
      // Transitions
      match state {
        case InInit =>
          state := InReceive;
        case InReceive =>
          if inputKey == '1' || btInput == '1' {
            state := InSelect1;
          } else if inputKey == '2' || btInput == '2' {
            state := InSelect2;
          } else {
            state := InReceive;
          }
        case InSelect1 =>
          state := InBlock;
        case InSelect2 =>
          state := InBlock;
        case InBlock =>
          if ctx.reset {
            state := InReceive;
            ctx.productSelect := 0;
            btInput := NoKey;
          } else {
            state := InBlock;
          }
      }
    }
  }

  /** Product_Logic: encodes the coin flag and the selection into the control byte. */
  class ProductLogic {
    var state: PlState

    constructor ()
      ensures state == PlInit
    {
      state := PlInit;
    }

    /** PL_Tick. */
    method Tick(ctx: Context)
      modifies this, ctx
      ensures (state, ctx.View()) == PlTick(old(state), old(ctx.View()))
    {
      // Actions
      match state {
        case PlInit =>
          ctx.control := 0;
        case PlUpdate =>
          ctx.control := UpdateControl(ctx.control, ctx.coinReceived, ctx.productSelect);
      }
      // Transitions
      match state {
        case PlInit =>
          state := PlUpdate;
        case PlUpdate =>
          state := PlUpdate;
      }
    }
  }

  /**
   * PL_Tick's Update action on the control byte: bit 0 from the coin flag, then
   * the selection ORed in, or both selection bits cleared for 0 and any other value.
   */
  method UpdateControl(control: bv8, coinReceived: bool, productSelect: Byte) returns (c: bv8)
    ensures c == WithSelection(WithCoin(control, coinReceived), productSelect)
    ensures c & CoinBit != 0 <==> coinReceived
    ensures c & UnusedBits == control & UnusedBits
  {
    c := control;
    if coinReceived {
      c := c | 0x01;  // a coin has been received
    } else {
      c := c & 0xFE;
    }
    if productSelect == 0 {
      c := c & 0xF9;
    } else if productSelect == 1 {
      c := c | 0x02;  // product 1 selected
    } else if productSelect == 2 {
      c := c | 0x04;  // product 2 selected
    } else {
      c := c & 0xF9;
    }
  }

  /** Transmit: sends each new control byte once, then holds reset up for the hold-off. */
  class LinkTransmitter {
    var state: TrState
    var lastSent: bv8
    var delayCount: Byte

    function View(): Transmitter
      reads this
    {
      Transmitter(state, lastSent, delayCount)
    }

    /** TR_Init, with the static locals zero as C initialises them. */
    constructor ()
      ensures View() == Transmitter(TrInit, 0, 0)
    {
      state, lastSent, delayCount := TrInit, 0, 0;
    }

    /** TR_Tick; `sendReady` is the serial port's ready flag, `sent` the byte written to it. */
    method Tick(ctx: Context, sendReady: bool) returns (sent: Option<bv8>)
      modifies this, ctx
      ensures (View(), ctx.View(), sent) == TrTick(old(View()), old(ctx.View()), sendReady)
      ensures TrInv(old(View()), old(ctx.reset)) ==> TrInv(View(), ctx.reset)
    {
      sent := None;
      // Actions
      match state {
        case TrInit =>
          lastSent := 0;
          delayCount := 0;
        case TrCheckUpdate =>
        case TrTransmit =>
        case TrReset =>
          ctx.reset := true;
      }
      // Transitions
      match state {
        case TrInit =>
          state := TrCheckUpdate;
        case TrCheckUpdate =>
          if lastSent != ctx.control {
            state := TrTransmit;
            lastSent := ctx.control;
          } else {
            state := TrCheckUpdate;
          }
        case TrTransmit =>
          if sendReady {
            sent := Some(ctx.control);
            state := TrReset;
          } else {
            state := TrTransmit;
          }
        case TrReset =>
          if delayCount < HoldOff {
            state := TrReset;
            delayCount := delayCount + 1;
          } else {
            state := TrCheckUpdate;
            ctx.reset := false;
            delayCount := 0;
          }
      }
    }
  }
}
