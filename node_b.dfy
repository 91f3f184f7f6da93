/**
 * The dispensing controller's tasks as objects updated in place, the way uC2.c
 * updates its globals and static locals. Each Tick is the source's two switches,
 * actions then transitions, and is proved to compute the matching transition
 * function of NodeBSpec, where the properties of the machines are proved.
 */
module NodeB {
  import opened Common
  import opened NodeBSpec

  /** The controller's globals, shared by reference among its tasks. */
  class Context {
    var currentCoins: Byte
    var productValid: Byte
    var motorRunning: bool

    function View(): Globals
      reads this
    {
      Globals(currentCoins, productValid, motorRunning)
    }

    constructor ()
      ensures View() == Globals(0, 0, false)
    {
      currentCoins, productValid, motorRunning := 0, NoProduct, false;
    }
  }

  /** Stepper_Driver: drives the coil of the selected product through its step sequence. */
  class StepperDriver {
    var state: SdState
    var stepperOut: Byte
    var pos1: Byte
    var pos2: Byte
    var motorCount: nat

    function View(): Stepper
      reads this
    {
      Stepper(state, stepperOut, pos1, pos2, motorCount)
    }

    /** The step indices address the 4-entry sequences. */
    predicate Valid()
      reads this
    {
      PositionsOk(View())
    }

    /** SD_Init, with the static locals zero as C initialises them. */
    constructor ()
      ensures Valid() && View() == Stepper(SdInit, 0, 0, 0, 0)
    {
      state, stepperOut, pos1, pos2, motorCount := SdInit, 0, 0, 0, 0;
    }

    /** SD_Tick; `port` is the byte written to the stepper port. */
    method Tick(ctx: Context) returns (port: Byte)
      requires Valid()
      modifies this, ctx
      ensures Valid()
      ensures (View(), ctx.View()) == SdTick(old(View()), old(ctx.View()))
      ensures port == stepperOut
      ensures StepperInv(old(View()), old(ctx.motorRunning)) ==> StepperInv(View(), ctx.motorRunning)
    {
      Actions(ctx);
      port := stepperOut;
      Transitions(ctx);
    }

    /** The first switch of SD_Tick: drive the coil and keep the motor flag. */
    method Actions(ctx: Context)
      requires Valid()
      modifies this, ctx
      ensures (View(), ctx.View()) == SdActions(old(View()), old(ctx.View()))
    {
      match state {
        case SdInit =>
          ctx.motorRunning := false;
          stepperOut := 0;
          motorCount := 0;
          pos1 := 0;
          pos2 := 0;
        case SdProcess =>
        case SdDrive1 =>
          ctx.motorRunning := true;
          stepperOut := Sequence1[pos1];
          if pos1 < 3 {
            pos1 := pos1 + 1;
          } else {
            pos1 := 0;
          }
        case SdDrive2 =>
          ctx.motorRunning := true;
          stepperOut := Sequence2[pos2];
          if pos2 < 3 {
            pos2 := pos2 + 1;
          } else {
            pos2 := 0;
          }
        case SdFinish =>
          ctx.motorRunning := false;
          ctx.productValid := NoProduct;  // closes the purchase for the other tasks
      }
    }

    /** The second switch of SD_Tick: start, count and finish a drive. */
    method Transitions(ctx: Context)
      modifies this
      ensures View() == SdTransitions(old(View()), ctx.View())
    {
      match state {
        case SdInit =>
          state := SdProcess;
        case SdProcess =>
          if ctx.productValid == NoProduct || ctx.productValid == Product1Insufficient
             || ctx.productValid == Product2Insufficient {
            state := SdProcess;
          } else if ctx.productValid == Product1Ok {
            state := SdDrive1;
          } else if ctx.productValid == Product2Ok {
            state := SdDrive2;
          }
        case SdDrive1 =>
          if motorCount < PhasesToDispense {
            state := SdDrive1;
            motorCount := motorCount + 1;
          } else {
            state := SdFinish;
            motorCount := 0;
          }
        case SdDrive2 =>
          if motorCount < PhasesToDispense {
            state := SdDrive2;
            motorCount := motorCount + 1;
          } else {
            state := SdFinish;
            motorCount := 0;
          }
        case SdFinish =>
          state := SdProcess;
      }
    }
  }

  /** LCD_Logic: shows the balance and the outcome of each purchase attempt. */
  class LcdLogic {
    var state: LcdState
    var timer: nat

    function View(): Display
      reads this
    {
      Display(state, timer)
    }

    /** LCD_Init, with the static timer zero as C initialises it. */
    constructor ()
      ensures View() == Display(LcdInit, 0)
    {
      state, timer := LcdInit, 0;
    }

    /** LCD_Tick; `writes` are the calls made to the display driver, in order. */
    method Tick(ctx: Context) returns (writes: seq<LcdWrite>)
      modifies this, ctx
      ensures (View(), ctx.View(), writes) == LcdTick(old(View()), old(ctx.View()))
      ensures ctx.motorRunning == old(ctx.motorRunning) && ctx.currentCoins == old(ctx.currentCoins)
      ensures LcdInv(old(View())) ==> LcdInv(View())
    {
      writes := Actions(ctx);
      var more := Transitions(ctx);
      writes := writes + more;
    }

    /** The first switch of LCD_Tick: the balance screen refreshes the amount. */
    method Actions(ctx: Context) returns (writes: seq<LcdWrite>)
      modifies this
      ensures (View(), writes) == LcdActions(old(View()), ctx.View())
    {
      writes := [];
      match state {
        case LcdInit =>
          timer := 0;
        case LcdCoinCnt =>
          writes := [WriteAt(11, DisplayCoins(ctx.currentCoins))];
        case _ =>
      }
    }

    /** The second switch of LCD_Tick: the screen changes and the banners they write. */
    method Transitions(ctx: Context) returns (more: seq<LcdWrite>)
      modifies this, ctx
      ensures (View(), ctx.View(), more) == LcdTransitions(old(View()), old(ctx.View()))
    {
      more := [];
      match state {
        case LcdInit =>
          state := LcdWelcome;
          more := [DisplayString(1, "Welcome to "), AppendString(17, "MiniVendi!")];
        case LcdWelcome =>
          if timer < WelcomeTicks {
            state := LcdWelcome;
            timer := timer + 1;
          } else {
            state := LcdCoinCnt;
            timer := 0;
            more := [DisplayString(1, "Balance: $")];
          }
        case LcdCoinCnt =>
          if ctx.productValid == Product1Ok {
            state := LcdDispense1;
            more := [DisplayString(1, "Dispensing"), AppendString(17, "<PRODUCT1>")];
          } else if ctx.productValid == Product2Ok {
            state := LcdDispense2;
            more := [DisplayString(1, "Dispensing"), AppendString(17, "<PRODUCT2>")];
          } else if ctx.productValid == Product1Insufficient || ctx.productValid == Product2Insufficient {
            state := LcdInsufficient;
            more := [DisplayString(1, "INSUFFICIENT"), AppendString(17, "FUNDS")];
          } else {
            state := LcdCoinCnt;
          }
        case LcdDispense1 =>
          if ctx.motorRunning {
            state := LcdDispense1;
          } else {
            state := LcdThankYou;
            more := [DisplayString(1, "THANK YOU FOR"), AppendString(17, "YOUR PURCHASE!")];
          }
        case LcdDispense2 =>
          if ctx.motorRunning {
            state := LcdDispense2;
          } else {
            state := LcdThankYou;
            more := [DisplayString(1, "THANK YOU FOR"), AppendString(17, "YOUR PURCHASE!")];
          }
        case LcdInsufficient =>
          if timer < InsufficientTicks {
            state := LcdInsufficient;
            timer := timer + 1;
          } else {
            state := LcdCoinCnt;
            timer := 0;
            ctx.productValid := NoProduct;  // the insufficient-funds code is resolved here
            more := [DisplayString(1, "Balance: $")];
          }
        case LcdThankYou =>
          if timer < ThankYouTicks {
            state := LcdThankYou;
            timer := timer + 1;
          } else {
            state := LcdCoinCnt;
            timer := 0;
            more := [DisplayString(1, "Balance: $")];
          }
      }
    }
  }

  /** Product_Output: receives the control byte, keeps the balance and judges each selection. */
  class ProductOutput {
    var state: PoState
    var receivedControl: bv8

    function View(): Receiver
      reads this
    {
      Receiver(state, receivedControl)
    }

    /** PO_Init, with the static buffer zero as C initialises it. */
    constructor ()
      ensures View() == Receiver(PoInit, 0)
    {
      state, receivedControl := PoInit, 0;
    }

    /** PO_Tick; `rx` is the byte the serial port holds, if one has arrived. */
    method Tick(ctx: Context, rx: Option<bv8>)
      modifies this, ctx
      ensures (View(), ctx.View()) == PoTick(old(View()), old(ctx.View()), rx)
      ensures rx.None? ==> ctx.View() == old(ctx.View())
      ensures ctx.motorRunning == old(ctx.motorRunning)
    {
      // Actions
      match state {
        case PoInit =>
          receivedControl := 0;
        case PoReceive =>
          if rx.Some? {
            receivedControl := rx.value;
            if receivedControl & 0x01 != 0 {  // a coin was received
              ctx.currentCoins := (ctx.currentCoins + 1) % 256;
            }
            if receivedControl & 0x02 != 0 {  // product 1 selected
              if ctx.currentCoins >= Price1 {
                ctx.productValid := Product1Ok;
                ctx.currentCoins := ctx.currentCoins - Price1;
              } else {
                ctx.productValid := Product1Insufficient;
              }
            } else if receivedControl & 0x04 != 0 {  // product 2 selected
              if ctx.currentCoins >= Price2 {
                ctx.productValid := Product2Ok;
                ctx.currentCoins := ctx.currentCoins - Price2;
              } else {
                ctx.productValid := Product2Insufficient;
              }
            }
            receivedControl := 0;
          }
      }
      // Transitions
      match state {
        case PoInit =>
          state := PoReceive;
        case PoReceive =>
          state := PoReceive;
      }
    }
  }
}
