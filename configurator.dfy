/** The stateful parts of `src/pages/CustomKnife.tsx`: the page that holds the
    configuration, the wizard step and the displayed price, and the preview's
    drag controller that turns pointer movement into a rotation. */
module Configurator {
  import opened Wrappers
  import opened Knife
  import Cart
  import Products

  /** Number of wizard steps: type, blade, handle, engraving, accessories, summary. */
  const StepCount := 6

  /** "Anterior": one step back, never below the first step. */
  function PreviousStep(step: int): (r: int)
    ensures 0 <= step < StepCount ==> 0 <= r < StepCount && r <= step
    ensures 0 < step < StepCount ==> r == step - 1
  {
    if 0 > step - 1 then 0 else step - 1
  }

  /** "Siguiente": one step forward, never past the last step. */
  function NextStep(step: int): (r: int)
    ensures 0 <= step < StepCount ==> 0 <= r < StepCount && r >= step
    ensures 0 <= step < StepCount - 1 ==> r == step + 1
  {
    if StepCount - 1 < step + 1 then StepCount - 1 else step + 1
  }

  /** Pressing "Siguiente" any number of times stops at the last step instead of wrapping. */
  lemma {:induction false} NextRepeatedStops(step: int, n: nat)
    requires 0 <= step < StepCount
    ensures var r := Iterate(step, n); 0 <= r < StepCount
    ensures Iterate(step, n) == if step + n > StepCount - 1 then StepCount - 1 else step + n
  {
    if n > 0 {
      NextRepeatedStops(step, n - 1);
    }
  }

  /** The step reached after pressing "Siguiente" `n` times. */
  function Iterate(step: int, n: nat): int
  {
    if n == 0 then step else NextStep(Iterate(step, n - 1))
  }

  /** The customizer page: its wizard step, configuration, displayed price and
      the success modal it opens after adding the knife to the cart. */
  class CustomKnifePage {
    var currentStep: int
    var config: KnifeConfig
    var totalPrice: int
    var showSuccessModal: bool

    /** The step is a valid index and the price effect has run for the current configuration. */
    ghost predicate Valid()
      reads this
    {
      0 <= currentStep < StepCount && totalPrice == Price(config)
    }

    constructor ()
      ensures Valid()
      ensures currentStep == 0 && config == DefaultConfig && totalPrice == InitialPrice
      ensures !showSuccessModal
    {
      currentStep := 0;
      config := DefaultConfig;
      totalPrice := InitialPrice;
      showSuccessModal := false;
      DefaultPriceIsInitial();
    }

    method Previous()
      requires Valid()
      modifies this`currentStep
      ensures Valid() && currentStep == PreviousStep(old(currentStep))
    {
      currentStep := PreviousStep(currentStep);
    }

    method Next()
      requires Valid()
      modifies this`currentStep
      ensures Valid() && currentStep == NextStep(old(currentStep))
    {
      currentStep := NextStep(currentStep);
    }

    /** A click on the progress bar jumps to that step's index. */
    method GoToStep(index: int)
      requires Valid() && 0 <= index < StepCount
      modifies this`currentStep
      ensures Valid() && currentStep == index
    {
      currentStep := index;
    }

    /** `updateConfig` followed by the price effect. */
    method Update(f: Field, v: Value)
      requires Valid() && Fits(f, v)
      modifies this`config, this`totalPrice
      ensures Valid() && config == UpdateConfig(old(config), f, v)
    {
      config := UpdateConfig(config, f, v);
      totalPrice := ComputePrice(config);
    }

    /** `handleAddToCart`: build the line from the current configuration and price, add it
        to the cart, open the success modal; the configuration and the step are kept. */
    method AddToCart(cart: Cart.CartProvider, now: nat)
      requires Valid()
      modifies cart, this`showSuccessModal
      ensures Valid() && showSuccessModal
      ensures cart.Valid()
      ensures cart.items == Cart.AddTo(old(cart.items), CustomItem(config, Price(config), now))
    {
      var summary := CreateCustomSummary(config);
      var item := Cart.NewItem(
        Cart.Str("custom-knife-" + Products.Decimal(now)),
        "Cuchillo " + Capitalize(config.knifeType) + " Personalizado",
        totalPrice as real, CustomKnifeImage, Some(true), Some(summary));
      cart.AddItem(item);
      showSuccessModal := true;
    }
  }

  /** A newly committed knife is appended as its own line with quantity 1 at the price shown. */
  lemma CommittedLine(items: seq<Cart.CartItem>, c: KnifeConfig, now: nat)
    requires !Cart.HasId(items, CustomItem(c, Price(c), now).id)
    ensures var r := Cart.AddTo(items, CustomItem(c, Price(c), now));
      && |r| == |items| + 1 && r[..|items|] == items
      && r[|items|].quantity == 1 && r[|items|].isCustom == Some(true)
      && r[|items|].price == Price(c) as real
      && r[|items|].customSummary == Some(Summary(c))
  {
  }

  /** The preview's drag controller. While a drag is on, the accumulated rotation minus
      the last pointer position is the value it had when the drag began. */
  class KnifeViewer {
    var rotationX: int
    var rotationY: int
    var isDragging: bool
    var lastX: int
    var lastY: int
    ghost var anchorX: int
    ghost var anchorY: int

    ghost predicate Valid()
      reads this
    {
      isDragging ==> rotationX == anchorX + lastY && rotationY == anchorY + lastX
    }

    constructor ()
      ensures Valid() && rotationX == 0 && rotationY == 0 && !isDragging && lastX == 0 && lastY == 0
    {
      rotationX, rotationY := 0, 0;
      isDragging := false;
      lastX, lastY := 0, 0;
    }

    method MouseDown(clientX: int, clientY: int)
      requires Valid()
      modifies this
      ensures Valid() && isDragging && lastX == clientX && lastY == clientY
      ensures rotationX == old(rotationX) && rotationY == old(rotationY)
      ensures anchorX == rotationX - clientY && anchorY == rotationY - clientX
    {
      isDragging := true;
      lastX, lastY := clientX, clientY;
      anchorX, anchorY := rotationX - clientY, rotationY - clientX;
    }

    /** Vertical movement turns about the x axis, horizontal movement about the y axis. */
    method MouseMove(clientX: int, clientY: int)
      requires Valid()
      modifies this`rotationX, this`rotationY, this`lastX, this`lastY
      ensures Valid()
      ensures !old(isDragging) ==> rotationX == old(rotationX) && rotationY == old(rotationY)
                                   && lastX == old(lastX) && lastY == old(lastY)
      ensures old(isDragging) ==> rotationX == old(rotationX) + (clientY - old(lastY))
                                  && rotationY == old(rotationY) + (clientX - old(lastX))
                                  && lastX == clientX && lastY == clientY
      ensures old(isDragging) ==> rotationX == anchorX + clientY && rotationY == anchorY + clientX
    {
      if !isDragging {
        return;
      }
      var deltaX := clientX - lastX;
      var deltaY := clientY - lastY;
      rotationX, rotationY := rotationX + deltaY, rotationY + deltaX;
      lastX, lastY := clientX, clientY;
    }

    /** Mouse-up and mouse-leave end the drag and keep the rotation. */
    method MouseUp()
      requires Valid()
      modifies this`isDragging
      ensures Valid() && !isDragging
    {
      isDragging := false;
    }
  }
}
