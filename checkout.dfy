/** The checkout page: a three-step wizard (shipping, payment, review) over a form of text
    fields, and the order summary it shows beside the form. */
module CheckoutPage {
  import StorefrontCart

  /** The form's field names as the page declares them, every one starting empty. */
  const FormFields: seq<string> := ["email", "firstName", "lastName", "address", "apartment",
                                    "city", "state", "zipCode", "phone",
                                    "cardName", "cardNumber", "expDate", "cvv"]

  function InitialForm(): (form: map<string, string>)
    ensures forall k :: k in form <==> k in FormFields
    ensures forall k | k in form :: form[k] == ""
  {
    map k | k in FormFields :: ""
  }

  /** The step after `handleNextStep`: one further while below 3. */
  function Next(step: int): (r: int)
    ensures 1 <= step <= 3 ==> 1 <= r <= 3
    ensures step < 3 ==> r == step + 1
    ensures step >= 3 ==> r == step
  {
    if step < 3 then step + 1 else step
  }

  /** The step after `handlePrevStep`: one back while above 1. */
  function Prev(step: int): (r: int)
    ensures 1 <= step <= 3 ==> 1 <= r <= 3
    ensures step > 1 ==> r == step - 1
    ensures step <= 1 ==> r == step
  {
    if step > 1 then step - 1 else step
  }

  /** Back undoes forward everywhere before the last step, and forward undoes back everywhere
      after the first. */
  lemma BackUndoesForward(step: int)
    ensures 1 <= step < 3 ==> Prev(Next(step)) == step
    ensures 1 < step <= 3 ==> Next(Prev(step)) == step
  {
  }

  /** However the buttons are pressed, the step stays within 1..3: a sequence of presses (true
      for next, false for back) from a step in range ends in range. */
  function Press(step: int, presses: seq<bool>): (r: int)
    ensures 1 <= step <= 3 ==> 1 <= r <= 3
    decreases presses
  {
    if presses == [] then step
    else Press(if presses[0] then Next(step) else Prev(step), presses[1..])
  }

  /** Two presses of next from the first step reach the review step, and more stay there. */
  lemma {:induction false} ForwardReachesReview(n: nat)
    ensures Press(1, seq(n, _ => true)) == if n < 2 then 1 + n else 3
  {
    if n > 0 {
      var ps := seq(n, _ => true);
      assert ps[1..] == seq(n - 1, _ => true);
      if n >= 2 {
        ForwardFromReview(n - 2);
        assert ps[1..][1..] == seq(n - 2, _ => true);
      }
    }
  }

  lemma {:induction false} ForwardFromReview(n: nat)
    ensures Press(3, seq(n, _ => true)) == 3
  {
    if n > 0 {
      ForwardFromReview(n - 1);
      assert seq(n, _ => true)[1..] == seq(n - 1, _ => true);
    }
  }

  class Wizard {
    var step: int
    var form: map<string, string>

    ghost predicate Valid()
      reads this
    {
      1 <= step <= 3
    }

    constructor ()
      ensures Valid() && step == 1 && form == InitialForm()
    {
      step := 1;
      form := InitialForm();
    }

    /** `handleNextStep`. */
    method NextStep()
      requires Valid()
      modifies this
      ensures Valid() && step == Next(old(step)) && form == old(form)
    {
      if step < 3 {
        step := step + 1;
      }
    }

    /** `handlePrevStep`. */
    method PrevStep()
      requires Valid()
      modifies this
      ensures Valid() && step == Prev(old(step)) && form == old(form)
    {
      if step > 1 {
        step := step - 1;
      }
    }

    /** `handleChange`: the input's field takes its value, every other field keeps its own; a
        name the initial form lacks (the payment-method radio) joins the form. */
    method HandleChange(name: string, value: string)
      requires Valid()
      modifies this
      ensures Valid() && step == old(step)
      ensures form == old(form)[name := value]
      ensures form.Keys == old(form).Keys + {name}
      ensures forall k | k in old(form) && k != name :: form[k] == old(form)[k]
    {
      form := form[name := value];
    }
  }

  /** The summary's tax: 8% of the subtotal. */
  function Tax(subtotal: real): (r: real)
    ensures subtotal >= 0.0 ==> 0.0 <= r <= subtotal
  {
    subtotal * 0.08
  }

  /** The summary's total: subtotal, shipping (the cart page's rule) and tax. */
  function CheckoutTotal(items: seq<StorefrontCart.Item>): real {
    var subtotal := StorefrontCart.Subtotal(items);
    subtotal + StorefrontCart.ShippingFee(subtotal) + Tax(subtotal)
  }

  /** The checkout total is the cart page's total plus the tax: the two pages agree on subtotal
      and shipping. */
  lemma CheckoutAddsTax(items: seq<StorefrontCart.Item>)
    ensures CheckoutTotal(items) == StorefrontCart.Total(items) + Tax(StorefrontCart.Subtotal(items))
    ensures StorefrontCart.WellFormed(items) ==> CheckoutTotal(items) >= StorefrontCart.Total(items)
  {
  }
}
