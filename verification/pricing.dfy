/**
 * The Pricing page: the payment form's data and validator and the page's
 * steps, plans → payment → processing → success or cancel. The simulated
 * payment's outcome (`Math.random()` after a `setTimeout`) is an input.
 */
module Pricing {
  import opened Strings
  import opened CardNumber
  import opened Wrappers

  datatype PaymentData = PaymentData(
    cardNumber: string,
    expiryDate: string,
    cvv: string,
    cardHolderName: string,
    upiId: string,
    email: string,
    phone: string)

  const EmptyData: PaymentData := PaymentData("", "", "", "", "", "", "")

  datatype Field = CardNumberField | ExpiryDate | Cvv | CardHolderName | UpiId | Email | Phone

  function Get(d: PaymentData, f: Field): string {
    match f
    case CardNumberField => d.cardNumber
    case ExpiryDate => d.expiryDate
    case Cvv => d.cvv
    case CardHolderName => d.cardHolderName
    case UpiId => d.upiId
    case Email => d.email
    case Phone => d.phone
  }

  function Set(d: PaymentData, f: Field, value: string): PaymentData {
    match f
    case CardNumberField => d.(cardNumber := value)
    case ExpiryDate => d.(expiryDate := value)
    case Cvv => d.(cvv := value)
    case CardHolderName => d.(cardHolderName := value)
    case UpiId => d.(upiId := value)
    case Email => d.(email := value)
    case Phone => d.(phone := value)
  }

  /** `handleInputChange`: the card number is formatted, any other field is
      stored as typed, and the other fields keep their values. */
  function HandleInputChange(d: PaymentData, f: Field, value: string): (r: PaymentData)
    ensures Get(r, f) == if f == CardNumberField then FormatCardNumber(value) else value
    ensures forall g :: g != f ==> Get(r, g) == Get(d, g)
  {
    Set(d, f, if f == CardNumberField then FormatCardNumber(value) else value)
  }

  /** What a complete form needs, independently of the order of the
      checks. */
  predicate FormValid(paymentMethod: string, d: PaymentData) {
    && (paymentMethod == "card" ==>
          d.cardNumber != "" && d.expiryDate != "" && d.cvv != "" && d.cardHolderName != ""
          && |RemoveWhitespace(d.cardNumber)| == 16)
    && (paymentMethod == "upi" ==> d.upiId != "")
    && d.email != "" && d.phone != ""
  }

  const CardDetailsMissing: string := "Please fill in all card details"
  const CardNumberInvalid: string := "Please enter a valid 16-digit card number"
  const UpiMissing: string := "Please enter your UPI ID"
  const ContactMissing: string := "Please enter your email and phone number"

  /** `validatePaymentForm`: the first failing check's message, or none. */
  function ValidatePaymentForm(paymentMethod: string, d: PaymentData): (error: Option<string>)
    ensures error.None? <==> FormValid(paymentMethod, d)
    ensures error == Some(CardDetailsMissing) <==>
      paymentMethod == "card" && (d.cardNumber == "" || d.expiryDate == "" || d.cvv == "" || d.cardHolderName == "")
    ensures error == Some(CardNumberInvalid) <==>
      && paymentMethod == "card" && d.cardNumber != "" && d.expiryDate != "" && d.cvv != "" && d.cardHolderName != ""
      && |RemoveWhitespace(d.cardNumber)| != 16
    ensures error == Some(UpiMissing) <==> paymentMethod == "upi" && d.upiId == ""
    ensures error.Some? ==> error.value in {CardDetailsMissing, CardNumberInvalid, UpiMissing, ContactMissing}
  {
    if paymentMethod == "card" && (d.cardNumber == "" || d.expiryDate == "" || d.cvv == "" || d.cardHolderName == "") then
      Some(CardDetailsMissing)
    else if paymentMethod == "card" && |RemoveWhitespace(d.cardNumber)| != 16 then Some(CardNumberInvalid)
    else if paymentMethod == "upi" && d.upiId == "" then Some(UpiMissing)
    else if d.email == "" || d.phone == "" then Some(ContactMissing)
    else None
  }

  /** A card number typed through the form passes the length check exactly
      when sixteen or more digits were typed. */
  lemma TypedCardNumberLength(d: PaymentData, value: string)
    ensures var e := HandleInputChange(d, CardNumberField, value);
      |RemoveWhitespace(e.cardNumber)| == 16 <==> |Digits(value)| >= 16
  {
    FormattedLength(value);
  }

  datatype Step = Plans | Payment | Processing | Success | Cancel

  datatype PricingState = PricingState(step: Step, paymentMethod: string, plan: string, data: PaymentData,
                                       error: string, loading: bool)

  const Initial: PricingState := PricingState(Plans, "card", "premium", EmptyData, "", false)

  /** How the simulated payment ends: `Math.random() > 0.2`, or not, or a
      thrown error. */
  datatype PaymentOutcome = Paid | Declined | Failed

  /** The controls of each step. */
  datatype Action =
    | SelectPlan(id: string)
    | SelectMethod(id: string)
    | Upgrade
    | Edit(field: Field, value: string)
    | BackFromPayment
    | Submit
    | Settle(outcome: PaymentOutcome)
    | TryAgain
    | BackToPlans

  /** Whether the screen of `step` offers the control behind `a`; the end of
      the simulated payment only happens while it is processing. */
  predicate Offered(step: Step, a: Action) {
    match step
    case Plans => a.SelectPlan? || a.SelectMethod? || a == Upgrade
    case Payment => a.Edit? || a == BackFromPayment || a == Submit
    case Processing => a.Settle?
    case Success => a == BackToPlans
    case Cancel => a == TryAgain || a == BackToPlans
  }

  const ProcessingFailed: string := "Payment processing failed. Please try again."

  /** One user action (or the end of the simulated payment); an action whose
      control is not on the current step's screen changes nothing. */
  function Next(s: PricingState, a: Action): (r: PricingState)
    ensures !Offered(s.step, a) ==> r == s
    // Leaving the plans screen needs both choices made.
    ensures r.step == Payment && s.step == Plans ==> a == Upgrade && s.paymentMethod != "" && s.plan != ""
    ensures s.step == Plans && a == Upgrade && s.paymentMethod != "" && s.plan != "" ==>
      r == s.(step := Payment, error := "")
    ensures s.step == Plans && a == Upgrade && (s.paymentMethod == "" || s.plan == "") ==>
      r.step == Plans && r.error != "" && r.(error := s.error) == s
    ensures s.step == Plans && a.SelectPlan? ==> r == s.(plan := a.id)
    ensures s.step == Plans && a.SelectMethod? ==> r == s.(paymentMethod := a.id)
    // Processing starts exactly for a valid form.
    ensures r.step == Processing && s.step != Processing ==>
      s.step == Payment && a == Submit && FormValid(s.paymentMethod, s.data)
    ensures s.step == Payment && a == Submit && FormValid(s.paymentMethod, s.data) ==>
      r == s.(step := Processing, loading := true, error := "")
    ensures s.step == Payment && a == Submit && !FormValid(s.paymentMethod, s.data) ==>
      r.step == Payment && r.error != "" && r.(error := s.error) == s
    ensures s.step == Payment && a.Edit? ==> r == s.(data := HandleInputChange(s.data, a.field, a.value))
    ensures s.step == Payment && a == BackFromPayment ==> r == s.(step := Plans)
    // The end of the payment.
    ensures s.step == Processing && a.Settle? ==>
      && r.step == (match a.outcome case Paid => Success case Declined => Cancel case Failed => Payment)
      && !r.loading
      && r.error == (if a.outcome == Failed then ProcessingFailed else s.error)
      && r.data == s.data
    ensures s.step == Cancel && a == TryAgain ==> r == s.(step := Payment)
    ensures (s.step == Success || s.step == Cancel) && a == BackToPlans ==>
      r == s.(step := Plans, data := EmptyData)
  {
    match a
    case SelectPlan(id) => if s.step == Plans then s.(plan := id) else s
    case SelectMethod(id) => if s.step == Plans then s.(paymentMethod := id) else s
    case Upgrade =>
      if s.step != Plans then s
      else if s.paymentMethod == "" then s.(error := "Please select a payment method")
      else if s.plan == "" then s.(error := "Please select a plan")
      else s.(step := Payment, error := "")
    case Edit(f, v) => if s.step == Payment then s.(data := HandleInputChange(s.data, f, v)) else s
    case BackFromPayment => if s.step == Payment then s.(step := Plans) else s
    case Submit =>
      if s.step != Payment then s
      else (match ValidatePaymentForm(s.paymentMethod, s.data)
        case Some(e) => s.(error := e)
        case None => s.(loading := true, error := "", step := Processing))
    case Settle(o) =>
      if s.step != Processing then s
      else (match o
        case Paid => s.(step := Success, loading := false)
        case Declined => s.(step := Cancel, loading := false)
        case Failed => s.(step := Payment, error := ProcessingFailed, loading := false))
    case TryAgain => if s.step == Cancel then s.(step := Payment) else s
    case BackToPlans =>
      if s.step == Success || s.step == Cancel then s.(step := Plans, data := EmptyData) else s
  }

  /** The page's invariant: a payment is in progress or finished only for a
      form that passed validation, and the page is busy exactly while the
      payment is processing. */
  predicate Inv(s: PricingState) {
    && (s.step in {Processing, Success, Cancel} ==> FormValid(s.paymentMethod, s.data))
    && (s.loading <==> s.step == Processing)
  }

  lemma InitialInv()
    ensures Inv(Initial)
  {
  }

  lemma NextKeepsInv(s: PricingState, a: Action)
    requires Inv(s)
    ensures Inv(Next(s, a))
  {
  }

  /** The state after a run of actions. */
  function Run(s: PricingState, actions: seq<Action>): PricingState
    decreases |actions|
  {
    if |actions| == 0 then s else Run(Next(s, actions[0]), actions[1..])
  }

  /** Every reachable state keeps the invariant. */
  lemma {:induction false} RunKeepsInv(s: PricingState, actions: seq<Action>)
    requires Inv(s)
    ensures Inv(Run(s, actions))
    decreases |actions|
  {
    if |actions| > 0 {
      NextKeepsInv(s, actions[0]);
      RunKeepsInv(Next(s, actions[0]), actions[1..]);
    }
  }
}
