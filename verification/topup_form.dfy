/** src/components/TopupForm.tsx: the top-up form's validation chain, its
    clear-on-success rule and its submit-enabled rule. `Number(...)` is the
    parameter `toNumber`; the `onTopup` callback is represented by whether
    it threw. */
module TopupForm {
  import opened Js
  import Strings

  const MaxAmount: real := 1000000.0
  const EmptyAlert := "Por favor ingresa un monto"
  const InvalidAlert := "Por favor ingresa un monto válido mayor a 0"
  const MaxAlert := "El monto máximo permitido es $1,000,000"
  /** The quick-amount buttons. */
  const QuickAmounts: seq<real> := [100.0, 1000.0, 5000.0, 10000.0, 50000.0, 100000.0, 1000000.0]

  /** The input text and whether a top-up is in flight. */
  datatype Form = Form(monto: string, loading: bool)

  /** The verdict of the validation chain. */
  datatype Check = Accept(amount: real) | Reject(alert: string)

  /** The checks of `handleTopup`, in order: blank input, then NaN or not
      positive, then above the ceiling. */
  function Validate(monto: string, amount: JsNumber): (v: Check)
    ensures v.Accept? <==> !Strings.IsBlank(monto) && amount.Finite? && 0.0 < amount.value <= MaxAmount
    ensures v.Accept? ==> v.amount == amount.value
    ensures Strings.IsBlank(monto) ==> v == Reject(EmptyAlert)
    ensures !Strings.IsBlank(monto) && (amount.NaN? || amount.NegativeInfinity? || (amount.Finite? && amount.value <= 0.0))
      ==> v == Reject(InvalidAlert)
    ensures !Strings.IsBlank(monto) && (amount.PositiveInfinity? || (amount.Finite? && amount.value > MaxAmount))
      ==> v == Reject(MaxAlert)
  {
    Strings.TrimEmptyIffBlank(monto);
    if monto == "" || Strings.Trim(monto) == "" then Reject(EmptyAlert)
    else if amount.NaN? || AtMost(amount, 0.0) then Reject(InvalidAlert)
    else if Above(amount, MaxAmount) then Reject(MaxAlert)
    else Accept(amount.value)
  }

  /** The form after a click, the amount `onTopup` was called with (if any),
      and the alert shown (if any). */
  datatype Step = Step(form: Form, call: Option<real>, alert: Option<string>)

  /** `handleTopup()`: on a rejection nothing is called and the input stays;
      otherwise `onTopup` is called once and the input is cleared only if it
      did not throw. */
  function HandleTopup(f: Form, toNumber: string -> JsNumber, callbackThrows: bool): (s: Step)
    ensures Validate(f.monto, toNumber(f.monto)).Reject? ==>
      s == Step(f, None, Some(Validate(f.monto, toNumber(f.monto)).alert))
    ensures Validate(f.monto, toNumber(f.monto)).Accept? ==>
      && s.call == Some(Validate(f.monto, toNumber(f.monto)).amount)
      && s.alert == None
      && !s.form.loading
      && (callbackThrows ==> s.form.monto == f.monto)
      && (!callbackThrows ==> s.form.monto == "")
  {
    match Validate(f.monto, toNumber(f.monto))
    case Reject(alert) => Step(f, None, Some(alert))
    case Accept(amount) =>
      Step(Form(if callbackThrows then f.monto else "", false), Some(amount), None)
  }

  /** The button is disabled while loading, for an empty input, or when the
      number is `<= 0` (which NaN is not). */
  predicate SubmitDisabled(f: Form, toNumber: string -> JsNumber)
  {
    f.loading || f.monto == "" || AtMost(toNumber(f.monto), 0.0)
  }

  /** Every amount the handler accepts can be submitted when idle. */
  lemma AcceptedIsSubmittable(f: Form, toNumber: string -> JsNumber)
    requires !f.loading && Validate(f.monto, toNumber(f.monto)).Accept?
    ensures !SubmitDisabled(f, toNumber)
  {
  }

  /** A non-numeric input leaves the button enabled, and the handler then
      rejects it without calling `onTopup`. */
  lemma NaNEnabledButRejected(f: Form, toNumber: string -> JsNumber, throws: bool)
    requires !f.loading && f.monto != "" && toNumber(f.monto) == NaN
    ensures !SubmitDisabled(f, toNumber)
    ensures HandleTopup(f, toNumber, throws).call == None
  {
  }

  /** Every quick amount passes, the ceiling itself included; twice the
      ceiling is refused without a call. */
  lemma CeilingInclusive(monto: string)
    requires !Strings.IsBlank(monto)
    ensures forall q :: q in QuickAmounts ==> Validate(monto, Finite(q)) == Accept(q)
    ensures Validate(monto, Finite(2000000.0)) == Reject(MaxAlert)
  {
  }
}
