/**
 The purchase state machine of the `VendingMachine` component
 (src/components/VendingMachine.tsx) as a pure step function.

 Each user gesture and each beat of the one-second interval timer is an
 `Event`. A gesture is only possible while the current view renders its
 button; any other gesture leaves the state as it is. `Tick` replaces the
 `setInterval` callback and carries the outcome the source draws with
 `Math.random() > 0.5` on the card path.
 */
module Machine {
  import opened Wrappers
  import opened Catalog
  import opened Selection
  import opened Status

  /** `viewPhaseEnum`. */
  datatype Phase =
    | ProductSelection
    | Payment
    | CardPayment
    | CardPaymentFail
    | PaymentSuccess
    | CashReturn

  /** `PaymentMethod`; `undefined` is `None`. */
  datatype PayMethod = Cash | Card

  /** Which `setInterval` callback is running. */
  datatype TimerKind = CardTimer | CashTimer

  /** A running interval and the number of one-second beats it has counted. */
  datatype Timer = Timer(kind: TimerKind, elapsed: nat)

  datatype State = State(
    catalog: Listing,
    selection: seq<string>,
    payMethod: Option<PayMethod>,
    balance: nat,
    phase: Phase,
    status: string,
    timer: Option<Timer>)

  datatype Event =
    | Select(name: string)
    | Pay
    | Back
    | ChooseCash
    | ChooseCard
    | InsertCash(amount: nat)
    | ConfirmCash
    | Tick(cardApproved: bool)

  /** The amounts the cash view offers buttons for. */
  const Denominations: set<nat> := {100, 500, 1000, 5000, 10000}

  /** Beat of the card timer at which the outcome is drawn. */
  const CardOutcomeBeat := 3
  /** Beat of the card timer at which the outcome screen closes. */
  const CardReturnBeat := 5
  /** Beat of the cash timer at which the change screen closes. */
  const CashReturnBeat := 3

  /** The machine as the component mounts: nothing selected, no method,
      no money, product selection on screen. */
  function Init(c: Listing): State {
    State(c, [], None, 0, ProductSelection, "", None)
  }

  function Sum(s: State): int {
    Total(s.catalog, s.selection)
  }

  /** `insertCash`: only adds money while paying in cash. */
  function InsertCashHandler(s: State, amount: nat): State {
    if s.payMethod == Some(Cash) then s.(balance := s.balance + amount) else s
  }

  /** `handleCashPayment`: rejected (an alert) when the money does not cover
      the sum; otherwise the stock is taken, the change notice is written,
      the method is forgotten and the three-beat return timer starts. */
  function HandleCashPayment(s: State): State {
    if s.balance < Sum(s) then s
    else
      s.(catalog := DecreaseStock(s.catalog, s.selection),
         status := ChangeStatus(s.balance - Sum(s)),
         payMethod := None,
         phase := CashReturn,
         timer := Some(Timer(CashTimer, 0)))
  }

  /** `handleCardPayment`: records the method and starts the card timer. */
  function HandleCardPayment(s: State): State {
    s.(payMethod := Some(Card), phase := CardPayment, timer := Some(Timer(CardTimer, 0)))
  }

  /** One beat of the card timer that had counted `elapsed` beats. */
  function CardBeat(s: State, elapsed: nat, approved: bool): State {
    var beat := elapsed + 1;
    if beat == CardOutcomeBeat then
      if approved then
        s.(phase := PaymentSuccess,
           catalog := DecreaseStock(s.catalog, s.selection),
           status := Success,
           timer := Some(Timer(CardTimer, beat)))
      else
        s.(phase := CardPaymentFail, status := Fail, timer := Some(Timer(CardTimer, beat)))
    else if beat == CardReturnBeat then
      var back :=
        if s.status == Fail then s.(phase := Payment)
        else s.(phase := ProductSelection, selection := []);
      back.(timer := None, status := "")
    else
      s.(timer := Some(Timer(CardTimer, beat)))
  }

  /** One beat of the cash timer that had counted `elapsed` beats. */
  function CashBeat(s: State, elapsed: nat): State {
    var beat := elapsed + 1;
    if beat == CashReturnBeat then
      s.(phase := ProductSelection, selection := [], timer := None, status := "")
    else
      s.(timer := Some(Timer(CashTimer, beat)))
  }

  /** The product button for `n` is rendered and enabled. */
  predicate SelectEnabled(c: Listing, n: string) {
    match IndexOf(c, n)
    case Some(k) => c[k].stock != 0
    case None => false
  }

  /** The machine's reaction to one event. Balance is only ever added to, and
      the listing of the catalog (names, prices, order) never changes. */
  function Step(s: State, e: Event): (r: State)
    ensures r.balance >= s.balance
    ensures SameListing(s.catalog, r.catalog)
  {
    match e
    case Select(n) =>
      if s.phase == ProductSelection && SelectEnabled(s.catalog, n)
      then s.(selection := SelectProduct(s.catalog, s.selection, n))
      else s
    case Pay =>
      if s.phase == ProductSelection && Sum(s) != 0 then s.(phase := Payment) else s
    case Back =>
      if s.phase == Payment then s.(phase := ProductSelection) else s
    case ChooseCash =>
      if s.phase == Payment && s.payMethod != Some(Cash) then s.(payMethod := Some(Cash)) else s
    case ChooseCard =>
      if s.phase == Payment then HandleCardPayment(s) else s
    case InsertCash(amount) =>
      if s.phase == Payment && s.payMethod == Some(Cash) && amount in Denominations
      then InsertCashHandler(s, amount)
      else s
    case ConfirmCash =>
      if s.phase == Payment && s.payMethod == Some(Cash) then HandleCashPayment(s) else s
    case Tick(approved) =>
      match s.timer
      case None => s
      case Some(Timer(CardTimer, elapsed)) => CardBeat(s, elapsed, approved)
      case Some(Timer(CashTimer, elapsed)) => CashBeat(s, elapsed)
  }

  /** The state after a sequence of events. */
  function Run(s: State, es: seq<Event>): State
    decreases |es|
  {
    if |es| == 0 then s else Run(Step(s, es[0]), es[1..])
  }

  /** The screens during which an interval timer runs. */
  predicate Timed(p: Phase) {
    p in {CardPayment, PaymentSuccess, CardPaymentFail, CashReturn}
  }

  /** The message the outcome screens show; the other two screens show none. */
  function Displayed(s: State): Option<string> {
    if Timed(s.phase)
    then Some(Message(s.status))
    else None
  }
}
