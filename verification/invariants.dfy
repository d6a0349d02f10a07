/**
 What holds in every state the machine can reach from a well-formed catalog,
 and what each kind of event does to such a state.
 */
module Invariants {
  import opened Wrappers
  import opened Catalog
  import opened Selection
  import opened Status
  import opened Machine

  /** Which timer runs, and how far it has counted, on each screen. */
  ghost predicate TimerMatchesPhase(s: State) {
    match s.phase
    case ProductSelection => s.timer.None?
    case Payment => s.timer.None?
    case CardPayment =>
      s.timer.Some? && s.timer.value.kind == CardTimer && s.timer.value.elapsed < CardOutcomeBeat
    case PaymentSuccess =>
      s.timer.Some? && s.timer.value.kind == CardTimer
      && CardOutcomeBeat <= s.timer.value.elapsed < CardReturnBeat
    case CardPaymentFail =>
      s.timer.Some? && s.timer.value.kind == CardTimer
      && CardOutcomeBeat <= s.timer.value.elapsed < CardReturnBeat
    case CashReturn =>
      s.timer.Some? && s.timer.value.kind == CashTimer && s.timer.value.elapsed < CashReturnBeat
  }

  /** The status string on each screen. */
  ghost predicate StatusMatchesPhase(s: State) {
    match s.phase
    case PaymentSuccess => s.status == Success
    case CardPaymentFail => s.status == Fail
    case CashReturn => ParseChange(s.status).Some?
    case _ => s.status == ""
  }

  /** The invariant of reachable states. Before a purchase is committed every
      selected product has stock; afterwards its stock may have reached 0, but
      never goes below. */
  ghost predicate Inv(s: State) {
    && WellFormed(s.catalog)
    && NoDup(s.selection)
    && InCatalog(s.catalog, s.selection)
    && (s.phase != ProductSelection ==> |s.selection| > 0)
    && (s.phase !in {PaymentSuccess, CashReturn} ==> SelectedInStock(s.catalog, s.selection))
    && TimerMatchesPhase(s)
    && StatusMatchesPhase(s)
  }

  lemma InitInv(c: Listing)
    requires WellFormed(c)
    ensures Inv(Init(c))
  {
  }

  /** A purchase keeps the catalog well formed and the selection inside it. */
  lemma CommitKeepsCatalog(s: State)
    requires Inv(s)
    requires s.phase !in {PaymentSuccess, CashReturn}
    ensures WellFormed(DecreaseStock(s.catalog, s.selection))
    ensures InCatalog(DecreaseStock(s.catalog, s.selection), s.selection)
    ensures Sum(s.(catalog := DecreaseStock(s.catalog, s.selection))) == Sum(s)
  {
    var d := DecreaseStock(s.catalog, s.selection);
    DecreaseKeepsStock(s.catalog, s.selection);
    SameListingTotal(s.catalog, d, s.selection);
  }

  /** Toggling an enabled product keeps the selection duplicate-free, inside
      the catalog and in stock. */
  lemma SelectKeepsInv(s: State, n: string)
    requires Inv(s)
    requires s.phase == ProductSelection
    requires SelectEnabled(s.catalog, n)
    ensures Inv(s.(selection := SelectProduct(s.catalog, s.selection, n)))
  {
    var c := s.catalog;
    var r := SelectProduct(c, s.selection, n);
    var k := IndexOf(c, n).value;
    assert Listed(c, n);
    forall i | 0 <= i < |r|
      ensures Listed(c, r[i])
    {
      assert r[i] in r;
      if r[i] != n {
        var j :| 0 <= j < |s.selection| && s.selection[j] == r[i];
      }
    }
    forall k' | 0 <= k' < |c| && c[k'].name in r
      ensures c[k'].stock > 0
    {
      if c[k'].name == n {
        IndexOfUnique(c, n, k');
      }
    }
  }

  /** A covered cash confirmation keeps the invariant. */
  lemma ConfirmCashKeepsInv(s: State)
    requires Inv(s)
    requires s.phase == Payment && s.payMethod == Some(Cash)
    ensures Inv(Step(s, ConfirmCash))
  {
    if s.balance >= Sum(s) {
      var r := Step(s, ConfirmCash);
      assert r.catalog == DecreaseStock(s.catalog, s.selection);
      CommitKeepsCatalog(s);
      ChangeStatusRoundTrip(r.status, s.balance - Sum(s));
    }
  }

  /** A beat of either timer keeps the invariant. */
  lemma TickKeepsInv(s: State, approved: bool)
    requires Inv(s)
    ensures Inv(Step(s, Tick(approved)))
  {
    if s.phase == CardPayment {
      CommitKeepsCatalog(s);
    }
  }

  /** Every event keeps the invariant. */
  lemma StepInv(s: State, e: Event)
    requires Inv(s)
    ensures Inv(Step(s, e))
  {
    match e
    case Select(n) =>
      if s.phase == ProductSelection && SelectEnabled(s.catalog, n) {
        SelectKeepsInv(s, n);
      }
    case Pay =>
    case Back =>
    case ChooseCash =>
    case ChooseCard =>
    case InsertCash(_) =>
    case ConfirmCash =>
      if s.phase == Payment && s.payMethod == Some(Cash) {
        ConfirmCashKeepsInv(s);
      }
    case Tick(approved) =>
      TickKeepsInv(s, approved);
  }

  /** Every event sequence keeps the invariant. */
  lemma {:induction false} RunInv(s: State, es: seq<Event>)
    requires Inv(s)
    ensures Inv(Run(s, es))
    decreases |es|
  {
    if |es| > 0 {
      StepInv(s, es[0]);
      RunInv(Step(s, es[0]), es[1..]);
    }
  }

  /** In every reachable state a timer is pending exactly on the four timed
      screens, no stock is negative, and the selection has no duplicates. */
  lemma Reachable(c: Listing, es: seq<Event>)
    requires WellFormed(c)
    ensures Run(Init(c), es).timer.Some? <==> Timed(Run(Init(c), es).phase)
    ensures NonNegativeStock(Run(Init(c), es).catalog)
    ensures NoDup(Run(Init(c), es).selection)
    ensures SameListing(c, Run(Init(c), es).catalog)
  {
    InitInv(c);
    RunInv(Init(c), es);
    RunKeepsListing(Init(c), es);
  }

  /** No event sequence changes names, prices or order of the catalog. */
  lemma {:induction false} RunKeepsListing(s: State, es: seq<Event>)
    ensures SameListing(s.catalog, Run(s, es).catalog)
    decreases |es|
  {
    if |es| > 0 {
      RunKeepsListing(Step(s, es[0]), es[1..]);
    }
  }

  /** The balance never goes down over any sequence of events. */
  lemma {:induction false} BalanceNeverDecreases(s: State, es: seq<Event>)
    ensures Run(s, es).balance >= s.balance
    decreases |es|
  {
    if |es| > 0 {
      BalanceNeverDecreases(Step(s, es[0]), es[1..]);
    }
  }

  /** Only an accepted cash insertion writes the balance, and it adds exactly
      the inserted amount and changes nothing else. */
  lemma BalanceOnlyFromInsert(s: State, e: Event)
    ensures Step(s, e).balance != s.balance ==>
      && e.InsertCash?
      && s.phase == Payment
      && s.payMethod == Some(Cash)
      && Step(s, e) == s.(balance := s.balance + e.amount)
  {
  }

  /** Inserting cash: a denomination is accepted only on the payment screen in
      cash mode; without cash mode no amount has any effect. */
  lemma InsertCashStep(s: State, amount: nat)
    ensures s.phase == Payment && s.payMethod == Some(Cash) && amount in Denominations ==>
      Step(s, InsertCash(amount)) == s.(balance := s.balance + amount)
    ensures s.payMethod != Some(Cash) ==> Step(s, InsertCash(amount)) == s
  {
  }

  /** Choosing cash on the payment screen only records the method, after which
      denominations are accepted. */
  lemma ChooseCashStep(s: State, amount: nat)
    requires s.phase == Payment
    requires amount in Denominations
    ensures Step(s, ChooseCash) == s.(payMethod := Some(Cash))
    ensures Step(Step(s, ChooseCash), InsertCash(amount)).balance == s.balance + amount
  {
  }

  /** A sold-out product cannot be selected. */
  lemma SoldOutNotSelectable(s: State, k: nat)
    requires Inv(s)
    requires k < |s.catalog| && s.catalog[k].stock == 0
    ensures Step(s, Select(s.catalog[k].name)) == s
    ensures s.phase == ProductSelection ==>
      s.catalog[k].name !in Step(s, Select(s.catalog[k].name)).selection
  {
    IndexOfUnique(s.catalog, s.catalog[k].name, k);
  }

  /** On the selection screen, selecting a product in stock toggles it and
      moves the total by its price. */
  lemma SelectStep(s: State, k: nat)
    requires Inv(s)
    requires s.phase == ProductSelection
    requires k < |s.catalog| && s.catalog[k].stock > 0
    ensures var n := s.catalog[k].name;
      var r := Step(s, Select(n));
      && r == s.(selection := r.selection)
      && (n !in s.selection ==> r.selection == s.selection + [n] && Sum(r) == Sum(s) + s.catalog[k].price)
      && (n in s.selection ==> n !in r.selection && Sum(r) == Sum(s) - s.catalog[k].price)
      && (forall m :: m != n ==> (m in r.selection <==> m in s.selection))
  {
    var n := s.catalog[k].name;
    IndexOfUnique(s.catalog, n, k);
    assert Listed(s.catalog, n);
    SelectChangesTotal(s.catalog, s.selection, n);
  }

  /** Pay advances exactly when something is selected and changes nothing else;
      Back then returns to the very same state. */
  lemma PayAndBack(s: State)
    requires Inv(s)
    requires s.phase == ProductSelection
    ensures Step(s, Pay).phase == Payment <==> |s.selection| > 0
    ensures |s.selection| == 0 ==> Step(s, Pay) == s
    ensures |s.selection| > 0 ==> Step(s, Pay) == s.(phase := Payment)
    ensures Step(Step(s, Pay), Back) == s
  {
    TotalZeroIffEmpty(s.catalog, s.selection);
  }

  /** Back from the payment screen keeps selection, method and balance, and
      Pay brings the machine back to where it was. */
  lemma BackAndPay(s: State)
    requires Inv(s)
    requires s.phase == Payment
    ensures Step(s, Back) == s.(phase := ProductSelection)
    ensures Step(Step(s, Back), Pay) == s
  {
    TotalZeroIffEmpty(s.catalog, s.selection);
  }

  /** Confirming a cash payment. Too little money changes nothing; otherwise
      each selected product loses one unit, the change is recorded, the
      method is forgotten and the return timer starts. */
  lemma ConfirmCashStep(s: State)
    requires Inv(s)
    requires s.phase == Payment && s.payMethod == Some(Cash)
    ensures s.balance < Sum(s) ==> Step(s, ConfirmCash) == s
    ensures s.balance >= Sum(s) ==>
      var r := Step(s, ConfirmCash);
      && SameListing(s.catalog, r.catalog)
      && (forall k :: 0 <= k < |s.catalog| && s.catalog[k].name in s.selection ==>
            r.catalog[k].stock == s.catalog[k].stock - 1)
      && (forall k :: 0 <= k < |s.catalog| && s.catalog[k].name !in s.selection ==>
            r.catalog[k] == s.catalog[k])
      && ParseChange(r.status) == Some(s.balance - Sum(s))
      && r.payMethod.None?
      && r.phase == CashReturn
      && r.timer == Some(Timer(CashTimer, 0))
      && r.selection == s.selection
      && r.balance == s.balance
  {
    if s.balance >= Sum(s) {
      DecreaseSelectedOnce(s.catalog, s.selection);
      ChangeStatusRoundTrip(Step(s, ConfirmCash).status, s.balance - Sum(s));
    }
  }

  /** Stock changes only on the step that commits a purchase: leaving the
      payment or card-processing screen for a success screen, taking one unit
      of each selected product. */
  lemma StockChangesOnlyOnCommit(s: State, e: Event)
    requires Inv(s)
    ensures Step(s, e).catalog != s.catalog ==>
      && s.phase in {Payment, CardPayment}
      && Step(s, e).phase in {PaymentSuccess, CashReturn}
      && Step(s, e).catalog == DecreaseStock(s.catalog, s.selection)
      && Step(s, e).selection == s.selection
  {
  }

  /** The success screens commit nothing further and can only be left for the
      selection screen with the selection cleared: one purchase, one commit. */
  lemma OutcomeScreensLeaveCleared(s: State, e: Event)
    requires Inv(s)
    requires s.phase in {PaymentSuccess, CashReturn}
    ensures Step(s, e).catalog == s.catalog
    ensures Step(s, e).phase != s.phase ==>
      && Step(s, e).phase == ProductSelection
      && Step(s, e).selection == []
      && Step(s, e).status == ""
      && Step(s, e).timer.None?
  {
  }

  /** What each screen shows. */
  lemma DisplayedMessage(s: State)
    requires Inv(s)
    ensures s.phase == CardPayment ==> Displayed(s) == Some(InProgressMessage)
    ensures s.phase == PaymentSuccess ==> Displayed(s) == Some(SuccessMessage)
    ensures s.phase == CardPaymentFail ==> Displayed(s) == Some(FailMessage)
    ensures s.phase == CashReturn ==>
      Displayed(s) == Some(s.status) && s.status == ChangeStatus(ParseChange(s.status).value)
    ensures !Timed(s.phase) ==> Displayed(s).None?
  {
    if s.phase == CashReturn {
      var change := ParseChange(s.status).value;
      ChangeStatusRoundTrip(s.status, change);
      ChangeNoticeShown(change);
    }
    if s.phase == CardPayment {
      assert !Contains("", Collect);
    }
  }
}
