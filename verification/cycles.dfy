/**
 Whole purchase attempts, from the payment screen to the end of their timers,
 and concrete runs over the catalog the source ships with.
 */
module Cycles {
  import opened Wrappers
  import opened Catalog
  import opened Status
  import opened Machine
  import opened Invariants

  lemma Run1(s: State, a: Event)
    ensures Run(s, [a]) == Step(s, a)
  {
    assert [a][1..] == [];
  }

  lemma Run2(s: State, a: Event, b: Event)
    ensures Run(s, [a, b]) == Step(Step(s, a), b)
  {
    assert [a, b][1..] == [b];
    Run1(Step(s, a), b);
  }

  lemma Run3(s: State, a: Event, b: Event, c: Event)
    ensures Run(s, [a, b, c]) == Step(Step(Step(s, a), b), c)
  {
    assert [a, b, c][1..] == [b, c];
    Run2(Step(s, a), b, c);
  }

  lemma Run4(s: State, a: Event, b: Event, c: Event, d: Event)
    ensures Run(s, [a, b, c, d]) == Step(Step(Step(Step(s, a), b), c), d)
  {
    assert [a, b, c, d][1..] == [b, c, d];
    Run3(Step(s, a), b, c, d);
  }

  lemma {:induction false} RunSplit(s: State, a: seq<Event>, b: seq<Event>)
    ensures Run(s, a + b) == Run(Run(s, a), b)
    decreases |a|
  {
    if |a| > 0 {
      assert (a + b)[1..] == a[1..] + b;
      RunSplit(Step(s, a[0]), a[1..], b);
    } else {
      assert a + b == b;
    }
  }

  /** Paying by card: the outcome is drawn on the third beat and not before.
      An approved payment takes one unit of each selected product and a
      declined one takes nothing. */
  lemma CardOutcome(s: State, b1: bool, b2: bool, approved: bool)
    requires Inv(s)
    requires s.phase == Payment
    ensures Run(s, [ChooseCard, Tick(b1), Tick(b2)]).phase == CardPayment
    ensures Run(s, [ChooseCard, Tick(b1), Tick(b2)]).catalog == s.catalog
    ensures var r := Run(s, [ChooseCard, Tick(b1), Tick(b2), Tick(approved)]);
      && (approved ==> r == s.(payMethod := Some(Card), phase := PaymentSuccess, status := Success,
                               catalog := DecreaseStock(s.catalog, s.selection),
                               timer := Some(Timer(CardTimer, CardOutcomeBeat))))
      && (!approved ==> r == s.(payMethod := Some(Card), phase := CardPaymentFail, status := Fail,
                                timer := Some(Timer(CardTimer, CardOutcomeBeat))))
  {
    var s1 := Step(s, ChooseCard);
    assert s1 == s.(payMethod := Some(Card), phase := CardPayment, timer := Some(Timer(CardTimer, 0)));
    var s2 := Step(s1, Tick(b1));
    assert s2 == s1.(timer := Some(Timer(CardTimer, 1)));
    var s3 := Step(s2, Tick(b2));
    assert s3 == s1.(timer := Some(Timer(CardTimer, 2)));
    Run3(s, ChooseCard, Tick(b1), Tick(b2));
    Run4(s, ChooseCard, Tick(b1), Tick(b2), Tick(approved));
  }

  /** The beats of the card path after the outcome, one by one. */
  lemma CardReturnBeats(s: State, b4: bool, b5: bool)
    requires s.timer == Some(Timer(CardTimer, CardOutcomeBeat))
    ensures Step(Step(s, Tick(b4)), Tick(b5)) ==
      if s.status == Fail then s.(phase := Payment, status := "", timer := None)
      else s.(phase := ProductSelection, selection := [], status := "", timer := None)
  {
    var s5 := Step(s, Tick(b4));
    assert s5 == s.(timer := Some(Timer(CardTimer, 4)));
  }

  /** Two beats after the outcome the card path returns. After a decline the
      machine is back on the payment screen exactly as it was, except that the
      method is now card; after an approval it is on the selection screen with
      nothing selected and the stock taken once. */
  lemma CardCycle(s: State, b1: bool, b2: bool, approved: bool, b4: bool, b5: bool)
    requires Inv(s)
    requires s.phase == Payment
    ensures var r := Run(s, [ChooseCard, Tick(b1), Tick(b2), Tick(approved), Tick(b4), Tick(b5)]);
      && (!approved ==> r == s.(payMethod := Some(Card)))
      && (approved ==> r == s.(payMethod := Some(Card), phase := ProductSelection, selection := [],
                                catalog := DecreaseStock(s.catalog, s.selection)))
  {
    var first := [ChooseCard, Tick(b1), Tick(b2), Tick(approved)];
    CardOutcome(s, b1, b2, approved);
    var s4 := Run(s, first);
    CardReturnBeats(s4, b4, b5);
    Run2(s4, Tick(b4), Tick(b5));
    RunSplit(s, first, [Tick(b4), Tick(b5)]);
    assert first + [Tick(b4), Tick(b5)] == [ChooseCard, Tick(b1), Tick(b2), Tick(approved), Tick(b4), Tick(b5)];
  }

  /** The beats of the cash path, one by one. */
  lemma CashBeats(s: State, t1: bool, t2: bool, t3: bool)
    requires s.phase == Payment && s.payMethod == Some(Cash)
    requires s.balance >= Sum(s)
    ensures Step(Step(Step(s, ConfirmCash), Tick(t1)), Tick(t2)).phase == CashReturn
    ensures Step(Step(Step(Step(s, ConfirmCash), Tick(t1)), Tick(t2)), Tick(t3))
      == s.(catalog := DecreaseStock(s.catalog, s.selection), selection := [],
            payMethod := None, phase := ProductSelection, status := "", timer := None)
  {
    var s1 := Step(s, ConfirmCash);
    assert s1.timer == Some(Timer(CashTimer, 0));
    var s2 := Step(s1, Tick(t1));
    assert s2 == s1.(timer := Some(Timer(CashTimer, 1)));
    var s3 := Step(s2, Tick(t2));
    assert s3 == s1.(timer := Some(Timer(CashTimer, 2)));
  }

  /** A covered cash payment followed by three beats lands on the selection
      screen with nothing selected, the stock taken once, no method, and the
      balance left where it was. */
  lemma CashCycle(s: State, t1: bool, t2: bool, t3: bool)
    requires Inv(s)
    requires s.phase == Payment && s.payMethod == Some(Cash)
    requires s.balance >= Sum(s)
    ensures Run(s, [ConfirmCash, Tick(t1), Tick(t2)]).phase == CashReturn
    ensures Run(s, [ConfirmCash, Tick(t1), Tick(t2), Tick(t3)])
      == s.(catalog := DecreaseStock(s.catalog, s.selection), selection := [],
            payMethod := None, phase := ProductSelection)
  {
    CashBeats(s, t1, t2, t3);
    Run3(s, ConfirmCash, Tick(t1), Tick(t2));
    Run4(s, ConfirmCash, Tick(t1), Tick(t2), Tick(t3));
  }
}
