/**
 Concrete runs over the catalog the source ships with: cola (1100 won, two in
 stock), water (600 won, one in stock) and coffee (700 won, sold out).
 */
module Scenarios {
  import opened Wrappers
  import opened Catalog
  import opened Selection
  import opened Status
  import opened Machine
  import opened Invariants
  import opened Cycles

  const Cola := "콜라"
  const Water := "물"
  const Coffee := "커피"

  const Shipped: Listing := [
    Product(Cola, 1100, 2),
    Product(Water, 600, 1),
    Product(Coffee, 700, 0)]

  lemma ShippedWellFormed()
    ensures WellFormed(Shipped)
  {
  }

  lemma TotalOfTwo(c: Listing, a: string, b: string)
    ensures Total(c, [a]) == PriceOf(c, a)
    ensures Total(c, [a, b]) == PriceOf(c, a) + PriceOf(c, b)
  {
    assert [a][1..] == [];
    assert [a, b][1..] == [b];
    assert [b][1..] == [];
  }

  /** Select cola, pay, choose cash and insert 1000 + 100 won. */
  const BuyColaInCash: seq<Event> := [Select(Cola), Pay, ChooseCash, InsertCash(1000), InsertCash(100)]

  lemma ColaPaidInCash()
    ensures Run(Init(Shipped), BuyColaInCash)
      == Init(Shipped).(selection := [Cola], phase := Payment, payMethod := Some(Cash), balance := 1100)
    ensures Sum(Run(Init(Shipped), BuyColaInCash)) == 1100
  {
    var s0 := Init(Shipped);
    var s1 := Step(s0, Select(Cola));
    assert IndexOf(Shipped, Cola) == Some(0);
    assert s1 == s0.(selection := [Cola]);
    TotalOfTwo(s1.catalog, Cola, Cola);
    assert Sum(s1) == 1100;
    var s2 := Step(s1, Pay);
    assert s2 == s1.(phase := Payment);
    var s3 := Step(s2, ChooseCash);
    var s4 := Step(s3, InsertCash(1000));
    assert s4 == s2.(payMethod := Some(Cash), balance := 1000);
    Run4(s0, Select(Cola), Pay, ChooseCash, InsertCash(1000));
    RunSplit(s0, BuyColaInCash[..4], [InsertCash(100)]);
    assert BuyColaInCash[..4] == [Select(Cola), Pay, ChooseCash, InsertCash(1000)];
    assert BuyColaInCash[..4] + [InsertCash(100)] == BuyColaInCash;
    Run1(s4, InsertCash(100));
    assert Step(s4, InsertCash(100)) == s4.(balance := 1100);
    TotalOfTwo(Shipped, Cola, Cola);
  }

  /** Paying 1100 won for a cola: no change due, one cola left, and back on
      the selection screen after three beats. */
  lemma CashScenario()
    ensures var s := Run(Init(Shipped), BuyColaInCash);
      && Step(s, ConfirmCash).status == ChangeStatus(0)
      && Run(s, [ConfirmCash, Tick(true), Tick(true), Tick(true)]).catalog
         == [Product(Cola, 1100, 1), Product(Water, 600, 1), Product(Coffee, 700, 0)]
      && Run(s, [ConfirmCash, Tick(true), Tick(true), Tick(true)]).phase == ProductSelection
  {
    ColaPaidInCash();
    var s := Run(Init(Shipped), BuyColaInCash);
    ShippedWellFormed();
    InitInv(Shipped);
    RunInv(Init(Shipped), BuyColaInCash);
    CashCycle(s, true, true, true);
    DecreaseSelectedOnce(Shipped, [Cola]);
  }

  /** The shipped catalog after one cola is sold. */
  const OneColaSold: Listing := [
    Product(Cola, 1100, 1),
    Product(Water, 600, 1),
    Product(Coffee, 700, 0)]

  /** After the cash purchase of a cola the machine is back at the start, one
      cola short, with the 1100 won still counted as inserted. */
  lemma AfterFirstCola()
    ensures Run(Init(Shipped), BuyColaInCash + [ConfirmCash, Tick(true), Tick(true), Tick(true)])
      == Init(OneColaSold).(balance := 1100)
  {
    ColaPaidInCash();
    CashScenario();
    var s0 := Run(Init(Shipped), BuyColaInCash);
    RunSplit(Init(Shipped), BuyColaInCash, [ConfirmCash, Tick(true), Tick(true), Tick(true)]);
    ShippedWellFormed();
    InitInv(Shipped);
    RunInv(Init(Shipped), BuyColaInCash);
    CashCycle(s0, true, true, true);
  }

  /** From there, selecting cola, paying, choosing cash and confirming is
      accepted with no new insertion and sells the last cola. */
  lemma SecondColaFromBalance()
    ensures var t := Run(Init(OneColaSold).(balance := 1100), [Select(Cola), Pay, ChooseCash, ConfirmCash]);
      && t.phase == CashReturn
      && t.balance == 1100
      && |t.catalog| == 3 && t.catalog[0].stock == 0
  {
    var s := Init(OneColaSold).(balance := 1100);
    var s1 := Step(s, Select(Cola));
    assert IndexOf(OneColaSold, Cola) == Some(0);
    assert s1 == s.(selection := [Cola]);
    TotalOfTwo(OneColaSold, Cola, Cola);
    assert Sum(s1) == 1100;
    var s2 := Step(s1, Pay);
    var s3 := Step(s2, ChooseCash);
    assert s3 == s1.(phase := Payment, payMethod := Some(Cash));
    DecreaseSelectedOnce(OneColaSold, [Cola]);
    Run4(s, Select(Cola), Pay, ChooseCash, ConfirmCash);
  }

  /** The inserted money is never handed back: after the cash purchase the
      same balance buys the second cola with no new insertion. */
  lemma BalanceReusedScenario()
    ensures var s := Run(Init(Shipped), BuyColaInCash + [ConfirmCash, Tick(true), Tick(true), Tick(true)]);
      var t := Run(s, [Select(Cola), Pay, ChooseCash, ConfirmCash]);
      && s.balance == 1100
      && t.phase == CashReturn
      && t.balance == 1100
      && |t.catalog| == 3 && t.catalog[0].stock == 0
  {
    AfterFirstCola();
    SecondColaFromBalance();
  }

  /** Coffee is sold out: its button does nothing. */
  lemma SoldOutScenario()
    ensures Run(Init(Shipped), [Select(Coffee)]) == Init(Shipped)
  {
    ShippedWellFormed();
    IndexOfUnique(Shipped, Coffee, 2);
    Run1(Init(Shipped), Select(Coffee));
  }

  /** Paying for cola and water by card with a declined outcome: back on the
      payment screen two beats later with stock and selection untouched. */
  lemma CardDeclinedScenario()
    ensures var s := Run(Init(Shipped), [Select(Cola), Select(Water), Pay]);
      && s == Init(Shipped).(selection := [Cola, Water], phase := Payment)
      && Sum(s) == 1700
      && Run(s, [ChooseCard, Tick(true), Tick(true), Tick(false), Tick(true), Tick(true)])
         == s.(payMethod := Some(Card))
  {
    var s0 := Init(Shipped);
    assert IndexOf(Shipped, Cola) == Some(0);
    ShippedWellFormed();
    IndexOfUnique(Shipped, Water, 1);
    var s1 := Step(s0, Select(Cola));
    assert s1 == s0.(selection := [Cola]);
    var s2 := Step(s1, Select(Water));
    assert s2 == s0.(selection := [Cola, Water]);
    TotalOfTwo(Shipped, Cola, Water);
    assert Sum(s2) == 1700;
    Run3(s0, Select(Cola), Select(Water), Pay);
    ShippedWellFormed();
    InitInv(Shipped);
    RunInv(s0, [Select(Cola), Select(Water), Pay]);
    CardCycle(Step(s2, Pay), true, true, false, true, true);
  }
}
