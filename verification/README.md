# Vending machine purchase state machine

A Dafny model of the `VendingMachine` React component of a simulated vending
machine. The user picks drinks, pays in cash or by card, and the screen returns
to product selection by itself. The component's logic is a small state machine:
- a catalog of products with name, price and stock;
- a selection of products toggled by name;
- the running total of the selection;
- a payment method and an inserted cash balance;
- a status string;
- six view phases moved by button presses and by one-second interval timers.

The model is a pure function `Machine.Step(state, event)`:

- `Wrappers`: `Option`.
- `Catalog`: `Product` and the catalog. It has lookup by name (`IndexOf`, the
  source's `Array.find`) and the stock decrement of a purchase
  (`DecreaseStock`, the source's `decreaseProductStock`).
- `Selection`: the selection as a list of names. It has the toggle
  (`SelectProduct`), the filter (`Remove`) and the total (`Total`,
  `SumSelected`).
- `Status`: the status strings and `Message`, the switch that picks the message
  for a status. The cash path writes the change as
  `${balance - sum}원 회수하세요` ("… won, please collect"). This is modelled as
  the decimal digits of the amount (`NatToDecimal`) followed by a fixed suffix.
  `ParseChange` is its inverse.
- `Machine`: the state, the events, the source's handlers and `Step`. `Run`
  folds `Step` over a list of events.
- `Invariants`: the invariant of reachable states and what each event does.
- `Cycles`: whole purchase attempts (card approved, card declined, cash).
- `Scenarios`: concrete runs over the three drinks the source ships with.

Modelling decisions:
- The catalog is a parameter. `WellFormed` requires unique names, positive
  prices and non-negative stock.
- An event is accepted only while the current view renders its button.
  Otherwise it leaves the state as it is:
  - product buttons and Pay appear on the product selection screen;
  - Cash, Card and Back appear on the payment screen;
  - the Cash button is hidden while the method is already cash;
  - the five denomination buttons and the confirm button appear only in cash mode;
  - a product button is disabled while that product's stock is 0.
- `alert` rejections are modelled as "state unchanged".
- `setInterval` becomes a pending `Timer` (kind, beats counted) advanced by a
  `Tick` event. `Math.random() > 0.5` becomes the `cardApproved` flag carried by
  `Tick`; only the third beat of the card timer reads it.
- The source's `find` callback in `decreaseProductStock` never returns true. So
  every product carrying a selected name loses a unit, one search pass per
  selected entry. With unique names and a duplicate-free selection this is
  exactly one unit per selected product (`Selection.DecreaseSelectedOnce`).

The model keeps these behaviours of the code, which a real machine would not have:
- The inserted balance is never reset or reduced. After a cash purchase the same
  money pays again (`Scenarios.BalanceReusedScenario`).
- Back keeps the selection and the method.
- The card path leaves the method set to card, also after a decline.
- The selection handler itself does not look at stock. Only the disabled
  button does.
- After the card outcome, the return branch tests whether the status is
  `"fail"`. It does not test the outcome itself.

## Model

| member | source | states |
|---|---|---|
| `Catalog.IndexOf` | src/components/VendingMachine.tsx:127 | the position found is that of the first product with the name; there is none exactly when no product has the name |
| `Catalog.DecreaseNamed` | src/components/VendingMachine.tsx:58-62 | one search pass of the decrement takes one unit from every product named n and leaves every other product's stock, and all names, prices and the order, unchanged |
| `Catalog.DecreaseStock` | src/components/VendingMachine.tsx:56-63 | every product loses as many units as the selection names it; names, prices and order are unchanged |
| `Selection.Remove` | src/components/VendingMachine.tsx:132-134 | the filter keeps exactly the entries other than the name, is the identity when the name is absent, and keeps a selection duplicate-free |
| `Selection.SelectProduct` | src/components/VendingMachine.tsx:126-137 | an unknown name changes nothing; for a known name the selection afterwards holds exactly the names it held before with that one name flipped; no duplicates are introduced |
| `Selection.SumSelected` | src/components/VendingMachine.tsx:52-55 | the left-to-right reduce from 0 yields the sum of the selected products' prices |
| `Selection.TotalZeroIffEmpty` | src/components/VendingMachine.tsx:52-55 | with positive prices the total of catalog products is non-negative and is 0 exactly for the empty selection |
| `Selection.SelectChangesTotal` | src/components/VendingMachine.tsx:126-137 | selecting an unselected product adds its price to the total; deselecting a selected one subtracts it |
| `Selection.SelectTwiceRestores` | src/components/VendingMachine.tsx:126-137 | selecting a product that was not selected and then selecting it again gives back the original selection |
| `Selection.DecreaseSelectedOnce` | src/components/VendingMachine.tsx:56-63 | for a duplicate-free selection each selected product's stock drops by exactly 1 and every other product is unchanged |
| `Selection.DecreaseKeepsStock` | src/components/VendingMachine.tsx:56-63 | if every selected product had stock, no stock is negative after the decrement |
| `Status.NatToDecimal` | src/components/VendingMachine.tsx:102 | the amount is written as canonical decimal digits whose value is the amount |
| `Status.CanonicalDecimalRoundTrip` | src/components/VendingMachine.tsx:102 | every canonical digit string is the rendering of its own value |
| `Status.ChangeStatusRoundTrip` | src/components/VendingMachine.tsx:102 | a status reads back as change amount c exactly when it is the change notice for c |
| `Status.Message` | src/components/VendingMachine.tsx:201-217 | "success" is shown as 결제 성공 and "fail" as 결제 실패; any other status containing 회수 is shown as it is; everything else is shown as 결제 진행 중 |
| `Status.ContainsInfix` | src/components/VendingMachine.tsx:211 | a status in which the pattern occurs anywhere passes the `includes` test |
| `Status.ContainsFindsInfix` | src/components/VendingMachine.tsx:211 | when the `includes` test answers true, the pattern occurs in the status at the returned position (the converse of `Status.ContainsInfix`) |
| `Status.ChangeNoticeShown` | src/components/VendingMachine.tsx:210-214 | every change notice is displayed verbatim and differs from the in-progress message |
| `Machine.Step` | src/components/VendingMachine.tsx:56-125 | no event lowers the balance, and no event changes names, prices or order of the catalog |
| `Invariants.InitInv` | src/components/VendingMachine.tsx:42-50 | the initial state satisfies the invariant of reachable states |
| `Invariants.StepInv` | src/components/VendingMachine.tsx:65-137 | every event keeps the invariant: catalog well formed, selection duplicate-free and in the catalog, timer and status matching the phase, and selected products in stock until a purchase is committed |
| `Invariants.RunInv` | src/components/VendingMachine.tsx:65-137 | every sequence of events keeps the invariant |
| `Invariants.Reachable` | src/components/VendingMachine.tsx:65-114 | in every state reachable from a well-formed catalog: a timer is pending iff the phase is card payment, payment success, card failure or cash return; no stock is negative; the selection has no duplicates; names and prices are the initial ones |
| `Invariants.RunKeepsListing` | src/components/VendingMachine.tsx:56-63 | no event sequence changes the names, prices or order of the catalog |
| `Invariants.BalanceNeverDecreases` | src/components/VendingMachine.tsx:121-125 | over any event sequence the balance never goes down |
| `Invariants.BalanceOnlyFromInsert` | src/components/VendingMachine.tsx:121-125 | a step that changes the balance is an accepted cash insertion in cash mode on the payment screen; it adds exactly the amount and changes nothing else |
| `Invariants.InsertCashStep` | src/components/VendingMachine.tsx:121-125 | on the payment screen in cash mode a denomination is added to the balance and nothing else changes; without cash mode no amount changes anything |
| `Invariants.ChooseCashStep` | src/components/VendingMachine.tsx:118-120 | choosing cash on the payment screen changes only the method, after which an inserted denomination is added to the balance |
| `Invariants.SoldOutNotSelectable` | src/components/ProductSelection.tsx:45 | pressing a sold-out product changes nothing, and on the selection screen that product is not selected afterwards |
| `Invariants.SelectStep` | src/components/VendingMachine.tsx:126-137 | on the selection screen a product in stock is appended if unselected and removed if selected; the total moves by its price; no other name and no other field changes |
| `Invariants.PayAndBack` | src/components/VendingMachine.tsx:153-158 | Pay moves to the payment screen iff something is selected; otherwise the state is unchanged; nothing but the phase changes; Back then restores the state exactly |
| `Invariants.BackAndPay` | src/components/VendingMachine.tsx:175-178 | Back from the payment screen changes only the phase, keeping selection, method and balance; Pay then restores the state exactly |
| `Invariants.ConfirmCashStep` | src/components/VendingMachine.tsx:97-104 | with balance below the total nothing changes; otherwise each selected product loses one unit and other products are unchanged; the status reads back as change = balance − total; the method is cleared; the phase is cash return with a fresh cash timer; selection and balance are kept |
| `Invariants.StockChangesOnlyOnCommit` | src/components/VendingMachine.tsx:65-104 | stock changes only on a step from payment or card processing into payment success or cash return, and that step takes one decrement of the selection |
| `Invariants.OutcomeScreensLeaveCleared` | src/components/VendingMachine.tsx:83-114 | the payment success and cash return screens change no stock and can only be left for product selection with an empty selection, empty status and no timer |
| `Invariants.DisplayedMessage` | src/components/VendingMachine.tsx:224-236 | in reachable states card processing shows 결제 진행 중, success 결제 성공, failure 결제 실패, and cash return shows its change notice; the two button screens show no message |
| `Cycles.CardOutcome` | src/components/VendingMachine.tsx:65-82 | after choosing card, two beats leave the machine processing with stock unchanged; the third beat approves (payment success, status "success", one decrement) or declines (card failure, status "fail", stock unchanged) |
| `Cycles.CardReturnBeats` | src/components/VendingMachine.tsx:83-93 | two beats after the outcome the timer is cleared and the status emptied; a "fail" status returns to payment keeping the selection, any other returns to product selection with an empty selection |
| `Cycles.CardCycle` | src/components/VendingMachine.tsx:65-95 | a declined card attempt ends in exactly the starting state with method card; an approved one ends on product selection with empty selection, one decrement and method card |
| `Cycles.CashBeats` | src/components/VendingMachine.tsx:97-114 | after a covered confirm, two beats stay on cash return and the third returns to product selection with empty selection, empty status and no timer |
| `Cycles.CashCycle` | src/components/VendingMachine.tsx:97-114 | a covered cash attempt ends on product selection with empty selection, one decrement, no method and the balance unchanged |
| `Scenarios.ShippedWellFormed` | src/components/VendingMachine.tsx:20-39 | the shipped catalog has unique names, positive prices and non-negative stock |
| `Scenarios.ColaPaidInCash` | src/components/VendingMachine.tsx:121-157 | selecting cola, paying, choosing cash and inserting 1000 and 100 gives the payment screen with balance 1100 and total 1100 |
| `Scenarios.CashScenario` | src/components/VendingMachine.tsx:97-114 | paying 1100 for a cola records change 0, leaves one cola, and returns to product selection after three beats |
| `Scenarios.AfterFirstCola` | src/components/VendingMachine.tsx:97-125 | after the cash purchase of a cola the machine is in its initial state except for one cola less and a balance of 1100 |
| `Scenarios.SecondColaFromBalance` | src/components/VendingMachine.tsx:97-125 | from that state, selecting cola, paying, choosing cash and confirming is accepted without new money and sells the last cola |
| `Scenarios.BalanceReusedScenario` | src/components/VendingMachine.tsx:97-125 | after that purchase the balance is still 1100 and buys the second cola without any new insertion |
| `Scenarios.SoldOutScenario` | src/components/ProductSelection.tsx:45 | pressing the sold-out coffee leaves the initial state unchanged |
| `Scenarios.CardDeclinedScenario` | src/components/VendingMachine.tsx:65-95 | cola and water total 1700; a declined card payment returns to the payment screen with selection and stock untouched |

## Left out

- Rendering, styling, image paths and `console.log`: presentation only.
  `ProductSelection.tsx` contributes only its disabled guard, which `Step`
  applies to `Select`.
- Wall-clock timing: the interval is a count of `Tick` events, one per second.
- `Math.random()`: the outcome is the `cardApproved` flag of `Tick`; the 50/50
  distribution is not modelled.
- React hook semantics (batched state updates, stale closures): each event sees
  the fully applied result of the previous one. `Invariants.DisplayedMessage`
  therefore assumes the phase change and the later status write of one timer
  beat are rendered together. React 18's automatic batching does this. Under
  legacy rendering the outcome screen would first render with the old status
  and show the in-progress message.
- JavaScript number arithmetic: prices, stock and balance are unbounded
  integers. Floating-point rounding above 2^53 is not modelled. Neither is the
  exponent notation the template would print for change of 10^21 or more.
- `Status.NatToDecimal`: writes plain digits for every amount, including amounts
  of 10^21 won or more that JavaScript would print in exponent notation.
- Negative or non-denomination cash amounts: the view offers only 100, 500,
  1000, 5000 and 10000, and the model accepts only those.
