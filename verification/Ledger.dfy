/** Average-cost accounting of a signed position.

    One fill is applied by four cases: open from flat, add, reduce or close, flip.
    The repair script replays a trade's stored fills with this step; the manual
    position repository applies the same step to the stored position. */
module Ledger {
  import opened Sides

  /** Share counts reported by the broker are never negative. */
  type Shares = q: real | 0.0 <= q

  datatype Fill = Fill(side: Side, quantity: Shares, price: real, commission: real) {
    function Signed(): real {
      if side == Buy then quantity else 0.0 - quantity
    }
  }

  datatype Position = Position(signedQty: real, avgCost: real, realized: real)

  const FLAT := Position(0.0, 0.0, 0.0)

  function Abs(x: real): real {
    if x < 0.0 then -x else x
  }

  predicate SameDirection(held: real, d: real) {
    (held > 0.0 && d > 0.0) || (held < 0.0 && d < 0.0)
  }

  /** Profit per share closed at `price` against the carried average. */
  function GrossOnClose(held: real, avg: real, closed: real, price: real): real {
    if held > 0.0 then closed * (price - avg) else closed * (avg - price)
  }

  /** Average cost of `held` shares at `avg` joined by `added` shares at `price`. */
  function JoinedAverage(held: real, avg: real, added: real, price: real, total: real): real
    requires total != 0.0
  {
    (held * avg + added * price) / total
  }

  /** The accounting step. The average survives a reduction and an exact close;
      a flip reopens the remainder at the fill price. */
  function ApplyFill(p: Position, f: Fill): Position {
    var d := f.Signed();
    var held := Abs(p.signedQty);
    if p.signedQty == 0.0 then
      Position(d, f.price, p.realized - f.commission)
    else if SameDirection(p.signedQty, d) then
      var total := p.signedQty + d;
      Position(total, JoinedAverage(held, p.avgCost, f.quantity, f.price, Abs(total)), p.realized - f.commission)
    else
      var closed := if held < f.quantity then held else f.quantity;
      var realized := p.realized + GrossOnClose(p.signedQty, p.avgCost, closed, f.price) - f.commission;
      if held > f.quantity then Position(p.signedQty + d, p.avgCost, realized)
      else if held == f.quantity then Position(0.0, p.avgCost, realized)
      else Position(if d > 0.0 then f.quantity - held else held - f.quantity, f.price, realized)
  }

  function Fold(fills: seq<Fill>): Position {
    if fills == [] then FLAT
    else ApplyFill(Fold(fills[..|fills| - 1]), fills[|fills| - 1])
  }

  function SumSigned(fills: seq<Fill>): real {
    if fills == [] then 0.0
    else SumSigned(fills[..|fills| - 1]) + fills[|fills| - 1].Signed()
  }

  function Paid(f: Fill): real {
    f.Signed() * f.price
  }

  /** Money paid for the shares bought less money received for those sold. */
  function SumPaid(fills: seq<Fill>): real {
    if fills == [] then 0.0
    else SumPaid(fills[..|fills| - 1]) + Paid(fills[|fills| - 1])
  }

  function SumCommission(fills: seq<Fill>): real {
    if fills == [] then 0.0
    else SumCommission(fills[..|fills| - 1]) + fills[|fills| - 1].commission
  }

  /** What the books are worth when the open shares are valued at cost. */
  function BookValue(p: Position): real {
    p.realized - AtCost(p)
  }

  /** The open shares at their average cost. */
  function AtCost(p: Position): real {
    p.signedQty * p.avgCost
  }

  /** Every case of the step moves exactly the shares and the cash of the fill. */
  lemma StepMovesCash(p: Position, f: Fill)
    ensures ApplyFill(p, f).signedQty == p.signedQty + f.Signed()
    ensures BookValue(ApplyFill(p, f)) == BookValue(p) - Paid(f) - f.commission
  {
  }

  /** Shares, cash and commissions balance after any sequence of fills. */
  lemma {:induction false} CashFlowIdentity(fills: seq<Fill>)
    ensures Fold(fills).signedQty == SumSigned(fills)
    ensures BookValue(Fold(fills)) == -SumPaid(fills) - SumCommission(fills)
  {
    if fills != [] {
      hide ApplyFill, BookValue, Paid;
      var before := Fold(fills[..|fills| - 1]);
      CashFlowIdentity(fills[..|fills| - 1]);
      StepMovesCash(before, fills[|fills| - 1]);
    }
  }

  // ---- Where profit is booked ----

  /** The fill trades against the position. */
  predicate Opposes(p: Position, f: Fill) {
    (p.signedQty > 0.0 && f.side == Sell) || (p.signedQty < 0.0 && f.side == Buy)
  }

  /** Profit is booked on the shares a fill closes and nowhere else: joining a position
      averages the costs, reducing or closing one leaves its average alone, and a flip
      starts over at the fill's price. Commission always comes off. */
  ghost predicate BooksProfit(p: Position, f: Fill, after: Position) {
    if !Opposes(p, f) then
      && after.realized == p.realized - f.commission
      && after.avgCost * after.signedQty == p.avgCost * p.signedQty + f.price * f.Signed()
      && (p.signedQty == 0.0 ==> after.avgCost == f.price)
    else if f.quantity <= Abs(p.signedQty) then
      && after.avgCost == p.avgCost
      && after.realized == p.realized - f.commission - (f.price - p.avgCost) * f.Signed()
    else
      && after.avgCost == f.price
      && after.realized == p.realized - f.commission + (f.price - p.avgCost) * p.signedQty
  }

  lemma StepBooksProfit(p: Position, f: Fill)
    ensures BooksProfit(p, f, ApplyFill(p, f))
  {
    StepMovesCash(p, f);
    hide JoinedAverage, GrossOnClose;
  }

  /** No fill trades against the position built by those before it. */
  ghost predicate NeverOpposed(fills: seq<Fill>) {
    forall i :: 0 <= i < |fills| ==> !Opposes(Fold(fills[..i]), fills[i])
  }

  /** Until something is closed only commissions are booked, and the position stands at
      what was paid for it. */
  lemma NothingClosedNothingBooked(fills: seq<Fill>)
    requires NeverOpposed(fills)
    ensures Fold(fills).realized == -SumCommission(fills)
    ensures AtCost(Fold(fills)) == SumPaid(fills)
  {
    hide NeverOpposed, AtCost, Fold;
    OnlyCommissions(fills);
    CashFlowIdentity(fills);
  }

  lemma {:induction false} OnlyCommissions(fills: seq<Fill>)
    requires NeverOpposed(fills)
    ensures Fold(fills).realized == -SumCommission(fills)
  {
    hide NeverOpposed, ApplyFill, Opposes;
    if fills != [] {
      NeverOpposedBefore(fills);
      OnlyCommissions(fills[..|fills| - 1]);
      JoiningBooksNothing(Fold(fills[..|fills| - 1]), fills[|fills| - 1]);
    }
  }

  lemma NeverOpposedBefore(fills: seq<Fill>)
    requires NeverOpposed(fills) && fills != []
    ensures NeverOpposed(fills[..|fills| - 1]) && !Opposes(Fold(fills[..|fills| - 1]), fills[|fills| - 1])
  {
    hide Fold, Opposes;
    var n := |fills| - 1;
    forall i | 0 <= i < n ensures !Opposes(Fold(fills[..n][..i]), fills[..n][i]) {
      assert fills[..n][..i] == fills[..i];
    }
  }

  lemma JoiningBooksNothing(p: Position, f: Fill)
    requires !Opposes(p, f)
    ensures ApplyFill(p, f).realized == p.realized - f.commission
  {
    hide ApplyFill;
    StepBooksProfit(p, f);
  }

  predicate OneSided(fills: seq<Fill>) {
    forall i, j :: 0 <= i < j < |fills| ==> fills[i].side == fills[j].side
  }

  lemma {:induction false} OneSidedNeverOpposed(fills: seq<Fill>)
    requires OneSided(fills)
    ensures NeverOpposed(fills)
    ensures fills != [] ==> if fills[0].side == Buy then 0.0 <= Fold(fills).signedQty else Fold(fills).signedQty <= 0.0
  {
    if fills != [] {
      hide ApplyFill;
      var n := |fills| - 1;
      OneSidedNeverOpposed(fills[..n]);
      StepMovesCash(Fold(fills[..n]), fills[n]);
      forall i | 0 <= i < n ensures !Opposes(Fold(fills[..i]), fills[i]) {
        assert fills[..n][..i] == fills[..i] && fills[..n][i] == fills[i];
      }
    }
  }

  /** Shares and cash balance, and fills of one side book nothing but commissions and
      stand at what was paid. */
  ghost predicate Balances(p: Position, fills: seq<Fill>) {
    && p.signedQty == SumSigned(fills)
    && p.realized - p.signedQty * p.avgCost == -SumPaid(fills) - SumCommission(fills)
    && (OneSided(fills) ==> p.realized == -SumCommission(fills) && p.avgCost * p.signedQty == SumPaid(fills))
  }

  lemma HistoryBalances(fills: seq<Fill>)
    ensures Balances(Fold(fills), fills)
  {
    hide Fold, SumSigned, SumPaid, SumCommission, OneSided, NeverOpposed;
    CashFlowIdentity(fills);
    if OneSided(fills) {
      OneSidedNeverOpposed(fills);
      NothingClosedNothingBooked(fills);
    }
  }

  // ---- The carried average ----

  /** The fills whose cost the open position still carries: those in its own
      direction since it was last flat or flipped. */
  function Carried(fills: seq<Fill>): seq<Fill> {
    if fills == [] then []
    else
      var before, f := Fold(fills[..|fills| - 1]), fills[|fills| - 1];
      if before.signedQty == 0.0 then [f]
      else if SameDirection(before.signedQty, f.Signed()) then Carried(fills[..|fills| - 1]) + [f]
      else if Abs(before.signedQty) > f.quantity then Carried(fills[..|fills| - 1])
      else if Abs(before.signedQty) == f.quantity then []
      else [f]
  }

  lemma QuotientNotNegative(x: real, y: real)
    requires 0.0 <= x && 0.0 < y
    ensures 0.0 <= x / y
  {}

  lemma ProductNotNegative(x: real, y: real)
    requires 0.0 <= x && 0.0 <= y
    ensures 0.0 <= x * y
  {}

  lemma JoinedBetween(held: real, avg: real, added: real, price: real, lo: real, hi: real)
    requires 0.0 <= held && 0.0 <= added && 0.0 < held + added
    requires lo <= avg <= hi && lo <= price <= hi
    ensures lo <= JoinedAverage(held, avg, added, price, held + added) <= hi
  {
    var total, joined := held + added, held * avg + added * price;
    ProductNotNegative(held, avg - lo);
    ProductNotNegative(added, price - lo);
    QuotientNotNegative(joined - total * lo, total);
    ProductNotNegative(held, hi - avg);
    ProductNotNegative(added, hi - price);
    QuotientNotNegative(total * hi - joined, total);
    assert (joined - total * lo) / total == joined / total - lo;
    assert (total * hi - joined) / total == hi - joined / total;
  }

  /** A fill joining a position keeps the average within any bounds of the old average and
      the fill's price. */
  lemma AverageStaysBetween(p: Position, f: Fill, lo: real, hi: real)
    requires p.signedQty != 0.0 && !Opposes(p, f)
    requires lo <= p.avgCost <= hi && lo <= f.price <= hi
    ensures lo <= ApplyFill(p, f).avgCost <= hi
  {
    if SameDirection(p.signedQty, f.Signed()) {
      JoinedBetween(Abs(p.signedQty), p.avgCost, f.quantity, f.price, lo, hi);
    }
    hide JoinedAverage, GrossOnClose;
  }

  /** The average of an open position lies between the prices it was built at. */
  lemma {:induction false} AverageWithinCarriedPrices(fills: seq<Fill>, lo: real, hi: real)
    requires forall f :: f in Carried(fills) ==> lo <= f.price <= hi
    requires Fold(fills).signedQty != 0.0
    ensures lo <= Fold(fills).avgCost <= hi
  {
    hide JoinedAverage, GrossOnClose;
    var front, f := fills[..|fills| - 1], fills[|fills| - 1];
    var before := Fold(front);
    if before.signedQty == 0.0 {
      assert f in Carried(fills);
    } else if SameDirection(before.signedQty, f.Signed()) {
      assert forall g :: g in Carried(front) ==> g in Carried(fills);
      AverageWithinCarriedPrices(front, lo, hi);
      assert f in Carried(fills);
      AverageStaysBetween(before, f, lo, hi);
    } else if Abs(before.signedQty) > f.quantity {
      AverageWithinCarriedPrices(front, lo, hi);
    } else {
      assert f in Carried(fills);
    }
  }

  // ---- Splitting a fill ----

  function FoldFrom(p: Position, fills: seq<Fill>): Position
    decreases |fills|
  {
    if fills == [] then p else FoldFrom(ApplyFill(p, fills[0]), fills[1..])
  }

  lemma {:induction false} FoldAppend(a: seq<Fill>, b: seq<Fill>)
    ensures Fold(a + b) == FoldFrom(Fold(a), b)
    decreases |b|
  {
    if b == [] {
      assert a + b == a;
    } else {
      FoldAppend(a + [b[0]], b[1..]);
      assert a + b == (a + [b[0]]) + b[1..];
      assert (a + [b[0]])[..|a|] == a;
    }
  }

  /** `f` reported as two fills: same side and price, same totals. */
  ghost predicate IsSplit(f: Fill, first: Fill, second: Fill) {
    && first.side == second.side == f.side
    && first.price == second.price == f.price
    && 0.0 < first.quantity && 0.0 < second.quantity
    && first.quantity + second.quantity == f.quantity
    && first.commission + second.commission == f.commission
  }

  lemma AverageOfOnePrice(a: real, b: real, price: real)
    requires 0.0 < a + b
    ensures JoinedAverage(a, price, b, price, a + b) == price
  {
    assert a * price + b * price == (a + b) * price;
  }

  lemma OpenInTwo(p: Position, f: Fill, first: Fill, second: Fill)
    requires IsSplit(f, first, second) && p.signedQty == 0.0
    ensures ApplyFill(ApplyFill(p, first), second) == ApplyFill(p, f)
  {
    AverageOfOnePrice(first.quantity, second.quantity, f.price);
    hide JoinedAverage, GrossOnClose;
  }

  lemma AddInTwo(p: Position, f: Fill, first: Fill, second: Fill)
    requires IsSplit(f, first, second) && SameDirection(p.signedQty, f.Signed())
    ensures ApplyFill(ApplyFill(p, first), second) == ApplyFill(p, f)
  {}

  lemma FlipInTwo(p: Position, f: Fill, first: Fill, second: Fill)
    requires IsSplit(f, first, second) && p.signedQty != 0.0 && !SameDirection(p.signedQty, f.Signed())
    requires Abs(p.signedQty) <= first.quantity
    ensures ApplyFill(ApplyFill(p, first), second) == ApplyFill(p, f)
  {
    AverageOfOnePrice(first.quantity - Abs(p.signedQty), second.quantity, f.price);
    hide JoinedAverage, GrossOnClose;
  }

  lemma CloseInTwo(p: Position, f: Fill, first: Fill, second: Fill)
    requires IsSplit(f, first, second) && p.signedQty != 0.0 && !SameDirection(p.signedQty, f.Signed())
    requires first.quantity < Abs(p.signedQty)
    ensures ApplyFill(ApplyFill(p, first), second) == ApplyFill(p, f)
  {
    var held, mid := Abs(p.signedQty), p.signedQty + first.Signed();
    var rest := if held - first.quantity < second.quantity then held - first.quantity else second.quantity;
    GrossAdds(p.signedQty, mid, p.avgCost, first.quantity, rest, f.price);
    hide JoinedAverage, GrossOnClose;
  }

  lemma GrossAdds(held: real, left: real, avg: real, a: real, b: real, price: real)
    requires (held > 0.0) == (left > 0.0)
    ensures GrossOnClose(held, avg, a, price) + GrossOnClose(left, avg, b, price)
         == GrossOnClose(held, avg, a + b, price)
  {}

  /** Reporting a fill in two pieces changes nothing, wherever the piece boundary
      falls: inside an add, a reduction, exactly on flat, or beyond a flip. */
  lemma SplitStep(p: Position, f: Fill, first: Fill, second: Fill)
    requires IsSplit(f, first, second)
    ensures ApplyFill(ApplyFill(p, first), second) == ApplyFill(p, f)
  {
    hide ApplyFill, IsSplit, SameDirection, Abs;
    if p.signedQty == 0.0 {
      OpenInTwo(p, f, first, second);
    } else if SameDirection(p.signedQty, f.Signed()) {
      AddInTwo(p, f, first, second);
    } else if first.quantity < Abs(p.signedQty) {
      CloseInTwo(p, f, first, second);
    } else {
      FlipInTwo(p, f, first, second);
    }
  }

  /** The same anywhere inside a history of fills. */
  lemma SplittingDoesNotMatter(a: seq<Fill>, f: Fill, first: Fill, second: Fill, b: seq<Fill>)
    requires IsSplit(f, first, second)
    ensures Fold(a + [first, second] + b) == Fold(a + [f] + b)
  {
    hide ApplyFill, Fold;
    FoldAppend(a + [first, second], b);
    FoldAppend(a + [f], b);
    FoldAppend(a, [first, second]);
    FoldAppend(a, [f]);
    var p := Fold(a);
    assert [first, second][1..] == [second] && [second][1..] == [];
    assert FoldFrom(p, [first, second]) == FoldFrom(ApplyFill(p, first), [second]);
    assert FoldFrom(p, [f]) == ApplyFill(p, f);
    SplitStep(Fold(a), f, first, second);
  }

  // ---- Late commissions ----

  lemma RealizedShift(p: Position, f: Fill, shift: real, commission: real)
    ensures ApplyFill(p.(realized := p.realized + shift), f.(commission := commission))
         == ApplyFill(p, f).(realized := ApplyFill(p, f).realized + shift - (commission - f.commission))
  {
    hide GrossOnClose, JoinedAverage;
  }

  /** Booking a commission later on an already applied fill moves realized profit
      by exactly the difference and nothing else. */
  lemma {:induction false} LateCommission(fills: seq<Fill>, k: nat, commission: real)
    requires k < |fills|
    ensures Fold(fills[k := fills[k].(commission := commission)])
         == Fold(fills).(realized := Fold(fills).realized - (commission - fills[k].commission))
  {
    hide ApplyFill;
    var n := |fills| - 1;
    var changed := fills[k := fills[k].(commission := commission)];
    if k == n {
      assert changed[..n] == fills[..n];
      RealizedShift(Fold(fills[..n]), fills[n], 0.0, commission);
    } else {
      LateCommission(fills[..n], k, commission);
      assert changed[..n] == fills[..n][k := fills[k].(commission := commission)];
      RealizedShift(Fold(fills[..n]), fills[n], fills[k].commission - commission, fills[n].commission);
    }
  }

  // ---- The repair script's replay ----

  lemma FoldNothing()
    ensures Fold([]) == FLAT
  {}

  lemma FoldOne(fills: seq<Fill>, f: Fill)
    ensures Fold(fills + [f]) == ApplyFill(Fold(fills), f)
  {
    hide ApplyFill;
    assert (fills + [f])[..|fills|] == fills;
  }

  lemma FoldNext(fills: seq<Fill>, i: nat)
    requires i < |fills|
    ensures Fold(fills[..i + 1]) == ApplyFill(Fold(fills[..i]), fills[i])
  {
    hide ApplyFill;
    assert fills[..i + 1][..i] == fills[..i];
  }

  /** Rebuilds a position from the stored fills of its trade, oldest first. */
  method Replay(remaining: seq<Fill>) returns (p: Position)
    ensures p == Fold(remaining)
    ensures Balances(p, remaining)
  {
    hide Balances;
    HistoryBalances(remaining);
    assert Fold(remaining[..0]) == FLAT;
    hide Fold, JoinedAverage, GrossOnClose;
    var signedQty, avgCost, realized := 0.0, 0.0, 0.0;
    for i := 0 to |remaining|
      invariant Position(signedQty, avgCost, realized) == Fold(remaining[..i])
    {
      var f := remaining[i];
      var d := f.Signed();
      FoldNext(remaining, i);
      if signedQty == 0.0 {
        signedQty, avgCost, realized := d, f.price, realized - f.commission;
      } else if SameDirection(signedQty, d) {
        var total := signedQty + d;
        avgCost := JoinedAverage(Abs(signedQty), avgCost, f.quantity, f.price, Abs(total));
        signedQty := total;
        realized := realized - f.commission;
      } else {
        var held := Abs(signedQty);
        var closed := if held < f.quantity then held else f.quantity;
        realized := realized + GrossOnClose(signedQty, avgCost, closed, f.price) - f.commission;
        if held > f.quantity {
          signedQty := signedQty + d;
        } else if held == f.quantity {
          signedQty := 0.0;
        } else {
          signedQty := (if d > 0.0 then 1.0 else -1.0) * (f.quantity - held);
          avgCost := f.price;
        }
      }
    }
    assert remaining[..|remaining|] == remaining;
    p := Position(signedQty, avgCost, realized);
  }
}
