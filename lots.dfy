/**
  Purchase lots and their first-in, first-out consumption by a sale, the inner
  loop of the portfolio valuation in src/crud.py (`get_portfolio_performance`).
 */
module Lots {
  import opened Models
  import opened Validation

  /** A purchase still (partly) held: when it was bought, how much is left, and its cost per unit including fees. */
  datatype Lot = Lot(date: Date, quantity: real, unitCost: real)

  /** What consuming lots for one sale leaves: the lots kept, the cost of the units sold, and the part of the sale no lot covered. */
  datatype Sale = Sale(lots: seq<Lot>, costBasis: real, unsold: real)

  /** Python's `min(a, b)` on decimals. */
  function Min(a: real, b: real): (m: real)
    ensures m <= a && m <= b && (m == a || m == b)
  {
    if a <= b then a else b
  }

  /** The cost of `quantity` units at `unitCost` each. */
  function Cost(quantity: real, unitCost: real): real {
    quantity * unitCost
  }

  /** Total quantity held in `lots`. */
  function QtySum(lots: seq<Lot>): real {
    if lots == [] then 0.0 else lots[0].quantity + QtySum(lots[1..])
  }

  /** Total cost of the quantity held in `lots`. */
  function CostSum(lots: seq<Lot>): real {
    if lots == [] then 0.0 else Cost(lots[0].quantity, lots[0].unitCost) + CostSum(lots[1..])
  }

  // ---------------------------------------------------------------------------
  // Ordering by date

  predicate SortedByDate(lots: seq<Lot>) {
    forall i, j :: 0 <= i < j < |lots| ==> lots[i].date <= lots[j].date
  }

  /** Places `lot` after every lot of `sorted` dated no later than it (so equal dates keep their order). */
  function InsertByDate(sorted: seq<Lot>, lot: Lot): (r: seq<Lot>)
    ensures multiset(r) == multiset(sorted) + multiset{lot} && |r| == |sorted| + 1
  {
    if sorted == [] then [lot]
    else
      var init, last := sorted[..|sorted| - 1], sorted[|sorted| - 1];
      assert sorted == init + [last];
      if last.date <= lot.date then sorted + [lot] else InsertByDate(init, lot) + [last]
  }

  /** Inserting into date-ordered lots keeps them in date order. */
  lemma {:induction false} InsertByDateKeepsOrder(sorted: seq<Lot>, lot: Lot)
    requires SortedByDate(sorted)
    ensures SortedByDate(InsertByDate(sorted, lot))
  {
    if sorted != [] {
      var init, last := sorted[..|sorted| - 1], sorted[|sorted| - 1];
      if last.date > lot.date {
        SortedPrefix(sorted, |sorted| - 1);
        InsertByDateKeepsOrder(init, lot);
        InsertByDateBounded(init, lot, last.date);
        AppendLatest(InsertByDate(init, lot), last);
      }
    }
  }

  /** No lot dated after `bound`. */
  predicate DatedBy(lots: seq<Lot>, bound: Date) {
    forall k :: 0 <= k < |lots| ==> lots[k].date <= bound
  }

  /** Inserting a lot dated no later than `bound` into lots dated no later than `bound` adds no later date. */
  lemma {:induction false} InsertByDateBounded(lots: seq<Lot>, lot: Lot, bound: Date)
    requires DatedBy(lots, bound) && lot.date <= bound
    ensures DatedBy(InsertByDate(lots, lot), bound)
  {
    if lots != [] {
      var init, last := lots[..|lots| - 1], lots[|lots| - 1];
      if last.date > lot.date {
        InsertByDateBounded(init, lot, bound);
      }
    }
  }

  /** Appending a lot dated no earlier than every lot of date-ordered lots keeps them in date order. */
  lemma AppendLatest(lots: seq<Lot>, lot: Lot)
    requires SortedByDate(lots) && DatedBy(lots, lot.date)
    ensures SortedByDate(lots + [lot])
  {
  }

  /**
    The lots sorted by date, as Python's `list.sort(key=...)` sorts them: the
    result is ordered by date and holds the same lots. Lots that are already
    in date order come back unchanged (`SortByDateOfSorted`).
   */
  function SortByDate(lots: seq<Lot>): (r: seq<Lot>)
    ensures SortedByDate(r)
    ensures multiset(r) == multiset(lots) && |r| == |lots|
  {
    if lots == [] then []
    else
      var init, last := lots[..|lots| - 1], lots[|lots| - 1];
      assert lots == init + [last];
      InsertByDateKeepsOrder(SortByDate(init), last);
      InsertByDate(SortByDate(init), last)
  }

  /** Sorting lots that are already in date order leaves them exactly as they were. */
  lemma {:induction false} SortByDateOfSorted(lots: seq<Lot>)
    requires SortedByDate(lots)
    ensures SortByDate(lots) == lots
  {
    if lots != [] {
      var init, last := lots[..|lots| - 1], lots[|lots| - 1];
      SortedPrefix(lots, |lots| - 1);
      SortByDateOfSorted(init);
      InsertAfterLatest(init, last);
      SplitLast(lots);
    }
  }

  /** A non-empty sequence of lots is its front followed by its last lot. */
  lemma SplitLast(lots: seq<Lot>)
    requires lots != []
    ensures lots == lots[..|lots| - 1] + [lots[|lots| - 1]]
  {
  }

  /** Every prefix of date-ordered lots is in date order. */
  lemma SortedPrefix(lots: seq<Lot>, n: nat)
    requires SortedByDate(lots) && n <= |lots|
    ensures SortedByDate(lots[..n])
  {
  }

  /** A lot dated no earlier than the last of `sorted` goes at the end. */
  lemma InsertAfterLatest(sorted: seq<Lot>, lot: Lot)
    requires sorted != [] ==> sorted[|sorted| - 1].date <= lot.date
    ensures InsertByDate(sorted, lot) == sorted + [lot]
  {
  }

  // ---------------------------------------------------------------------------
  // Consuming lots for a sale

  /** The lots kept, the cost basis and the unsold part when a sale of `remaining` is met from `lots`, oldest first. */
  function ConsumeFifo(lots: seq<Lot>, remaining: real): (s: Sale)
    ensures |s.lots| <= |lots|
  {
    ConsumeFrom(lots, 0, remaining)
  }

  /**
    Walks the lots from index `i` on. While more than the tolerance is still
    to be sold, each lot gives up `min(remaining, lot quantity)` at its own
    unit cost; a lot left with more than the tolerance is kept with the
    reduced quantity, otherwise it is dropped. Once the remainder is within
    the tolerance, the lots that follow are kept as they are.
   */
  function ConsumeFrom(lots: seq<Lot>, i: nat, remaining: real): (s: Sale)
    requires i <= |lots|
    ensures |s.lots| <= |lots| - i
    decreases |lots| - i
  {
    if i == |lots| || remaining <= ZERO_TOLERANCE then Sale(lots[i..], 0.0, remaining)
    else
      var taken := Min(remaining, lots[i].quantity);
      var rest := ConsumeFrom(lots, i + 1, remaining - taken);
      Sale(Leftover(lots[i], taken) + rest.lots, Cost(taken, lots[i].unitCost) + rest.costBasis, rest.unsold)
  }

  /** What stays of `lot` once `taken` units are sold from it: nothing, if no more than the tolerance is left. */
  function Leftover(lot: Lot, taken: real): (r: seq<Lot>)
    ensures |r| <= 1
  {
    if lot.quantity > taken + ZERO_TOLERANCE then [lot.(quantity := lot.quantity - taken)] else []
  }

  /**
    The loop that rebuilds the lot list for one sale: returns the lots kept and
    the cost basis of the units sold.
   */
  method SellFromLots(lots: seq<Lot>, sellQuantity: real) returns (kept: seq<Lot>, costBasis: real)
    ensures kept == ConsumeFifo(lots, sellQuantity).lots
    ensures costBasis == ConsumeFifo(lots, sellQuantity).costBasis
  {
    var remaining := sellQuantity;
    kept, costBasis := [], 0.0;
    for i := 0 to |lots|
      invariant ConsumeOnward(lots, i, remaining, kept, costBasis) == ConsumeOnward(lots, 0, sellQuantity, [], 0.0)
    {
      var lot := lots[i];
      if remaining <= ZERO_TOLERANCE {
        kept := kept + [lot];
        continue;
      }
      var taken := Min(remaining, lot.quantity);
      costBasis := costBasis + Cost(taken, lot.unitCost);
      remaining := remaining - taken;
      if lot.quantity > taken + ZERO_TOLERANCE {
        kept := kept + [lot.(quantity := lot.quantity - taken)];
      } else {
        assert kept + Leftover(lot, taken) == kept;
      }
    }
    ConsumeOnwardIsConsumeFrom(lots, 0, sellQuantity, [], 0.0);
  }

  /**
    The state of the loop in `SellFromLots` carried to its end: from lot `i`
    on, with `remaining` still to sell, `kept` lots already rebuilt and
    `costBasis` already counted.
   */
  function ConsumeOnward(lots: seq<Lot>, i: nat, remaining: real, kept: seq<Lot>, costBasis: real): Sale
    requires i <= |lots|
    decreases |lots| - i
  {
    if i == |lots| then Sale(kept, costBasis, remaining)
    else if remaining <= ZERO_TOLERANCE then ConsumeOnward(lots, i + 1, remaining, kept + [lots[i]], costBasis)
    else
      var taken := Min(remaining, lots[i].quantity);
      ConsumeOnward(lots, i + 1, remaining - taken, kept + Leftover(lots[i], taken), costBasis + Cost(taken, lots[i].unitCost))
  }

  /** Carrying the loop to its end gives `ConsumeFrom` of the lots not yet visited, after what was already settled. */
  lemma {:induction false} ConsumeOnwardIsConsumeFrom(lots: seq<Lot>, i: nat, remaining: real, kept: seq<Lot>, costBasis: real)
    requires i <= |lots|
    ensures var rest := ConsumeFrom(lots, i, remaining);
      ConsumeOnward(lots, i, remaining, kept, costBasis) == Sale(kept + rest.lots, costBasis + rest.costBasis, rest.unsold)
    decreases |lots| - i
  {
    if i < |lots| {
      var lot := lots[i];
      if remaining <= ZERO_TOLERANCE {
        ConsumeOnwardIsConsumeFrom(lots, i + 1, remaining, kept + [lot], costBasis);
        assert lots[i..] == [lot] + lots[i + 1..];
        AppendAssoc(kept, [lot], lots[i + 1..]);
      } else {
        var taken := Min(remaining, lot.quantity);
        ConsumeOnwardIsConsumeFrom(lots, i + 1, remaining - taken, kept + Leftover(lot, taken), costBasis + Cost(taken, lot.unitCost));
        AppendAssoc(kept, Leftover(lot, taken), ConsumeFrom(lots, i + 1, remaining - taken).lots);
      }
    }
  }

  /**
    First in, first out: `kept` is made of the newest lots of `lots`, in
    order and unchanged, except that the oldest of them may have given up
    part of its quantity (same date, same unit cost, more than the tolerance
    left).
   */
  predicate KeptNewest(kept: seq<Lot>, lots: seq<Lot>) {
    |kept| <= |lots|
    && (kept != [] ==>
      var k := |lots| - |kept|;
      kept[1..] == lots[k + 1..]
      && kept[0].date == lots[k].date && kept[0].unitCost == lots[k].unitCost
      && kept[0].quantity <= lots[k].quantity
      && (kept[0] == lots[k] || kept[0].quantity > ZERO_TOLERANCE))
  }

  /**
    A sale, from any lot on, keeps only the newest lots, and a lot it stops
    inside keeps exactly its quantity less what was taken from it.
   */
  lemma ConsumeFifoKeepsSuffix(lots: seq<Lot>, i: nat, remaining: real)
    requires i <= |lots|
    ensures KeptNewest(ConsumeFrom(lots, i, remaining).lots, lots)
    ensures ReducedExactly(ConsumeFrom(lots, i, remaining).lots, lots, i, Taken(lots, i, remaining))
  {
    ConsumeFifoKeptNewest(lots, i, remaining);
    ConsumeFifoReducedLot(lots, i, remaining);
  }

  /** The shape half of `ConsumeFifoKeepsSuffix`, by induction over the lots. */
  lemma {:induction false} ConsumeFifoKeptNewest(lots: seq<Lot>, i: nat, remaining: real)
    requires i <= |lots|
    ensures KeptNewest(ConsumeFrom(lots, i, remaining).lots, lots)
    decreases |lots| - i
  {
    var s := ConsumeFrom(lots, i, remaining);
    if i == |lots| || remaining <= ZERO_TOLERANCE {
      assert s.lots == lots[i..];
      if i < |lots| {
        assert s.lots[1..] == lots[i + 1..];
      }
    } else {
      var taken := Min(remaining, lots[i].quantity);
      var rest := ConsumeFrom(lots, i + 1, remaining - taken);
      ConsumeStep(lots, i, remaining);
      if lots[i].quantity > taken + ZERO_TOLERANCE {
        assert rest.lots == lots[i + 1..];
        assert s.lots[1..] == lots[i + 1..];
      } else {
        assert s.lots == rest.lots;
        ConsumeFifoKeptNewest(lots, i + 1, remaining - taken);
      }
    }
  }

  /**
    Lots in date order, none dated after `latest`, each holding more than the
    tolerance at a unit cost that is not negative: the shape the lot list
    keeps while a validated, date-ordered history is replayed.
   */
  predicate Settled(lots: seq<Lot>, latest: Date) {
    SortedByDate(lots)
    && forall j :: 0 <= j < |lots| ==>
         lots[j].date <= latest && lots[j].quantity > ZERO_TOLERANCE && lots[j].unitCost >= 0.0
  }

  /** A purchase dated no earlier than every settled lot keeps the list settled when appended. */
  lemma SettledAppend(lots: seq<Lot>, lot: Lot)
    requires Settled(lots, lot.date)
    requires lot.quantity > ZERO_TOLERANCE && lot.unitCost >= 0.0
    ensures Settled(lots + [lot], lot.date)
  {
  }

  /** Settled up to one date is settled up to any later one. */
  lemma SettledLater(lots: seq<Lot>, latest: Date, later: Date)
    requires Settled(lots, latest) && latest <= later
    ensures Settled(lots, later)
  {
  }

  /** A settled lot list stays settled when its oldest lots give way to a partly used lot of the same date and unit cost. */
  lemma KeepNewest(lots: seq<Lot>, k: nat, head: Lot, latest: Date)
    requires Settled(lots, latest) && k < |lots|
    requires head.date == lots[k].date && head.unitCost == lots[k].unitCost
    requires head == lots[k] || head.quantity > ZERO_TOLERANCE
    ensures Settled([head] + lots[k + 1..], latest)
  {
    var r := [head] + lots[k + 1..];
    forall j | 0 < j < |r| ensures r[j] == lots[k + j] {
    }
  }

  /** Consuming lots for a sale keeps a settled lot list settled. */
  lemma ConsumeFifoKeepsSettled(lots: seq<Lot>, remaining: real, latest: Date)
    requires Settled(lots, latest)
    ensures Settled(ConsumeFifo(lots, remaining).lots, latest)
  {
    var kept := ConsumeFifo(lots, remaining).lots;
    if kept != [] {
      ConsumeFifoHead(lots, remaining);
      KeepNewest(lots, |lots| - |kept|, kept[0], latest);
    }
  }

  /**
    The lots a sale keeps: an oldest kept lot, unchanged or reduced by exactly
    what was taken from it, followed by the newest lots unchanged.
   */
  lemma ConsumeFifoHead(lots: seq<Lot>, remaining: real)
    ensures var kept := ConsumeFifo(lots, remaining).lots; var k := |lots| - |kept|;
      kept != [] ==>
        kept == [kept[0]] + lots[k + 1..]
        && kept[0].date == lots[k].date && kept[0].unitCost == lots[k].unitCost
        && (kept[0] == lots[k] || kept[0].quantity > ZERO_TOLERANCE)
        && (kept[0] == lots[k] || kept[0].quantity == lots[k].quantity - Taken(lots, 0, remaining)[k])
  {
    var kept := ConsumeFifo(lots, remaining).lots;
    if kept != [] {
      assert KeptNewest(kept, lots) && ReducedExactly(kept, lots, 0, Taken(lots, 0, remaining)) by {
        ConsumeFifoKeepsSuffix(lots, 0, remaining);
      }
      assert kept == [kept[0]] + kept[1..];
    }
  }

  /**
    Conservation of quantity for one sale: what the kept lots hold plus what
    was sold equals what the lots held before, up to one dropped remainder of
    at most the tolerance.
   */
  lemma {:induction false} ConsumeFifoConservesQuantity(lots: seq<Lot>, i: nat, remaining: real)
    requires i <= |lots|
    ensures var s := ConsumeFrom(lots, i, remaining); var sold := remaining - s.unsold;
      QtySum(s.lots) + sold <= QtySum(lots[i..]) <= QtySum(s.lots) + sold + ZERO_TOLERANCE
    decreases |lots| - i
  {
    if i < |lots| && remaining > ZERO_TOLERANCE {
      var lot := lots[i];
      var taken := Min(remaining, lot.quantity);
      var rest := ConsumeFrom(lots, i + 1, remaining - taken);
      ConsumeStep(lots, i, remaining);
      if taken == remaining {
        assert rest == Sale(lots[i + 1..], 0.0, 0.0);
        LeftoverQuantity(lot, taken, rest.lots);
      } else {
        assert Leftover(lot, taken) + rest.lots == rest.lots;
        ConsumeFifoConservesQuantity(lots, i + 1, remaining - taken);
      }
    }
  }

  /** One step of a sale: the first lot not yet visited gives up what it can, the rest of the sale goes on from the next. */
  lemma ConsumeStep(lots: seq<Lot>, i: nat, remaining: real)
    requires i < |lots| && remaining > ZERO_TOLERANCE
    ensures var taken := Min(remaining, lots[i].quantity); var rest := ConsumeFrom(lots, i + 1, remaining - taken);
      ConsumeFrom(lots, i, remaining) == Sale(Leftover(lots[i], taken) + rest.lots, Cost(taken, lots[i].unitCost) + rest.costBasis, rest.unsold)
      && QtySum(lots[i..]) == lots[i].quantity + QtySum(lots[i + 1..])
      && CostSum(lots[i..]) == Cost(lots[i].quantity, lots[i].unitCost) + CostSum(lots[i + 1..])
  {
    assert lots[i..][1..] == lots[i + 1..];
  }

  /**
    What a lot keeps after `taken` units are sold, together with what was
    taken, matches the lot's quantity up to a dropped remainder of at most the
    tolerance.
   */
  lemma LeftoverQuantity(lot: Lot, taken: real, after: seq<Lot>)
    requires taken <= lot.quantity
    ensures var kept := Leftover(lot, taken) + after;
      QtySum(kept) + taken <= lot.quantity + QtySum(after) <= QtySum(kept) + taken + ZERO_TOLERANCE
  {
    var kept := Leftover(lot, taken) + after;
    if kept != after {
      assert kept[1..] == after;
    }
  }

  /**
    A sale either ends within the tolerance of being covered or uses up every
    lot; what it leaves unsold is never negative once it was above the
    tolerance.
   */
  lemma {:induction false} ConsumeFifoSettles(lots: seq<Lot>, i: nat, remaining: real)
    requires i <= |lots|
    ensures var s := ConsumeFrom(lots, i, remaining);
      (s.unsold <= ZERO_TOLERANCE || s.lots == [])
      && (remaining > ZERO_TOLERANCE ==> s.unsold >= 0.0)
    decreases |lots| - i
  {
    if i < |lots| && remaining > ZERO_TOLERANCE {
      var taken := Min(remaining, lots[i].quantity);
      var rest := ConsumeFrom(lots, i + 1, remaining - taken);
      assert ConsumeFrom(lots, i, remaining).unsold == rest.unsold;
      if taken == remaining {
        assert rest.unsold == 0.0;
      } else {
        ConsumeFifoSettles(lots, i + 1, remaining - taken);
        assert Leftover(lots[i], taken) == [];
        assert ConsumeFrom(lots, i, remaining).lots == rest.lots;
      }
    }
  }

  /**
    Conservation of cost for one sale: when unit costs are not negative, the
    cost of the kept lots plus the cost basis of the sale never exceeds the
    cost of the lots before it.
   */
  lemma {:induction false} ConsumeFifoConservesCost(lots: seq<Lot>, i: nat, remaining: real)
    requires i <= |lots|
    requires forall j :: 0 <= j < |lots| ==> lots[j].unitCost >= 0.0
    ensures var s := ConsumeFrom(lots, i, remaining); CostSum(s.lots) + s.costBasis <= CostSum(lots[i..])
    decreases |lots| - i
  {
    if i < |lots| && remaining > ZERO_TOLERANCE {
      var lot := lots[i];
      var taken := Min(remaining, lot.quantity);
      ConsumeFifoConservesCost(lots, i + 1, remaining - taken);
      var rest := ConsumeFrom(lots, i + 1, remaining - taken);
      ConsumeStep(lots, i, remaining);
      LeftoverCost(lot, taken, rest.lots);
    }
  }

  /**
    What a lot keeps after `taken` units are sold costs, together with the
    cost of what was taken, no more than the lot did.
   */
  lemma LeftoverCost(lot: Lot, taken: real, after: seq<Lot>)
    requires taken <= lot.quantity && lot.unitCost >= 0.0
    ensures CostSum(Leftover(lot, taken) + after) + Cost(taken, lot.unitCost) <= Cost(lot.quantity, lot.unitCost) + CostSum(after)
  {
    var kept := Leftover(lot, taken) + after;
    if kept != after {
      assert kept[1..] == after;
      SplitCost(lot.quantity, taken, lot.unitCost);
    } else {
      CostMonotone(taken, lot.quantity, lot.unitCost);
    }
  }

  // ---------------------------------------------------------------------------
  // What a sale takes from each lot

  /**
    The quantity a sale of `remaining` takes from each lot from index `i` on:
    `min(remaining, lot quantity)` while more than the tolerance is still to
    be sold, nothing afterwards.
   */
  function Taken(lots: seq<Lot>, i: nat, remaining: real): (r: seq<real>)
    requires i <= |lots|
    ensures |r| == |lots| - i
    decreases |lots| - i
  {
    if i == |lots| then []
    else if remaining <= ZERO_TOLERANCE then [0.0] + Taken(lots, i + 1, remaining)
    else
      var taken := Min(remaining, lots[i].quantity);
      [taken] + Taken(lots, i + 1, remaining - taken)
  }

  /** The sum of the quantities taken. */
  function Total(taken: seq<real>): real {
    if taken == [] then 0.0 else taken[0] + Total(taken[1..])
  }

  /** The cost of the quantities taken from the lots from index `i` on, each at its own lot's unit cost. */
  function TakenCost(lots: seq<Lot>, i: nat, taken: seq<real>): real
    requires i + |taken| <= |lots|
    decreases |taken|
  {
    if taken == [] then 0.0 else Cost(taken[0], lots[i].unitCost) + TakenCost(lots, i + 1, taken[1..])
  }

  /**
    The cost basis of a sale is the sum, over the lots, of the quantity taken
    from each lot times that lot's unit cost, and the quantity sold is the sum
    of the quantities taken.
   */
  lemma {:induction false} ConsumeFifoTaken(lots: seq<Lot>, i: nat, remaining: real)
    requires i <= |lots|
    ensures var s := ConsumeFrom(lots, i, remaining); var taken := Taken(lots, i, remaining);
      s.costBasis == TakenCost(lots, i, taken) && Total(taken) == remaining - s.unsold
    decreases |lots| - i
  {
    var taken := Taken(lots, i, remaining);
    if i < |lots| {
      var first := if remaining <= ZERO_TOLERANCE then 0.0 else Min(remaining, lots[i].quantity);
      assert taken == [first] + Taken(lots, i + 1, remaining - first);
      assert taken[1..] == Taken(lots, i + 1, remaining - first);
      ConsumeFifoTaken(lots, i + 1, remaining - first);
      if remaining <= ZERO_TOLERANCE {
        TakenNothing(lots, i + 1, remaining);
      }
    }
  }

  /** Once the sale is within the tolerance, nothing more is taken. */
  lemma {:induction false} TakenNothing(lots: seq<Lot>, i: nat, remaining: real)
    requires i <= |lots| && remaining <= ZERO_TOLERANCE
    ensures forall j :: 0 <= j < |Taken(lots, i, remaining)| ==> Taken(lots, i, remaining)[j] == 0.0
    ensures TakenCost(lots, i, Taken(lots, i, remaining)) == 0.0 && Total(Taken(lots, i, remaining)) == 0.0
    decreases |lots| - i
  {
    if i < |lots| {
      TakenNothing(lots, i + 1, remaining);
      assert Taken(lots, i, remaining)[1..] == Taken(lots, i + 1, remaining);
    }
  }

  /**
    Oldest first: a lot is touched only once every older lot has been taken
    in full, and no lot gives up more than it holds.
   */
  lemma {:induction false} TakenOldestFirst(lots: seq<Lot>, i: nat, remaining: real)
    requires i <= |lots|
    ensures OldestFirst(Taken(lots, i, remaining), lots, i)
    decreases |lots| - i
  {
    if i < |lots| {
      var first := if remaining <= ZERO_TOLERANCE then 0.0 else Min(remaining, lots[i].quantity);
      var rest := Taken(lots, i + 1, remaining - first);
      assert Taken(lots, i, remaining) == [first] + rest;
      TakenOldestFirst(lots, i + 1, remaining - first);
      if first != lots[i].quantity {
        TakenNothing(lots, i + 1, remaining - first);
      }
      OldestFirstPrepend(first, rest, lots, i);
    }
  }

  /** A lot taken in full, or one after which nothing more is taken, extends an oldest-first taking. */
  lemma OldestFirstPrepend(first: real, rest: seq<real>, lots: seq<Lot>, i: nat)
    requires i < |lots| && OldestFirst(rest, lots, i + 1)
    requires first != lots[i].quantity ==> forall j :: 0 <= j < |rest| ==> rest[j] == 0.0
    requires lots[i].quantity >= 0.0 ==> 0.0 <= first <= lots[i].quantity
    ensures OldestFirst([first] + rest, lots, i)
  {
    var taken := [first] + rest;
    forall j, k | 0 <= j < k < |taken| && taken[k] != 0.0
      ensures taken[j] == lots[i + j].quantity
    {
      assert taken[k] == rest[k - 1];
      if j > 0 {
        assert taken[j] == rest[j - 1];
      }
    }
    forall j | 0 <= j < |taken| && lots[i + j].quantity >= 0.0
      ensures 0.0 <= taken[j] <= lots[i + j].quantity
    {
      if j > 0 {
        assert taken[j] == rest[j - 1];
      }
    }
  }

  /**
    Quantities taken from the lots from index `i` on, where a lot is touched
    only once every older lot was taken in full, and a lot of non-negative
    quantity gives up between nothing and all of it.
   */
  predicate OldestFirst(taken: seq<real>, lots: seq<Lot>, i: nat) {
    i + |taken| <= |lots|
    && (forall j, k :: 0 <= j < k < |taken| && taken[k] != 0.0 ==> taken[j] == lots[i + j].quantity)
    && (forall j :: 0 <= j < |taken| && lots[i + j].quantity >= 0.0 ==> 0.0 <= taken[j] <= lots[i + j].quantity)
  }

  /**
    The lot a sale stops in keeps exactly what was not taken from it, and in
    that case no remainder was dropped: the kept lots and the quantities taken
    add up to what the lots held.
   */
  predicate ReducedExactly(kept: seq<Lot>, lots: seq<Lot>, i: nat, taken: seq<real>) {
    i + |taken| == |lots| && |kept| <= |taken|
    && var k := |lots| - |kept|;
    (kept != [] && kept[0] != lots[k] ==>
      kept[0].quantity == lots[k].quantity - taken[k - i]
      && QtySum(kept) + Total(taken) == QtySum(lots[i..]))
  }

  /** A sale that stops inside a lot leaves that lot holding its quantity less what was taken from it. */
  lemma {:induction false} ConsumeFifoReducedLot(lots: seq<Lot>, i: nat, remaining: real)
    requires i <= |lots|
    ensures ReducedExactly(ConsumeFrom(lots, i, remaining).lots, lots, i, Taken(lots, i, remaining))
    decreases |lots| - i
  {
    if i == |lots| || remaining <= ZERO_TOLERANCE {
      assert ConsumeFrom(lots, i, remaining).lots == lots[i..];
    } else if remaining < lots[i].quantity {
      ReducedStopsIn(lots, i, remaining);
    } else {
      ConsumeFifoReducedLot(lots, i + 1, remaining - lots[i].quantity);
      ReducedPassesLot(lots, i, remaining);
    }
  }

  /** The sale ends inside lot `i`. */
  lemma ReducedStopsIn(lots: seq<Lot>, i: nat, remaining: real)
    requires i < |lots| && ZERO_TOLERANCE < remaining < lots[i].quantity
    ensures ReducedExactly(ConsumeFrom(lots, i, remaining).lots, lots, i, Taken(lots, i, remaining))
  {
    var restTaken := Taken(lots, i + 1, 0.0);
    assert Taken(lots, i, remaining) == [remaining] + restTaken;
    ConsumeStep(lots, i, remaining);
    assert ConsumeFrom(lots, i + 1, 0.0).lots == lots[i + 1..];
    TakenNothing(lots, i + 1, 0.0);
    ReducedAtLot(lots, i, ConsumeFrom(lots, i, remaining).lots, remaining, restTaken);
  }

  /** The sale takes lot `i` in full and goes on with the next one. */
  lemma ReducedPassesLot(lots: seq<Lot>, i: nat, remaining: real)
    requires i < |lots| && ZERO_TOLERANCE < remaining && lots[i].quantity <= remaining
    requires ReducedExactly(ConsumeFrom(lots, i + 1, remaining - lots[i].quantity).lots, lots, i + 1,
                            Taken(lots, i + 1, remaining - lots[i].quantity))
    ensures ReducedExactly(ConsumeFrom(lots, i, remaining).lots, lots, i, Taken(lots, i, remaining))
  {
    WholeLotStep(lots, i, remaining);
    ReducedPastLot(ConsumeFrom(lots, i, remaining).lots, lots, i,
                   Taken(lots, i + 1, remaining - lots[i].quantity), Taken(lots, i, remaining));
  }

  /** A sale taking lot `i` in full keeps what the rest of the sale keeps and takes that lot's quantity first. */
  lemma WholeLotStep(lots: seq<Lot>, i: nat, remaining: real)
    requires i < |lots| && ZERO_TOLERANCE < remaining && lots[i].quantity <= remaining
    ensures ConsumeFrom(lots, i, remaining).lots == ConsumeFrom(lots, i + 1, remaining - lots[i].quantity).lots
    ensures Taken(lots, i, remaining) == [lots[i].quantity] + Taken(lots, i + 1, remaining - lots[i].quantity)
  {
    assert Min(remaining, lots[i].quantity) == lots[i].quantity;
    assert Leftover(lots[i], lots[i].quantity) == [];
  }

  /** The sale stops in lot `i`: what that lot keeps is its quantity less what was taken. */
  lemma ReducedAtLot(lots: seq<Lot>, i: nat, kept: seq<Lot>, first: real, restTaken: seq<real>)
    requires i < |lots| && |restTaken| == |lots| - i - 1 && Total(restTaken) == 0.0
    requires kept == Leftover(lots[i], first) + lots[i + 1..]
    ensures ReducedExactly(kept, lots, i, [first] + restTaken)
  {
    var taken := [first] + restTaken;
    assert taken[1..] == restTaken;
    assert lots[i..][1..] == lots[i + 1..];
    if kept != lots[i + 1..] {
      assert kept[1..] == lots[i + 1..];
    }
  }

  /** Lot `i` was taken in full: the rest of the sale decides what is kept. */
  lemma ReducedPastLot(kept: seq<Lot>, lots: seq<Lot>, i: nat, restTaken: seq<real>, taken: seq<real>)
    requires i < |lots| && ReducedExactly(kept, lots, i + 1, restTaken)
    requires taken == [lots[i].quantity] + restTaken
    ensures ReducedExactly(kept, lots, i, taken)
  {
    assert taken[1..] == restTaken;
    assert lots[i..][1..] == lots[i + 1..];
  }

  /** Adding a lot at the end adds its quantity to the total. */
  lemma {:induction false} QtySumAppend(lots: seq<Lot>, lot: Lot)
    ensures QtySum(lots + [lot]) == QtySum(lots) + lot.quantity
  {
    if lots != [] {
      assert (lots + [lot])[1..] == lots[1..] + [lot];
      QtySumAppend(lots[1..], lot);
    }
  }

  /** Adding a lot at the end adds its cost to the total. */
  lemma {:induction false} CostSumAppend(lots: seq<Lot>, lot: Lot)
    ensures CostSum(lots + [lot]) == CostSum(lots) + Cost(lot.quantity, lot.unitCost)
  {
    if lots != [] {
      assert (lots + [lot])[1..] == lots[1..] + [lot];
      CostSumAppend(lots[1..], lot);
    }
  }

  /** Lots of non-negative quantity hold a non-negative total. */
  lemma {:induction false} QtySumNonNegative(lots: seq<Lot>)
    requires forall j :: 0 <= j < |lots| ==> lots[j].quantity >= 0.0
    ensures QtySum(lots) >= 0.0
  {
    if lots != [] {
      QtySumNonNegative(lots[1..]);
    }
  }

  /** Lots of non-negative quantity and unit cost cost a non-negative total. */
  lemma {:induction false} CostSumNonNegative(lots: seq<Lot>)
    requires forall j :: 0 <= j < |lots| ==> lots[j].quantity >= 0.0 && lots[j].unitCost >= 0.0
    ensures CostSum(lots) >= 0.0
  {
    if lots != [] {
      CostMonotone(0.0, lots[0].quantity, lots[0].unitCost);
      CostSumNonNegative(lots[1..]);
    }
  }

  lemma AppendAssoc<T>(a: seq<T>, b: seq<T>, c: seq<T>)
    ensures a + (b + c) == (a + b) + c
  {
  }

  lemma SplitCost(quantity: real, taken: real, unitCost: real)
    ensures Cost(quantity - taken, unitCost) + Cost(taken, unitCost) == Cost(quantity, unitCost)
  {
  }

  lemma CostMonotone(a: real, b: real, unitCost: real)
    requires a <= b && unitCost >= 0.0
    ensures Cost(a, unitCost) <= Cost(b, unitCost)
  {
  }
}
