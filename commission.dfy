/**
 * The importer commission quote: a USD amount and the USD→RUB rate give a
 * commission percentage and the message the bot shows for it.
 */
module Commission {
  import opened Wrappers
  import opened PyText

  /** `(commission_percent, message)`; a `None` percent means the amount is
      below the accepted minimum. */
  datatype Quote = Quote(percent: Option<real>, message: string)

  const BelowMinimumMessage: string := "The minimum transfer amount is 5000 USD."
  const FiveWithFloorMessage: string := "5% commission (minimum 100,000 RUB)"
  const FloorRub: real := 100000.0

  function CalculateCommission(amountUsd: real, usdRate: real): Quote {
    if amountUsd < 5000.0 then Quote(None, BelowMinimumMessage)
    else if amountUsd < 50000.0 then
      var commissionPercent := 5.0;
      var commissionRub := amountUsd * usdRate * (commissionPercent / 100.0);
      Quote(Some(commissionPercent),
            if commissionRub < FloorRub then FiveWithFloorMessage else "5% commission")
    else if 50000.0 <= amountUsd < 100000.0 then Quote(Some(3.5), "3.5% commission")
    else if 100000.0 <= amountUsd < 500000.0 then Quote(Some(3.0), "3% commission")
    else Quote(Some(2.5), "2.5% commission")
  }

  // ---------------------------------------------------------------------
  // An independent reference: the bracket table
  // ---------------------------------------------------------------------

  /** A bracket starts at `from` (inclusive) and runs up to the next one. */
  datatype Bracket = Bracket(from: real, percent: real)

  const Brackets: seq<Bracket> :=
    [Bracket(5000.0, 5.0), Bracket(50000.0, 3.5), Bracket(100000.0, 3.0), Bracket(500000.0, 2.5)]

  /** The table's lower bounds strictly increase, so the brackets are
      contiguous and never overlap. */
  predicate Ordered(table: seq<Bracket>) {
    forall i, j :: 0 <= i < j < |table| ==> table[i].from < table[j].from
  }

  /** The percent of the last bracket whose lower bound the amount reaches;
      `None` below the first bracket. */
  function TablePercent(table: seq<Bracket>, amount: real): Option<real>
    decreases |table|
  {
    if table == [] then None
    else if amount >= table[|table| - 1].from then Some(table[|table| - 1].percent)
    else TablePercent(table[..|table| - 1], amount)
  }

  lemma BracketsOrdered()
    ensures Ordered(Brackets)
  {
  }

  /** The coded cascade of comparisons picks exactly the table's bracket. */
  lemma CommissionFollowsTable(amountUsd: real, usdRate: real)
    ensures CalculateCommission(amountUsd, usdRate).percent == TablePercent(Brackets, amountUsd)
  {
    var t3 := [Bracket(5000.0, 5.0), Bracket(50000.0, 3.5), Bracket(100000.0, 3.0)];
    var t2 := [Bracket(5000.0, 5.0), Bracket(50000.0, 3.5)];
    var t1 := [Bracket(5000.0, 5.0)];
    assert Brackets[..3] == t3 && t3[..2] == t2 && t2[..1] == t1 && t1[..0] == [];
    assert TablePercent(t1, amountUsd) == if amountUsd >= 5000.0 then Some(5.0) else None;
    assert TablePercent(t2, amountUsd) == if amountUsd >= 50000.0 then Some(3.5) else TablePercent(t1, amountUsd);
    assert TablePercent(t3, amountUsd) == if amountUsd >= 100000.0 then Some(3.0) else TablePercent(t2, amountUsd);
    assert TablePercent(Brackets, amountUsd) == if amountUsd >= 500000.0 then Some(2.5) else TablePercent(t3, amountUsd);
  }

  // ---------------------------------------------------------------------
  // The brackets, both directions
  // ---------------------------------------------------------------------

  lemma CommissionBrackets(a: real, r: real)
    ensures CalculateCommission(a, r).percent == None <==> a < 5000.0
    ensures CalculateCommission(a, r).percent == Some(5.0) <==> 5000.0 <= a < 50000.0
    ensures CalculateCommission(a, r).percent == Some(3.5) <==> 50000.0 <= a < 100000.0
    ensures CalculateCommission(a, r).percent == Some(3.0) <==> 100000.0 <= a < 500000.0
    ensures CalculateCommission(a, r).percent == Some(2.5) <==> 500000.0 <= a
    ensures CalculateCommission(a, r).percent == None ==> CalculateCommission(a, r).message == BelowMinimumMessage
  {
  }

  /** A larger amount never pays a larger percentage. */
  lemma CommissionMonotone(a: real, b: real, r: real)
    requires 5000.0 <= a <= b
    ensures CalculateCommission(a, r).percent.Some? && CalculateCommission(b, r).percent.Some?
    ensures CalculateCommission(b, r).percent.value <= CalculateCommission(a, r).percent.value
  {
  }

  lemma FloorAnnounced(a: real, r: real)
    requires 5000.0 <= a < 50000.0 && a * r * 0.05 < FloorRub
    ensures Contains(CalculateCommission(a, r).message, "minimum")
  {
    var m := CalculateCommission(a, r).message;
    assert m == FiveWithFloorMessage;
    assert m[15..22] == "minimum";
    ContainsFromSlice(m, "minimum", 15);
  }

  lemma FloorNotAnnounced(a: real, r: real)
    requires a >= 5000.0 && !(a < 50000.0 && a * r * 0.05 < FloorRub)
    ensures !Contains(CalculateCommission(a, r).message, "minimum")
  {
    var m := CalculateCommission(a, r).message;
    assert 'u' in "minimum";
    assert m in {"5% commission", "3.5% commission", "3% commission", "2.5% commission"};
    assert 'u' !in m;
    NotContainsMissingChar(m, "minimum", 'u');
  }

  /** The floor of 100,000 RUB is announced only in the 5% bracket, and there
      exactly when 5% of the amount, in roubles, falls below it. */
  lemma FloorMessage(a: real, r: real)
    requires CalculateCommission(a, r).percent.Some?
    ensures Contains(CalculateCommission(a, r).message, "minimum") <==>
      (a < 50000.0 && a * r * 0.05 < FloorRub)
  {
    if a < 50000.0 && a * r * 0.05 < FloorRub {
      FloorAnnounced(a, r);
    } else {
      FloorNotAnnounced(a, r);
    }
  }
}
