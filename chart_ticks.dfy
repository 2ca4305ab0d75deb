/**
 * The y-axis tick labels of the portfolio chart: a value is written in crores
 * (10,000,000) from one crore up, in lakhs (100,000) from one lakh up, and in
 * thousands below that.
 */
module ChartTicks {

  /** The three Indian-numbering suffixes: " Cr", " L" and " K". */
  datatype Unit = Crore | Lakh | Thousand

  /** A tick label: a number and the unit it counts. */
  datatype TickLabel = TickLabel(amount: real, unit: Unit)

  /** How many rupees one of each unit stands for. */
  function Scale(u: Unit): real {
    match u
    case Crore => 10000000.0
    case Lakh => 100000.0
    case Thousand => 1000.0
  }

  /** The value a label stands for. */
  function Denote(t: TickLabel): real {
    t.amount * Scale(t.unit)
  }

  /**
   * The tick callback. The label always stands for exactly the tick value;
   * crores are used from one crore up and lakhs from one lakh up, so a
   * positive label's number is at least 1 and, below the crore unit, under 100.
   */
  function LabelFor(v: real): (t: TickLabel)
    ensures Denote(t) == v
    ensures t.unit == Crore <==> v >= 10000000.0
    ensures t.unit == Lakh <==> 100000.0 <= v < 10000000.0
    ensures t.unit != Thousand ==> t.amount >= 1.0
    ensures t.unit != Crore && v >= 0.0 ==> t.amount < 100.0
  {
    if v >= 10000000.0 then TickLabel(v / 10000000.0, Crore)
    else if v >= 100000.0 then TickLabel(v / 100000.0, Lakh)
    else TickLabel(v / 1000.0, Thousand)
  }

  /** A larger tick never gets a smaller unit. */
  lemma {:induction false} LabelUnitMonotone(v1: real, v2: real)
    requires v1 <= v2
    ensures Scale(LabelFor(v1).unit) <= Scale(LabelFor(v2).unit)
  {
  }

  /**
   * From one thousand up, the label uses the largest unit that still gives
   * a number of at least 1.
   */
  lemma LargestFittingUnit(v: real, u: Unit)
    requires v >= 1000.0 && Scale(u) <= v
    ensures Scale(u) <= Scale(LabelFor(v).unit)
  {
  }
}
