/**
 * The decisions `create_dynamic_visualization` (run_dynamic_programmatic.py) takes before it
 * draws anything: which columns of the plotted-series table are indicators, which of those are
 * buy/sell signals and which are lines, which rows the lines are drawn over, where signal markers
 * go and in which direction, which subplot row holds the indicators, and the chart's titles.
 * A column is its name and its cells; a NaN cell is `None`.
 */
module Chart {
  import opened Wrappers
  import opened Seqs
  import opened Text

  datatype Column = Column(name: string, values: seq<Option<real>>)

  /** A table: its columns in order, and its number of rows. */
  datatype Frame = Frame(columns: seq<Column>, rowCount: nat)

  /** Every column of a table has one cell per row. */
  predicate WellFormed(frame: Frame) {
    forall k :: 0 <= k < |frame.columns| ==> |frame.columns[k].values| == frame.rowCount
  }

  const OhlcvColumns: seq<string> := ["open", "high", "low", "close", "volume"]
  const TimeColumn: string := "time"

  predicate IsIndicatorName(name: string) {
    name !in OhlcvColumns + [TimeColumn]
  }

  predicate IsIndicator(c: Column) {
    IsIndicatorName(c.name)
  }

  /** `[col for col in df.columns if col not in ohlcv_cols + ['time']]` */
  function IndicatorColumns(columns: seq<Column>): (r: seq<Column>)
    ensures forall k :: 0 <= k < |r| ==> r[k] in columns && IsIndicatorName(r[k].name)
    ensures forall k :: 0 <= k < |columns| && IsIndicatorName(columns[k].name) ==> columns[k] in r
  {
    Filter(columns, IsIndicator)
  }

  /** Selecting indicator columns keeps the table's column order. */
  lemma IndicatorColumnsKeepOrder(a: seq<Column>, b: seq<Column>)
    ensures IndicatorColumns(a + b) == IndicatorColumns(a) + IndicatorColumns(b)
  {
    FilterConcat(a, b, IsIndicator);
  }

  // ---------------------------------------------------------------------------
  // Signal or line indicator
  // ---------------------------------------------------------------------------

  /** `df[col].dropna()`: the present values, in row order. */
  function Present(values: seq<Option<real>>): (xs: seq<real>)
    ensures |xs| <= |values|
    ensures forall x :: x in xs <==> Some(x) in values
  {
    if values == [] then []
    else
      var rest := Present(values[1..]);
      assert forall x :: Some(x) in values <==> values[0] == Some(x) || Some(x) in values[1..];
      (if values[0].Some? then [values[0].value] else []) + rest
  }

  /** `.max()` of a non-empty series. */
  function Max(xs: seq<real>): (m: real)
    requires |xs| > 0
    ensures m in xs
    ensures forall k :: 0 <= k < |xs| ==> xs[k] <= m
  {
    if |xs| == 1 then xs[0]
    else
      var m := Max(xs[1..]);
      assert forall k :: 1 <= k < |xs| ==> xs[k] == xs[1..][k - 1];
      if xs[0] >= m then xs[0] else m
  }

  /** `.unique()`, as a set. */
  function Distinct(xs: seq<real>): set<real> {
    set x | x in xs
  }

  /**
   * The source's test: a column with at least one present value is a signal when its values
   * are all 0 or 1, or when it has at most three distinct values and none above 1.
   */
  predicate IsSignal(c: Column) {
    var present := Present(c.values);
    |present| > 0 &&
    (Distinct(present) <= {0.0, 1.0} || (|Distinct(present)| <= 3 && Max(present) <= 1.0))
  }

  predicate IsLineIndicator(c: Column) {
    !IsSignal(c)
  }

  /** The distinct values present in a column. */
  function PresentValues(c: Column): set<real> {
    set o | o in c.values && o.Some? :: o.value
  }

  /** The signal test stated over the column's cells directly, with the maximum unfolded. */
  lemma SignalRule(c: Column)
    ensures IsSignal(c) <==>
      && PresentValues(c) != {}
      && ((forall v :: v in PresentValues(c) ==> v == 0.0 || v == 1.0)
          || (|PresentValues(c)| <= 3 && forall v :: v in PresentValues(c) ==> v <= 1.0))
  {
    var present := Present(c.values);
    assert Distinct(present) == PresentValues(c) by {
      forall x ensures x in Distinct(present) <==> x in PresentValues(c) {
        if x in PresentValues(c) {
          var o :| o in c.values && o.Some? && o.value == x;
          assert Some(x) == o;
        }
      }
    }
    var values := Distinct(present);
    assert (values <= {0.0, 1.0}) <==> forall v :: v in values ==> v == 0.0 || v == 1.0 by {
      if forall v :: v in values ==> v == 0.0 || v == 1.0 {
        forall v | v in values ensures v in {0.0, 1.0} {}
      }
    }
    if |present| > 0 {
      assert present[0] in values;
      var m := Max(present);
      assert (m <= 1.0) <==> forall v :: v in values ==> v <= 1.0 by {
        if m <= 1.0 {
          forall v | v in values ensures v <= 1.0 {
            var k :| 0 <= k < |present| && present[k] == v;
          }
        } else {
          assert m in values;
        }
      }
    } else {
      assert values == {};
    }
  }

  /** A column in which every cell is missing is drawn as a line. */
  lemma AllMissingIsLine(c: Column)
    requires forall k :: 0 <= k < |c.values| ==> c.values[k].None?
    ensures IsLineIndicator(c)
  {
    SignalRule(c);
    assert forall o :: o in c.values ==> o.None?;
    assert PresentValues(c) == {};
  }

  /** A column with a present value above 1 is drawn as a line. */
  lemma AboveOneIsLine(c: Column, k: nat)
    requires k < |c.values| && c.values[k].Some? && c.values[k].value > 1.0
    ensures IsLineIndicator(c)
  {
    SignalRule(c);
    assert c.values[k].value in PresentValues(c);
  }

  /** A column of present zeros and ones, with at least one present, is a signal. */
  lemma BinaryIsSignal(c: Column, k: nat)
    requires k < |c.values| && c.values[k].Some?
    requires forall j :: 0 <= j < |c.values| && c.values[j].Some? ==> c.values[j].value in {0.0, 1.0}
    ensures IsSignal(c)
  {
    SignalRule(c);
    assert c.values[k].value in PresentValues(c);
  }

  /**
   * The classification loop: every indicator column goes to exactly one of the two lists,
   * signal or line, and each list keeps the columns' relative order.
   */
  method PartitionIndicators(indicatorCols: seq<Column>) returns (signalCols: seq<Column>, lineCols: seq<Column>)
    ensures signalCols == Filter(indicatorCols, IsSignal)
    ensures lineCols == Filter(indicatorCols, IsLineIndicator)
    ensures multiset(signalCols) + multiset(lineCols) == multiset(indicatorCols)
  {
    signalCols, lineCols := [], [];
    var i := 0;
    while i < |indicatorCols|
      invariant 0 <= i <= |indicatorCols|
      invariant signalCols == Filter(indicatorCols[..i], IsSignal)
      invariant lineCols == Filter(indicatorCols[..i], IsLineIndicator)
    {
      var col := indicatorCols[i];
      FilterStep(indicatorCols, i);
      var present := Present(col.values);
      if |present| > 0 {
        var unique := Distinct(present);
        if unique <= {0.0, 1.0} || (|unique| <= 3 && Max(present) <= 1.0) {
          assert IsSignal(col);
          signalCols := signalCols + [col];
        } else {
          assert !IsSignal(col);
          lineCols := lineCols + [col];
        }
      } else {
        assert !IsSignal(col);
        lineCols := lineCols + [col];
      }
      i := i + 1;
    }
    assert indicatorCols[..i] == indicatorCols;
    FilterSplit(indicatorCols, IsSignal, IsLineIndicator);
  }

  /** One step of the classification loop extends exactly one of the two filtered lists. */
  lemma FilterStep(cols: seq<Column>, i: nat)
    requires i < |cols|
    ensures IsSignal(cols[i]) ==> Filter(cols[..i + 1], IsSignal) == Filter(cols[..i], IsSignal) + [cols[i]]
    ensures IsSignal(cols[i]) ==> Filter(cols[..i + 1], IsLineIndicator) == Filter(cols[..i], IsLineIndicator)
    ensures !IsSignal(cols[i]) ==> Filter(cols[..i + 1], IsSignal) == Filter(cols[..i], IsSignal)
    ensures !IsSignal(cols[i]) ==> Filter(cols[..i + 1], IsLineIndicator) == Filter(cols[..i], IsLineIndicator) + [cols[i]]
  {
    assert cols[..i + 1] == cols[..i] + [cols[i]];
    FilterConcat(cols[..i], [cols[i]], IsSignal);
    FilterConcat(cols[..i], [cols[i]], IsLineIndicator);
    assert [cols[i]][1..] == [];
  }

  // ---------------------------------------------------------------------------
  // Rows
  // ---------------------------------------------------------------------------

  /** Every given column has a present value in row `j`. */
  predicate AllPresentAt(cols: seq<Column>, j: nat) {
    forall k :: 0 <= k < |cols| ==> j < |cols[k].values| && cols[k].values[j].Some?
  }

  /**
   * The rows the line indicators are drawn over: `df.dropna(subset=line_indicator_cols)` when
   * there are line indicators, every row otherwise. Either way, exactly the rows in which every
   * line-indicator column is present, in table order.
   */
  function KeptRows(rowCount: nat, lineCols: seq<Column>): (rows: seq<nat>)
    ensures forall j: nat :: j in rows <==> j < rowCount && AllPresentAt(lineCols, j)
    ensures StrictlyIncreasing(rows)
  {
    var all := Indices(rowCount);
    if |lineCols| > 0 then
      var keep := (j: nat) => AllPresentAt(lineCols, j);
      FilterIncreasing(all, keep);
      FilterMembers(all, keep);
      assert forall j: nat :: j in all <==> j < rowCount by {
        forall j: nat | j < rowCount ensures j in all { assert all[j] == j; }
      }
      Filter(all, keep)
    else
      assert forall j: nat :: j in all <==> j < rowCount by {
        forall j: nat | j < rowCount ensures j in all { assert all[j] == j; }
      }
      all
  }

  /** Row `j` of column `c` holds a present, non-zero value. */
  predicate Fires(c: Column, j: nat) {
    j < |c.values| && c.values[j].Some? && c.values[j].value != 0.0
  }

  /** `df[df[col].notna() & (df[col] != 0)]`: the rows where a signal fires, in table order. */
  function SignalRows(c: Column): (rows: seq<nat>)
    ensures forall j: nat :: j in rows <==> Fires(c, j)
    ensures StrictlyIncreasing(rows)
  {
    var all := Indices(|c.values|);
    var keep := (j: nat) => Fires(c, j);
    FilterIncreasing(all, keep);
    FilterMembers(all, keep);
    assert forall j: nat :: j in all <==> j < |c.values| by {
      forall j: nat | j < |c.values| ensures j in all { assert all[j] == j; }
    }
    Filter(all, keep)
  }

  /** The subplot row that holds the indicators: a second row exists only for line indicators. */
  function IndicatorRow(lineCols: seq<Column>): (row: nat)
    ensures row == 2 <==> |lineCols| > 0
    ensures row == 1 <==> |lineCols| == 0
  {
    if |lineCols| > 0 then 2 else 1
  }

  // ---------------------------------------------------------------------------
  // Buy or sell
  // ---------------------------------------------------------------------------

  datatype Direction = Buy | Sell

  const BuyTerms: seq<string> := ["buy", "long", "up"]
  const SellTerms: seq<string> := ["sell", "short", "down"]

  /** `any(term in s for term in terms)` */
  predicate MentionsAny(s: string, terms: seq<string>) {
    if terms == [] then false else Contains(s, terms[0]) || MentionsAny(s, terms[1..])
  }

  /**
   * The direction a signal column's name implies, on its lower-cased name: sell only for a
   * sell keyword without a buy keyword; a buy keyword, both, or neither mean buy.
   */
  function SignalDirection(name: string): Direction {
    var lower := Lower(name);
    if MentionsAny(lower, SellTerms) && !MentionsAny(lower, BuyTerms) then Sell else Buy
  }

  /** A name with a sell keyword and no buy keyword is a sell signal. */
  lemma SellExample()
    ensures SignalDirection("Sell") == Sell
  {
    var sell := Lower("Sell");
    assert sell == "sell";
    assert OccursAt(sell, SellTerms[0], 0);
    MissingCharNotContained(sell, BuyTerms[0], 0);
    MissingCharNotContained(sell, BuyTerms[1], 1);
    MissingCharNotContained(sell, BuyTerms[2], 0);
    assert !MentionsAny(sell, BuyTerms);
  }

  /** "up" occurs inside "supertrend", so a column named for a supertrend sell counts as a buy. */
  lemma SupertrendSellExample()
    ensures SignalDirection("supertrend_sell") == Buy
  {
    var both := Lower("supertrend_sell");
    assert both == "supertrend_sell";
    assert OccursAt(both, BuyTerms[2], 1);
    MentionsAnyIff(both, BuyTerms);
    assert Contains(both, BuyTerms[2]);
  }

  /** A name mentions a list of keywords exactly when it contains one of them. */
  lemma {:induction false} MentionsAnyIff(s: string, terms: seq<string>)
    ensures MentionsAny(s, terms) <==> exists i :: 0 <= i < |terms| && Contains(s, terms[i])
  {
    if terms != [] {
      MentionsAnyIff(s, terms[1..]);
      if MentionsAny(s, terms[1..]) {
        var i :| 0 <= i < |terms[1..]| && Contains(s, terms[1..][i]);
        assert Contains(s, terms[i + 1]);
      }
      if exists i :: 0 <= i < |terms| && Contains(s, terms[i]) {
        var i :| 0 <= i < |terms| && Contains(s, terms[i]);
        if i > 0 {
          assert Contains(s, terms[1..][i - 1]);
        }
      }
    }
  }

  /** A marker trace: the signal column, its direction, and the rows it marks. */
  datatype SignalMarker = SignalMarker(column: string, direction: Direction, rows: seq<nat>)

  /** The marker trace drawn for one signal column. */
  function MarkerFor(c: Column): SignalMarker {
    SignalMarker(c.name, SignalDirection(c.name), SignalRows(c))
  }

  /** A signal column fires in at least one row, so it gets a marker trace. */
  predicate FiresSomewhere(c: Column) {
    |SignalRows(c)| > 0
  }

  /** The marker traces for the signal columns that fire at least once, in column order. */
  function Markers(signalCols: seq<Column>): (ms: seq<SignalMarker>)
    ensures |ms| == |Filter(signalCols, FiresSomewhere)| <= |signalCols|
    ensures forall k :: 0 <= k < |ms| ==> |ms[k].rows| > 0 && exists c :: c in signalCols && ms[k] == MarkerFor(c)
    ensures forall j :: 0 <= j < |signalCols| && |SignalRows(signalCols[j])| > 0 ==> MarkerFor(signalCols[j]) in ms
  {
    var firing := Filter(signalCols, FiresSomewhere);
    var ms := Map(firing, MarkerFor);
    assert forall k :: 0 <= k < |ms| ==> ms[k] == MarkerFor(firing[k]);
    assert forall j :: 0 <= j < |signalCols| && |SignalRows(signalCols[j])| > 0 ==> MarkerFor(signalCols[j]) in ms by {
      forall j | 0 <= j < |signalCols| && |SignalRows(signalCols[j])| > 0 ensures MarkerFor(signalCols[j]) in ms {
        var k :| 0 <= k < |firing| && firing[k] == signalCols[j];
        assert ms[k] == MarkerFor(signalCols[j]);
      }
    }
    ms
  }

  /** One step of the marker loop appends the column's trace exactly when the column fires. */
  lemma MarkersStep(cols: seq<Column>, i: nat)
    requires i < |cols|
    ensures FiresSomewhere(cols[i]) ==> Markers(cols[..i + 1]) == Markers(cols[..i]) + [MarkerFor(cols[i])]
    ensures !FiresSomewhere(cols[i]) ==> Markers(cols[..i + 1]) == Markers(cols[..i])
  {
    assert cols[..i + 1] == cols[..i] + [cols[i]];
    FilterConcat(cols[..i], [cols[i]], FiresSomewhere);
    assert [cols[i]][1..] == [];
    var a, b := Filter(cols[..i], FiresSomewhere), Filter([cols[i]], FiresSomewhere);
    assert b == if FiresSomewhere(cols[i]) then [cols[i]] else [];
    MapConcat(a, b, MarkerFor);
  }

  /** The keyword tests on the lower-cased name, and the default to buy when neither matches. */
  method DecideDirection(name: string) returns (direction: Direction)
    ensures direction == SignalDirection(name)
    ensures direction == Sell <==> MentionsAny(Lower(name), SellTerms) && !MentionsAny(Lower(name), BuyTerms)
  {
    var lower := Lower(name);
    var isBuy := MentionsAny(lower, BuyTerms);
    var isSell := MentionsAny(lower, SellTerms);
    if !(isBuy || isSell) {
      isBuy := true;
    }
    direction := if isBuy then Buy else Sell;
  }

  /** The marker loop: the keyword tests, the default to buy, and one trace per firing signal column. */
  method SignalMarkers(signalCols: seq<Column>) returns (markers: seq<SignalMarker>)
    ensures markers == Markers(signalCols)
  {
    markers := [];
    var i := 0;
    while i < |signalCols|
      invariant 0 <= i <= |signalCols|
      invariant markers == Markers(signalCols[..i])
    {
      var col := signalCols[i];
      var rows := SignalRows(col);
      MarkersStep(signalCols, i);
      if |rows| > 0 {
        var direction := DecideDirection(col.name);
        markers := markers + [SignalMarker(col.name, direction, rows)];
      }
      i := i + 1;
    }
    assert signalCols[..i] == signalCols;
  }

  // ---------------------------------------------------------------------------
  // Titles
  // ---------------------------------------------------------------------------

  /** The chart's title and the indicator subplot's axis title. */
  datatype Titles = Titles(chart: string, indicatorAxis: string)

  const CwrColumn: string := "cwr"
  const CwrWording: string := " Candle Widening Ratio (CWR) Indicator"

  function Names(cols: seq<Column>): (names: seq<string>)
    ensures |names| == |cols|
    ensures forall k :: 0 <= k < |cols| ==> names[k] == cols[k].name
  {
    seq(|cols|, k requires 0 <= k < |cols| => cols[k].name)
  }

  /** The titles before any signal count is appended. */
  function BaseTitles(scriptName: string, lineCols: seq<Column>): (t: Titles)
    ensures t.indicatorAxis == "CWR Value" <==> CwrColumn in Names(lineCols)
    ensures t.indicatorAxis == "" <==> |lineCols| == 0
    ensures CwrColumn !in Names(lineCols) && |lineCols| > 0 ==> t.indicatorAxis == "Indicator Values"
    ensures IsPrefix(scriptName + " - BTC/USDT", t.chart)
    ensures EndsWith(t.chart, CwrWording) <==> CwrColumn in Names(lineCols)
    ensures EndsWith(t.chart, " Price Chart") <==> |lineCols| == 0
    ensures CwrColumn !in Names(lineCols) && |lineCols| > 0 ==>
      EndsWith(t.chart, " with " + Join(", ", Names(lineCols)) + " Indicators")
    ensures !EndsWith(t.chart, " Trading Signals")
  {
    var head := scriptName + " - BTC/USDT";
    var tail :=
      if CwrColumn in Names(lineCols) then " with" + CwrWording
      else if |lineCols| > 0 then " with " + Join(", ", Names(lineCols)) + " Indicators"
      else " Price Chart";
    var axis :=
      if CwrColumn in Names(lineCols) then "CWR Value"
      else if |lineCols| > 0 then "Indicator Values"
      else "";
    PrefixOfConcat(head, tail);
    SuffixOfConcat(head, tail);
    EndingsDiffer(head + tail, tail, CwrColumn in Names(lineCols), |lineCols| > 0, Join(", ", Names(lineCols)));
    Titles(head + tail, axis)
  }

  /** The three title endings are told apart by their last two characters. */
  lemma EndingsDiffer(title: string, tail: string, cwr: bool, lines: bool, joined: string)
    requires tail == if cwr then " with" + CwrWording
                     else if lines then " with " + joined + " Indicators"
                     else " Price Chart"
    requires EndsWith(title, tail)
    ensures EndsWith(title, CwrWording) <==> cwr
    ensures EndsWith(title, " Price Chart") <==> !cwr && !lines
    ensures !EndsWith(title, " Trading Signals")
  {
    var ending := if cwr then CwrWording else if lines then " Indicators" else " Price Chart";
    SuffixOfConcat(if cwr then " with" else if lines then " with " + joined else "", ending);
    EndsWithTransitive(title, tail, ending);
    EndsWithLastTwo(title, ending);
    if EndsWith(title, CwrWording) { EndsWithLastTwo(title, CwrWording); }
    if EndsWith(title, " Price Chart") { EndsWithLastTwo(title, " Price Chart"); }
    if EndsWith(title, " Trading Signals") { EndsWithLastTwo(title, " Trading Signals"); }
  }

  function SignalsSuffix(count: nat): string {
    " and " + NatToString(count) + " Trading Signals"
  }

  /** The titles, with the number of signal columns appended to the chart title when there are any. */
  method ChartTitles(scriptName: string, signalCols: seq<Column>, lineCols: seq<Column>) returns (t: Titles)
    ensures t.indicatorAxis == BaseTitles(scriptName, lineCols).indicatorAxis
    ensures |signalCols| == 0 ==> t.chart == BaseTitles(scriptName, lineCols).chart
    ensures |signalCols| > 0 ==> t.chart == BaseTitles(scriptName, lineCols).chart + SignalsSuffix(|signalCols|)
    ensures EndsWith(t.chart, " Trading Signals") <==> |signalCols| > 0
  {
    var base := BaseTitles(scriptName, lineCols);
    var chartTitle := base.chart;
    if |signalCols| > 0 {
      chartTitle := chartTitle + SignalsSuffix(|signalCols|);
      SuffixOfConcat(" and " + NatToString(|signalCols|), " Trading Signals");
      SuffixOfConcat(base.chart, SignalsSuffix(|signalCols|));
      EndsWithTransitive(chartTitle, SignalsSuffix(|signalCols|), " Trading Signals");
    }
    t := Titles(chartTitle, base.indicatorAxis);
  }

  // ---------------------------------------------------------------------------
  // The whole decision
  // ---------------------------------------------------------------------------

  /** Everything `create_dynamic_visualization` decides before rendering. */
  datatype ChartPlan = ChartPlan(
    indicatorCols: seq<Column>, signalCols: seq<Column>, lineCols: seq<Column>,
    keptRows: seq<nat>, indicatorRow: nat, markers: seq<SignalMarker>, titles: Titles)

  method PlanChart(frame: Frame, scriptName: string) returns (plan: ChartPlan)
    requires WellFormed(frame)
    ensures plan.indicatorCols == IndicatorColumns(frame.columns)
    ensures plan.signalCols == Filter(plan.indicatorCols, IsSignal)
    ensures plan.lineCols == Filter(plan.indicatorCols, IsLineIndicator)
    ensures plan.keptRows == KeptRows(frame.rowCount, plan.lineCols)
    ensures plan.indicatorRow == IndicatorRow(plan.lineCols)
    ensures plan.markers == Markers(plan.signalCols)
    ensures plan.titles.indicatorAxis == BaseTitles(scriptName, plan.lineCols).indicatorAxis
    ensures plan.titles.chart == BaseTitles(scriptName, plan.lineCols).chart +
      (if |plan.signalCols| > 0 then SignalsSuffix(|plan.signalCols|) else "")
  {
    var indicatorCols := IndicatorColumns(frame.columns);
    var signalCols, lineCols := PartitionIndicators(indicatorCols);
    var keptRows := KeptRows(frame.rowCount, lineCols);
    var indicatorRow := IndicatorRow(lineCols);
    var markers := SignalMarkers(signalCols);
    var titles := ChartTitles(scriptName, signalCols, lineCols);
    plan := ChartPlan(indicatorCols, signalCols, lineCols, keptRows, indicatorRow, markers, titles);
  }
}
