/** Pricing the tally: writing everything for five minutes against writing everything for an hour. */
module TtlCosts {
  import opened Json
  import opened TtlAnalysis
  import opened TtlTally

  /** Dollars per million tokens: five-minute write, one-hour write, read, input. */
  datatype Price = Price(w5: real, w1h: real, r: real, input: real)

  const PRICING: seq<(string, Price)> := [
    ("claude-sonnet-4-6", Price(3.75, 6.00, 0.30, 3.00)),
    ("claude-opus-4-6", Price(6.25, 10.00, 0.50, 5.00)),
    ("claude-haiku-4-5", Price(1.25, 2.00, 0.10, 1.00)),
    ("claude-opus-4-7", Price(18.75, 30.00, 1.50, 15.00))
  ]

  const DEFAULT_PRICE := PRICING[0].1

  /** The part of a name before its first bracket. */
  function BeforeBracket(s: string): string {
    if s == "" || s[0] == '[' then "" else [s[0]] + BeforeBracket(s[1..])
  }

  /** The first row satisfying either test: the exact name, or a name contained in the model's base name. */
  function Lookup(rows: seq<(string, Price)>, model: string, exact: bool): Option<Price> {
    if rows == [] then None
    else if (if exact then model == rows[0].0 else Contains(model, rows[0].0)) then Some(rows[0].1)
    else Lookup(rows[1..], model, exact)
  }

  /** `price_for`; a name that starts with a row's name also contains it. */
  function PriceFor(model: string): Price {
    if model == "" then DEFAULT_PRICE
    else
      match Lookup(PRICING, model, true)
      case Some(p) => p
      case None =>
        match Lookup(PRICING, BeforeBracket(model), false)
        case Some(p) => p
        case None => DEFAULT_PRICE
  }

  /** Row `i` is the first whose name occurs in the given one. */
  ghost predicate FirstMatch(rows: seq<(string, Price)>, base: string, i: nat) {
    i < |rows| && OccursIn(rows[i].0, base) && forall j :: 0 <= j < i ==> !OccursIn(rows[j].0, base)
  }

  lemma {:induction false} LookupFirst(rows: seq<(string, Price)>, base: string, i: nat)
    requires FirstMatch(rows, base, i)
    ensures Lookup(rows, base, false) == Some(rows[i].1)
  {
    hide OccursIn;
    ContainsIff(base, rows[0].0);
    if i > 0 {
      LookupFirst(rows[1..], base, i - 1);
    }
  }

  lemma {:induction false} LookupNone(rows: seq<(string, Price)>, base: string)
    requires forall i :: 0 <= i < |rows| ==> !OccursIn(rows[i].0, base)
    ensures Lookup(rows, base, false).None?
  {
    hide OccursIn;
    if rows != [] {
      ContainsIff(base, rows[0].0);
      LookupNone(rows[1..], base);
    }
  }

  lemma {:induction false} LookupExact(rows: seq<(string, Price)>, model: string)
    ensures match Lookup(rows, model, true)
            case Some(p) => exists i :: 0 <= i < |rows| && rows[i] == (model, p)
            case None => forall i :: 0 <= i < |rows| ==> rows[i].0 != model
  {
    if rows != [] && model != rows[0].0 {
      LookupExact(rows[1..], model);
      if Lookup(rows, model, true).Some? {
        var i :| 0 <= i < |rows| - 1 && rows[1..][i] == (model, Lookup(rows, model, true).value);
        assert rows[i + 1] == (model, Lookup(rows, model, true).value);
      }
    }
  }

  /** No listed name has a bracket, and none occurs in one further down. */
  lemma {:induction false} ListedNamesApart(i: nat)
    requires i < |PRICING|
    ensures FirstMatch(PRICING, PRICING[i].0, i) && BeforeBracket(PRICING[i].0) == PRICING[i].0
  {
    hide OccursIn;
    hide BeforeBracket;
    NoBracket(i);
    BracketCut(PRICING[i].0, "");
    OccursInItself(PRICING[i].0);
    forall j | 0 <= j < i
      ensures !OccursIn(PRICING[j].0, PRICING[i].0)
    {
      NotWithin(j, i);
    }
  }

  lemma NoBracket(i: nat)
    requires i < |PRICING|
    ensures '[' !in PRICING[i].0
  {
  }

  lemma {:induction false} NotWithin(j: nat, i: nat)
    requires j < i < |PRICING|
    ensures !OccursIn(PRICING[j].0, PRICING[i].0)
  {
    hide OccursIn;
    assert PRICING[1].0[14] == '6' && PRICING[3].0[14] == '7';
    if j == 1 && i == 2 {
      OpusNotInHaiku();
    } else if OccursIn(PRICING[j].0, PRICING[i].0) {
      OccursLength(PRICING[j].0, PRICING[i].0);
    }
  }

  lemma OccursInItself(name: string)
    ensures OccursIn(name, name)
  {
    assert name <= name[0..];
  }

  lemma {:induction false} OpusNotInHaiku()
    ensures !OccursIn("claude-opus-4-6", "claude-haiku-4-5")
  {
    var opus, haiku := "claude-opus-4-6", "claude-haiku-4-5";
    assert opus[7] == 'o' && haiku[7] == 'h' && haiku[8] == 'a';
    PartsAtSeven(opus, haiku);
  }

  lemma {:induction false} PartsAtSeven(sub: string, s: string)
    requires |sub| == 15 && |s| == 16 && s[7] != sub[7] && s[8] != sub[7]
    ensures !OccursIn(sub, s)
  {
    forall at | 0 <= at <= |s|
      ensures !(sub <= s[at..])
    {
      assert at <= 1 ==> s[at..][7] == s[at + 7];
    }
  }

  /** The price is that of the first row whose name occurs before the bracket, and the default if there is none. */
  lemma {:induction false} PriceByName(model: string, i: nat)
    ensures FirstMatch(PRICING, BeforeBracket(model), i) ==> PriceFor(model) == PRICING[i].1
    ensures (forall j :: 0 <= j < |PRICING| ==> !OccursIn(PRICING[j].0, BeforeBracket(model)))
            ==> PriceFor(model) == Price(3.75, 6.00, 0.30, 3.00)
  {
    hide OccursIn;
    var base := BeforeBracket(model);
    LookupExact(PRICING, model);
    if Lookup(PRICING, model, true).Some? {
      var k :| 0 <= k < |PRICING| && PRICING[k] == (model, Lookup(PRICING, model, true).value);
      ListedNamesApart(k);
      assert FirstMatch(PRICING, base, i) ==> i == k;
    } else {
      if FirstMatch(PRICING, base, i) {
        OccursLength(PRICING[i].0, base);
        LookupFirst(PRICING, base, i);
      }
      if forall j :: 0 <= j < |PRICING| ==> !OccursIn(PRICING[j].0, base) {
        LookupNone(PRICING, base);
      }
    }
  }

  lemma {:induction false} LeastMatch(rows: seq<(string, Price)>, base: string, j: nat) returns (i: nat)
    requires j < |rows| && OccursIn(rows[j].0, base)
    ensures FirstMatch(rows, base, i)
  {
    hide OccursIn;
    i := j;
    if k: nat :| k < j && OccursIn(rows[k].0, base) {
      i := LeastMatch(rows, base, k);
    }
  }

  lemma {:induction false} BracketCut(base: string, rest: string)
    requires '[' !in base
    ensures BeforeBracket(base) == base && BeforeBracket(base + "[" + rest) == base
  {
    if base != "" {
      BracketCut(base[1..], rest);
      assert (base + "[" + rest)[1..] == base[1..] + "[" + rest;
    }
  }

  /** Nothing from the bracket on matters. */
  lemma {:induction false} BracketIgnored(base: string, rest: string)
    requires '[' !in base
    ensures PriceFor(base + "[" + rest) == PriceFor(base)
  {
    hide OccursIn;
    hide PriceFor;
    BracketCut(base, rest);
    var i := 0;
    if j: nat :| j < |PRICING| && OccursIn(PRICING[j].0, base) {
      i := LeastMatch(PRICING, base, j);
    }
    PriceByName(base, i);
    PriceByName(base + "[" + rest, i);
  }

  /** Dollars per million tokens, as listed. */
  lemma {:induction false} ListedPrices()
    ensures PriceFor("claude-sonnet-4-6") == Price(3.75, 6.00, 0.30, 3.00)
    ensures PriceFor("claude-opus-4-6") == Price(6.25, 10.00, 0.50, 5.00)
    ensures PriceFor("claude-haiku-4-5") == Price(1.25, 2.00, 0.10, 1.00)
    ensures PriceFor("claude-opus-4-7") == Price(18.75, 30.00, 1.50, 15.00)
    ensures PriceFor("") == Price(3.75, 6.00, 0.30, 3.00)
  {
    hide FirstMatch;
    forall i | 0 <= i < |PRICING|
      ensures PriceFor(PRICING[i].0) == PRICING[i].1
    {
      ListedNamesApart(i);
      PriceByName(PRICING[i].0, i);
    }
    assert PriceFor(PRICING[0].0) == PRICING[0].1 && PriceFor(PRICING[1].0) == PRICING[1].1;
    assert PriceFor(PRICING[2].0) == PRICING[2].1 && PriceFor(PRICING[3].0) == PRICING[3].1;
  }

  /** Every price in use has the same proportions. */
  predicate Proportional(p: Price) {
    p.w5 > 0.0 && p.w1h == 1.6 * p.w5 && p.r == 0.08 * p.w5
  }

  lemma {:induction false} LookupProportional(rows: seq<(string, Price)>, model: string, exact: bool)
    requires forall i :: 0 <= i < |rows| ==> Proportional(rows[i].1)
    ensures Lookup(rows, model, exact).Some? ==> Proportional(Lookup(rows, model, exact).value)
  {
    if rows != [] {
      LookupProportional(rows[1..], model, exact);
    }
  }

  lemma {:induction false} PricesProportional(model: string)
    ensures Proportional(PriceFor(model))
  {
    LookupProportional(PRICING, model, true);
    LookupProportional(PRICING, BeforeBracket(model), false);
  }

  function Cost(tokens: int, perMillion: real): real { tokens as real * perMillion / 1000000.0 }

  /** Strategy A: every write at the five-minute price. */
  function CostA(p: Price, a: Agg): real {
    Cost(a.inWindow, p.w5) + Cost(a.idle, p.w5) + Cost(a.over, p.w5)
  }

  /** Strategy B: one-hour writes, and the 5-60 minute rewrites become reads. */
  function CostB(p: Price, a: Agg): real {
    Cost(a.inWindow, p.w1h) + Cost(a.idle, p.r) + Cost(a.over, p.w1h)
  }

  /** What decides between the strategies: the token mix alone. */
  function Balance(a: Agg): real {
    0.6 * (a.inWindow + a.over) as real - 0.92 * a.idle as real
  }

  lemma {:induction false} DifferenceIsScaledBalance(p: Price, a: Agg)
    requires Proportional(p)
    ensures CostB(p, a) - CostA(p, a) == p.w5 * Balance(a) / 1000000.0
  {
    var i, d, o := a.inWindow as real, a.idle as real, a.over as real;
    assert (a.inWindow + a.over) as real == i + o;
    assert i * p.w1h - i * p.w5 == p.w5 * (0.6 * i);
    assert o * p.w1h - o * p.w5 == p.w5 * (0.6 * o);
    assert d * p.w5 - d * p.r == p.w5 * (0.92 * d);
    assert p.w5 * (0.6 * (i + o) - 0.92 * d) == p.w5 * (0.6 * i) + p.w5 * (0.6 * o) - p.w5 * (0.92 * d);
  }

  /** For every token mix the sign of B minus A is the balance's, at any price in use. */
  lemma {:induction false} SignIsBalance(model: string, a: Agg)
    ensures var d := CostB(PriceFor(model), a) - CostA(PriceFor(model), a);
            (d > 0.0 <==> Balance(a) > 0.0) && (d < 0.0 <==> Balance(a) < 0.0)
  {
    hide PriceFor;
    hide CostA;
    hide CostB;
    PricesProportional(model);
    var p := PriceFor(model);
    DifferenceIsScaledBalance(p, a);
    assert p.w5 * Balance(a) > 0.0 <==> Balance(a) > 0.0;
    assert p.w5 * Balance(a) < 0.0 <==> Balance(a) < 0.0;
  }

  /** So pricing the same mix on two different models never gives opposite verdicts. */
  lemma {:induction false} HypotheticalVerdictsAgree(model: string, other: string, a: Agg)
    ensures var d, e := CostB(PriceFor(model), a) - CostA(PriceFor(model), a),
                        CostB(PriceFor(other), a) - CostA(PriceFor(other), a);
            (d > 0.0 <==> e > 0.0) && (d < 0.0 <==> e < 0.0)
  {
    hide PriceFor;
    hide CostA;
    hide CostB;
    SignIsBalance(model, a);
    SignIsBalance(other, a);
  }

  // ----- The totals `main` prints -----

  function W5(): Weight { m => PriceFor(m).w5 }

  function W1h(): Weight { m => PriceFor(m).w1h }

  function R(): Weight { m => PriceFor(m).r }

  /** The three columns under one weight each. */
  function ThreeColumns(rows: ByModel, win: Weight, idle: Weight, over: Weight): real {
    ModelSum(rows, InWindow, win) + ModelSum(rows, Idle5To60, idle) + ModelSum(rows, Over60, over)
  }

  lemma {:induction false} RowCosts(row: (string, Agg))
    ensures CostA(PriceFor(row.0), row.1) * 1000000.0
            == Weigh(row.1.inWindow, row.0, W5()) + Weigh(row.1.idle, row.0, W5()) + Weigh(row.1.over, row.0, W5())
    ensures CostB(PriceFor(row.0), row.1) * 1000000.0
            == Weigh(row.1.inWindow, row.0, W1h()) + Weigh(row.1.idle, row.0, R()) + Weigh(row.1.over, row.0, W1h())
  {
    hide PriceFor;
  }

  /** The cost loop of `main`. */
  method CostRows(rows: ByModel) returns (a: real, b: real)
    ensures a * 1000000.0 == ThreeColumns(rows, W5(), W5(), W5())
    ensures b * 1000000.0 == ThreeColumns(rows, W1h(), R(), W1h())
  {
    hide PriceFor;
    hide CostA;
    hide CostB;
    hide Weigh;
    a, b := 0.0, 0.0;
    assert rows[0..] == rows;
    for j := 0 to |rows|
      invariant a * 1000000.0 + ThreeColumns(rows[j..], W5(), W5(), W5()) == ThreeColumns(rows, W5(), W5(), W5())
      invariant b * 1000000.0 + ThreeColumns(rows[j..], W1h(), R(), W1h()) == ThreeColumns(rows, W1h(), R(), W1h())
    {
      var p := PriceFor(rows[j].0);
      RowCosts(rows[j]);
      assert rows[j..][0] == rows[j] && rows[j..][1..] == rows[j + 1..];
      a := a + CostA(p, rows[j].1);
      b := b + CostB(p, rows[j].1);
    }
  }

  function Scaled(k: real, x: real): real { k * x }

  lemma ScaledAdds(k: real, x: real, y: real)
    ensures Scaled(k, x + y) == Scaled(k, x) + Scaled(k, y) && Scaled(k, 0.0) == 0.0
  {
  }

  /** The second weight is the first, scaled. */
  ghost predicate ScaledWeight(w: Weight, v: Weight, k: real) {
    forall m :: v(m) == Scaled(k, w(m))
  }

  lemma {:induction false} WeighScales(tokens: int, model: string, w: Weight, v: Weight, k: real)
    requires ScaledWeight(w, v, k)
    ensures Weigh(tokens, model, v) == Scaled(k, Weigh(tokens, model, w))
  {
    assert v(model) == Scaled(k, w(model));
  }

  lemma {:induction false} SessionScales(ts: seq<Turn>, n: nat, c: Category, w: Weight, v: Weight, k: real)
    requires n <= |ts| && ScaledWeight(w, v, k)
    ensures SessionSum(ts, n, c, v) == Scaled(k, SessionSum(ts, n, c, w))
  {
    hide Scaled;
    hide Weigh;
    ScaledAdds(k, 0.0, 0.0);
    if n > 0 {
      var t := ts[n - 1];
      SessionScales(ts, n - 1, c, w, v, k);
      WeighScales(t.cacheCreation, t.model, w, v, k);
      ScaledAdds(k, SessionSum(ts, n - 1, c, w), Weigh(t.cacheCreation, t.model, w));
    }
  }

  lemma {:induction false} ColumnScales(sessions: seq<seq<Turn>>, c: Category, w: Weight, v: Weight, k: real)
    requires ScaledWeight(w, v, k)
    ensures ColumnSum(sessions, c, v) == Scaled(k, ColumnSum(sessions, c, w))
  {
    hide Scaled;
    hide SessionSum;
    ScaledAdds(k, 0.0, 0.0);
    if sessions != [] {
      var front, last := sessions[..|sessions| - 1], sessions[|sessions| - 1];
      ColumnScales(front, c, w, v, k);
      SessionScales(last, |last|, c, w, v, k);
      ScaledAdds(k, ColumnSum(front, c, w), SessionSum(last, |last|, c, w));
    }
  }

  /**
    The whole analysis. Strategy A's total is every counted token at its model's
    five-minute price; B minus A is the balance of the columns at those prices.
   */
  method Analyze(files: seq<seq<Line>>) returns (a: real, b: real)
    ensures a * 1000000.0 == CountedSum(files, W5())
    ensures var s := Sessions(files);
            (b - a) * 1000000.0
            == 0.6 * (ColumnSum(s, InWindow, W5()) + ColumnSum(s, Over60, W5())) - 0.92 * ColumnSum(s, Idle5To60, W5())
  {
    hide PriceFor;
    hide ColumnSum;
    hide TallySum;
    hide ModelSum;
    hide CountedSum;
    var tally := TallyFiles(files);
    var rows := AggregateByModel(tally);
    a, b := CostRows(rows);
    ghost var s := Sessions(files);
    forall m
      ensures W1h()(m) == Scaled(1.6, W5()(m)) && R()(m) == Scaled(0.08, W5()(m))
    {
      PricesProportional(m);
    }
    ColumnsConserve(files, W5());
    ColumnScales(s, InWindow, W5(), W1h(), 1.6);
    ColumnScales(s, Over60, W5(), W1h(), 1.6);
    ColumnScales(s, Idle5To60, W5(), R(), 0.08);
  }
}
