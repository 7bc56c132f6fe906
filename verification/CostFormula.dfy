/** The closed-form costs of Optimal and Aggregated merging
(simulation/formula_validation.py), and exactly when merging costs that much. */
module CostFormula {
  import opened MergeState
  import opened MergeRename
  import opened MergeCost
  import opened MergeSweep
  import opened Merging
  import opened MergingRun
  import opened Stages
  import opened InitialView
  import opened Arith

  /** One batch of stage `num` (counted from 1), which merges xi stripes of p
      original stripes each. When m is 0 the divisions by g + 1 are exact. */
  function FormulaBatch(par: Params, agg: bool, cauchy: bool, num: nat, p: nat, xi: nat): Cost {
    var m, bi := Left(par), par.b * p;
    var dc := (if agg then par.b / (par.g + 1) * (xi - 1) * (par.g + 1) * par.l else 0)
      + if m == 0 || num == 1 then 0 else (xi - 1) * par.g * par.l;
    Cost(if cauchy && m > 0 then par.l else 0, dc, FormulaFetch(par, agg, num, bi, xi))
  }

  /** GC of such a batch, whose groups have bi data blocks. */
  function FormulaFetch(par: Params, agg: bool, num: nat, bi: nat, xi: nat): int {
    var w, f := par.g + 1, par.b / (par.g + 1);
    if Left(par) == 0 then
      if agg then (bi / w * xi - f * (xi - 1)) * par.g * par.l else bi / w * par.g * par.l * xi
    else if FirstReal(par, num) then
      if agg then CeilDiv(par.b, w) * par.g * par.l else bi / w * par.g * par.l * xi + par.g * par.l
    else
      (((bi + 1) / w - 1) * par.g + (bi + 1) % w) * par.l * xi + par.g * par.l
      - (if agg then f * (xi - 1) * par.g * par.l else 0)
  }

  /** The stage the formulas take for the first one that merges. */
  predicate FirstReal(par: Params, num: nat) {
    var m := Left(par);
    (par.g > m > 0 && num == 1) || (m == par.g && num == 2)
  }

  function FormulaCost(par: Params, agg: bool, cauchy: bool, xs: seq<nat>, n: nat): Cost
    requires n < |xs| && Prod(xs) >= 1
  {
    if xs[n] == 1 then Free_
    else Times(StripesAfter(par, xs, n + 1), FormulaBatch(par, agg, cauchy, n + 1, Prod(xs[..n]), xs[n]))
  }

  ghost predicate FormulasAre(lc: seq<int>, dc: seq<int>, gc: seq<int>, total: seq<int>, par: Params, agg: bool,
          cauchy: bool, xs: seq<nat>, n: nat)
    requires n <= |xs| && Prod(xs) >= 1
  {
    && |lc| == |dc| == |gc| == |total| == n
    && forall i :: 0 <= i < n ==> var c := FormulaCost(par, agg, cauchy, xs, i);
      lc[i] == c.lc && dc[i] == c.dc && gc[i] == c.gc && total[i] == c.lc + c.dc + c.gc
  }

  lemma {:induction false} FormulaStart(par: Params, agg: bool, cauchy: bool, xs: seq<nat>)
    requires Prod(xs) == par.x >= 1
    ensures FormulasAre([], [], [], [], par, agg, cauchy, xs, 0) && StripesAfter(par, xs, 0) == par.x
    ensures Prod(xs[..0]) == 1
  {
    assert xs[..0] == [];
  }

  lemma {:induction false} FormulaStep(lc: seq<int>, dc: seq<int>, gc: seq<int>, total: seq<int>, par: Params,
          agg: bool, cauchy: bool, xs: seq<nat>, n: nat)
    requires n < |xs| && Prod(xs) >= 1 && FormulasAre(lc, dc, gc, total, par, agg, cauchy, xs, n)
    ensures var c := FormulaCost(par, agg, cauchy, xs, n);
      FormulasAre(lc + [c.lc], dc + [c.dc], gc + [c.gc], total + [c.lc + c.dc + c.gc], par, agg, cauchy, xs, n + 1)
  {
    hide FormulaCost;
  }

  lemma {:induction false} GroupSize(par: Params, k: nat, p: nat)
    requires par.l >= 1 && k == par.K() * p
    ensures k / par.l == par.b * p
  {
    assert k == par.b * p * par.l;
    DivIs(k, par.b * p, par.l);
  }

  /** The closed form of one stage, batch by batch. */
  method StageFormula(par: Params, agg: bool, cauchy: bool, num: nat, k: nat, x: nat, xi: nat, ghost p: nat,
          ghost live: nat) returns (cost: Cost)
    requires par.l >= 1 && k == par.K() * p && xi >= 1 && x == live * xi
    ensures cost == if xi == 1 then Free_ else Times(live, FormulaBatch(par, agg, cauchy, num, p, xi))
  {
    hide FormulaBatch; hide Times;
    var m := Left(par);
    cost := Free_;
    ghost var done, one := 0, FormulaBatch(par, agg, cauchy, num, p, xi);
    TimesStep(0, one);
    var s := 0;
    while s < x
      invariant s == done * xi && done <= live && cost == (if xi == 1 then Free_ else Times(done, one))
    {
      if xi == 1 { break; }
      TimesStep(done, one);
      var batch := BatchFormula(par, agg, cauchy, num, k, xi, p);
      cost := Plus(cost, batch);
      MulCancelLt(done, live, xi);
      s, done := s + xi, done + 1;
    }
    if xi != 1 && done < live { MulMono(done + 1, live, xi); }
  }

  method BatchFormula(par: Params, agg: bool, cauchy: bool, num: nat, k: nat, xi: nat, ghost p: nat)
    returns (cost: Cost)
    requires par.l >= 1 && k == par.K() * p
    ensures cost == FormulaBatch(par, agg, cauchy, num, p, xi)
  {
    hide Left;
    GroupSize(par, k, p);
    var m, bi, lc, dc, gc := Left(par), k / par.l, 0, 0, 0;
    if agg { dc := dc + par.b / (par.g + 1) * (xi - 1) * (par.g + 1) * par.l; }
    if m == 0 || num == 1 {
      dc := dc + 0;
    } else {
      dc := dc + (xi - 1) * par.g * par.l;
    }
    gc := FetchFormula(par, agg, num, bi, xi);
    if cauchy && m > 0 { lc := lc + par.l; }
    cost := Cost(lc, dc, gc);
  }

  method FetchFormula(par: Params, agg: bool, num: nat, bi: nat, xi: nat) returns (gc: int)
    ensures gc == FormulaFetch(par, agg, num, bi, xi)
  {
    hide Left;
    var m := Left(par);
    gc := 0;
    if m == 0 {
      if agg {
        gc := gc + (bi / (par.g + 1) * xi - par.b / (par.g + 1) * (xi - 1)) * par.g * par.l;
      } else {
        gc := gc + bi / (par.g + 1) * par.g * par.l * xi;
      }
    } else if (par.g > m > 0 && num == 1) || (m == par.g && num == 2) {
      if agg {
        gc := gc + CeilDiv(par.b, par.g + 1) * par.g * par.l;
      } else {
        gc := gc + (bi / (par.g + 1) * par.g * par.l * xi + par.g * par.l);
      }
    } else {
      gc := gc + ((((bi + 1) / (par.g + 1) - 1) * par.g + (bi + 1) % (par.g + 1)) * par.l * xi + par.g * par.l);
      if agg { gc := gc - par.b / (par.g + 1) * (xi - 1) * par.g * par.l; }
    }
  }

  /** cal_cost_for_opt, or cal_cost_for_agg. */
  method CalCost(par: Params, agg: bool, cauchy: bool, xs: seq<nat>)
    returns (lc: seq<int>, dc: seq<int>, gc: seq<int>, total: seq<int>)
    requires par.l >= 1 && Prod(xs) == par.x >= 1
    ensures FormulasAre(lc, dc, gc, total, par, agg, cauchy, xs, |xs|)
  {
    hide FormulasAre; hide StripesAfter; hide Prod; hide Left;
    lc, dc, gc, total := [], [], [], [];
    var num, k, x := 1, par.K(), par.x;
    FormulaStart(par, agg, cauchy, xs);
    for n := 0 to |xs|
      invariant num == n + 1 && x == StripesAfter(par, xs, n) && k == par.K() * Prod(xs[..n])
      invariant FormulasAre(lc, dc, gc, total, par, agg, cauchy, xs, n)
    {
      var xi := xs[n];
      FormulaStep(lc, dc, gc, total, par, agg, cauchy, xs, n);
      StripesStep(par, xs, n);
      ProdStep(xs, n);
      MulAssoc(par.K(), Prod(xs[..n]), xi);
      var cost := StageFormula(par, agg, cauchy, num, k, x, xi, Prod(xs[..n]), StripesAfter(par, xs, n + 1));
      num, x, k := num + 1, x / xi, k * xi;
      lc, dc, gc, total := lc + [cost.lc], dc + [cost.dc], gc + [cost.gc], total + [cost.lc + cost.dc + cost.gc];
    }
  }

  // ------------------------------------------------------------------
  // Formula against merging.

  lemma {:induction false} SameProduct(c: int, l: int, xi: int)
    ensures c * l * xi == xi * (l * c)
  {}

  /** One whole cluster more costs g more. */
  lemma {:induction false} CloseMore(par: Params, n: nat)
    ensures Close(par, n + par.g + 1) == Close(par, n) + par.g
  {
    var q := n / (par.g + 1);
    assert n == q * (par.g + 1) + n % (par.g + 1) && (q + 1) * (par.g + 1) == q * (par.g + 1) + par.g + 1;
    DivIs(n + par.g + 1, q + 1, par.g + 1);
    assert (q + 1) * par.g == q * par.g + par.g;
  }

  /** What the closed form counts outside the tails, per group and stripe. */
  function FormulaClose(par: Params, agg: bool, num: nat, p: nat): int {
    var bi := par.b * p;
    if Left(par) == 0 || (!agg && FirstReal(par, num)) then bi / (par.g + 1) * par.g
    else if FirstReal(par, num) then Full(par) * par.g
    else ((bi + 1) / (par.g + 1) - 1) * par.g + (bi + 1) % (par.g + 1)
  }

  lemma {:induction false} FormulaGc(par: Params, agg: bool, cauchy: bool, num: nat, p: nat, xi: nat)
    ensures FormulaBatch(par, agg, cauchy, num, p, xi).gc == (if HasTails(par) then par.l * par.g else 0)
      + par.l * PinsPer(par, agg) * par.g + xi * (par.l * (FormulaClose(par, agg, num, p) - PinsPer(par, agg) * par.g))
  {
    var f, q, c := PinsPer(par, agg), par.b * p / (par.g + 1), FormulaClose(par, agg, num, p);
    hide Left;
    if agg && Left(par) == 0 {
      FetchWhole(q, f, par.g, par.l, xi);
    } else if agg && FirstReal(par, num) {
      CeilIs(par);
      FetchFirst(f, par.g, par.l, xi);
    } else if agg {
      FetchLater(c, f, par.g, par.l, xi);
    } else {
      SameProduct(c, par.l, xi);
    }
  }

  lemma {:induction false} CeilIs(par: Params)
    requires HasTails(par)
    ensures CeilDiv(par.b, par.g + 1) == Full(par) + 1
  {
    FullLeft(par);
    assert (Full(par) + 1) * (par.g + 1) == Full(par) * (par.g + 1) + par.g + 1;
    DivIs(par.b + par.g, Full(par) + 1, par.g + 1);
  }

  lemma {:induction false} FetchFirst(f: int, g: int, l: int, xi: int)
    ensures (f + 1) * g * l == l * g + l * f * g + xi * (l * (f * g - f * g))
  {}

  lemma {:induction false} FetchWhole(q: int, f: int, g: int, l: int, xi: int)
    ensures (q * xi - f * (xi - 1)) * g * l == l * f * g + xi * (l * (q * g - f * g))
  {
    var u := (q - f) * xi;
    assert q * xi - f * (xi - 1) == u + f;
    assert (u + f) * g * l == u * (g * l) + f * (g * l);
    assert q * g - f * g == (q - f) * g;
    assert l * ((q - f) * g) == (q - f) * (g * l);
    assert xi * ((q - f) * (g * l)) == u * (g * l);
    assert l * f * g == f * (g * l);
  }

  lemma {:induction false} FetchLater(c: int, f: int, g: int, l: int, xi: int)
    ensures c * l * xi + g * l - f * (xi - 1) * g * l == l * g + l * f * g + xi * (l * (c - f * g))
  {
    var w := l * (f * g);
    assert l * (c - f * g) == l * c - w;
    assert xi * (l * c - w) == xi * (l * c) - xi * w;
    SameProduct(c, l, xi);
    assert l * f * g == w;
    assert f * (xi - 1) * g * l == (xi - 1) * w;
    assert (xi - 1) * w == xi * w - w;
  }

  /** Equal per group and stripe is equal per batch. */
  lemma {:induction false} CancelBatch(l: nat, xi: nat, a: int, b: int)
    requires l >= 1 && xi >= 1 && xi * (l * a) == xi * (l * b)
    ensures a == b
  {
    if l * a < l * b { MulMono(l * a + 1, l * b, xi); }
    if l * b < l * a { MulMono(l * b + 1, l * a, xi); }
    if a < b { MulMono(a + 1, b, l); }
    if b < a { MulMono(b + 1, a, l); }
  }

  /** Outside the tails after a stage that starts with full tails. */
  lemma {:induction false} CloseFull(par: Params, n: nat)
    requires n >= par.g
    ensures Close(par, n - par.g) == ((n + 1) / (par.g + 1) - 1) * par.g + (n + 1) % (par.g + 1)
  {
    CloseMore(par, n - par.g);
    var q := (n + 1) / (par.g + 1);
    assert (q - 1) * par.g == q * par.g - par.g;
  }

  lemma {:induction false} CloseShort(par: Params, a: int, r: nat, n: nat)
    requires n == a * (par.g + 1) - r && r <= par.g && n >= par.g >= 1
    ensures Close(par, n - par.g) == (a - 1) * par.g + if r == 0 then 1 else if r == 1 then 0 else 2 - r
    ensures n / (par.g + 1) == if r == 0 then a else a - 1
  {
    var w := par.g + 1;
    CloseFull(par, n);
    assert (a - 1) * w == a * w - w;
    if r == 0 {
      DivIs(n, a, w);
      DivIs(n + 1, a, w);
    } else {
      DivIs(n, a - 1, w);
      if r == 1 {
        DivIs(n + 1, a, w);
      } else {
        DivIs(n + 1, a - 1, w);
        assert (a - 2) * par.g == (a - 1) * par.g - par.g;
      }
    }
  }

  /** Group sizes in the stage after a first stage that merged x1 stripes, when m == g. */
  lemma {:induction false} SecondStage(par: Params, x1: nat)
    requires Left(par) == par.g >= 1 && x1 >= 1
    ensures par.b * x1 >= par.g
    ensures Close(par, par.b * x1 - par.g) == par.b * x1 / (par.g + 1) * par.g
      <==> x1 % (par.g + 1) == 1 || x1 % (par.g + 1) == 2 % (par.g + 1)
  {
    hide Close; hide Full; hide Left;
    FullLeft(par);
    MulGe(par.b, x1);
    var w, r, n := par.g + 1, x1 % (par.g + 1), par.b * x1;
    var a := (Full(par) + 1) * x1 - x1 / w;
    SecondSize(Full(par), x1, w);
    CloseShort(par, a, r, n);
    Shortfall(par.g, a, r, n / w);
    if par.g > 1 { DivIs(2, 0, w); } else { DivIs(2, 1, w); }
  }

  lemma {:induction false} Shortfall(g: nat, a: int, r: nat, q: int)
    requires g >= 1 && r <= g && q == if r == 0 then a else a - 1
    ensures (a - 1) * g + (if r == 0 then 1 else if r == 1 then 0 else 2 - r) == q * g
      <==> r == 1 || r == if g > 1 then 2 else 0
  {
    assert (a - 1) * g == a * g - g;
  }

  lemma {:induction false} SecondSize(f: nat, x1: nat, w: nat)
    requires w >= 1
    ensures (f * w + w - 1) * x1 == ((f + 1) * x1 - x1 / w) * w - x1 % w
  {
    var c, r := x1 / w, x1 % w;
    assert x1 == c * w + r;
    assert (f * w + w - 1) * x1 == (f + 1) * w * x1 - x1;
    assert ((f + 1) * x1 - c) * w == (f + 1) * x1 * w - c * w;
  }

  lemma {:induction false} EnoughForTails(b: nat, g: nat, m: nat, p: nat)
    requires 1 <= m <= b && g % m == 0 && p >= g / m
    ensures b * p >= g
  {
    MulMono(g / m, p, b);
    MulMono(m, b, g / m);
  }

  /** Stage n of a run starts with m blocks per tail only if nothing was merged. */
  lemma {:induction false} TailSizes(par: Params, xs: seq<nat>, n: nat)
    requires par.Ok() && ParametersOk(par, xs) && n < |xs| && xs[n] > 1 && HasTails(par)
    ensures Left(par) < par.g ==>
      (Prod(xs[..n]) == 1 <==> n == 0) && TailAt(par, xs, n) == if n == 0 then Left(par) else par.g
    ensures Left(par) == par.g ==> TailAt(par, xs, n) == par.g
    ensures par.b * Prod(xs[..n]) >= TailAt(par, xs, n) && Prod(xs[..n]) >= 1
  {
    hide Full; hide Left;
    ProdPrefix(xs, n);
    FullLeft(par);
    MulMono(0, Full(par), par.g + 1);
    var p, m := Prod(xs[..n]), Left(par);
    if n == 0 { assert xs[..0] == []; }
    if m < par.g {
      QuotientAboveOne(par.g, m);
      if n > 0 {
        ProdFirst(xs, n);
        EnoughForTails(par.b, par.g, m, p);
      }
    } else {
      MulGe(par.b, p);
    }
  }

  /** Where the closed form for fetches is right. */
  predicate GcHolds(par: Params, agg: bool, xs: seq<nat>, n: nat)
    requires n < |xs|
  {
    0 < Left(par) == par.g && n == 1 && xs[n] > 1 ==>
      if agg then xs[0] == 1 else xs[0] % (par.g + 1) == 1 || xs[0] % (par.g + 1) == 2 % (par.g + 1)
  }

  /** The same when the whole chunks of a group are aggregated. */
  lemma {:induction false} SecondStageAgg(par: Params, x1: nat)
    requires Left(par) == par.g >= 1 && x1 >= 1
    ensures par.b * x1 >= par.g
    ensures Close(par, par.b * x1 - par.g) == Full(par) * par.g <==> x1 == 1
  {
    hide Full; hide Left;
    FullLeft(par);
    MulGe(par.b, x1);
    CloseFirst(par);
    DivIs(par.b, Full(par), par.g + 1);
    if x1 > 1 {
      MulMono(2, x1, par.b);
      CloseAbove(par, Full(par), par.b * x1 - par.g);
    }
  }

  lemma {:induction false} CloseAbove(par: Params, f: nat, n: nat)
    requires par.g >= 1 && n >= f * (par.g + 1) + par.g
    ensures Close(par, n) > f * par.g
  {
    var q := n / (par.g + 1);
    DivAtLeast(n, f, par.g + 1);
    assert n == q * (par.g + 1) + n % (par.g + 1);
    if q > f {
      MulMono(f + 1, q, par.g);
      assert (f + 1) * par.g == f * par.g + par.g;
    }
  }

  lemma {:induction false} CloseNoTails(par: Params, p: nat)
    requires Left(par) == 0
    ensures Close(par, par.b * p) == par.b * p / (par.g + 1) * par.g
  {
    FullLeft(par);
    assert par.b * p == (Full(par) * p) * (par.g + 1);
    DivIs(par.b * p, Full(par) * p, par.g + 1);
  }

  lemma {:induction false} CloseFirst(par: Params)
    ensures par.b >= Left(par) && Close(par, par.b - Left(par)) == par.b / (par.g + 1) * par.g
  {
    FullLeft(par);
    DivIs(par.b - Left(par), Full(par), par.g + 1);
  }

  lemma {:induction false} CloseMatches(par: Params, agg: bool, xs: seq<nat>, n: nat)
    requires par.Ok() && ParametersOk(par, xs) && n < |xs| && xs[n] > 1
    ensures var before := Beyond(par, StagePhase(par, xs, n), HasTails(par));
      before >= 0 && (Close(par, before) == FormulaClose(par, agg, n + 1, Prod(xs[..n])) <==> GcHolds(par, agg, xs, n))
  {
    hide Close; hide ParametersOk;
    ProdPositive(par, xs);
    ProdPrefix(xs, n);
    FullLeft(par);
    hide Left;
    var p, m := Prod(xs[..n]), Left(par);
    if m == 0 {
      CloseNoTails(par, p);
    } else {
      TailSizes(par, xs, n);
      if m < par.g && n == 0 {
        CloseFirst(par);
        assert par.b * p == par.b;
      } else if m == par.g && n == 1 {
        ProdStep(xs, 0);
        assert xs[..0] == [];
        SecondStage(par, p);
        SecondStageAgg(par, p);
      } else {
        CloseFull(par, par.b * p);
      }
    }
  }

  /** One stage: local parities always cost what the formula says; relocation does
      except in a first stage with m == g; fetching does exactly when GcHolds. */
  lemma {:induction false} StageAgrees(par: Params, agg: bool, cauchy: bool, xs: seq<nat>, n: nat)
    requires par.Ok() && ParametersOk(par, xs) && n < |xs| && Prod(xs) >= 1
    ensures var actual, formula := StageCost(par, agg, cauchy, xs, n), FormulaCost(par, agg, cauchy, xs, n);
      && actual.lc == formula.lc
      && (actual.dc == formula.dc <==> !(0 < Left(par) == par.g && n == 0 && xs[n] > 1))
      && (actual.gc == formula.gc <==> GcHolds(par, agg, xs, n))
  {
    ProdPositive(par, xs);
    StripesStep(par, xs, n);
    if xs[n] > 1 {
      hide StripesAfter;
      BatchAgrees(par, agg, cauchy, xs, n);
      StripesPositive(par, xs, n + 1);
      var live := StripesAfter(par, xs, n + 1);
      var a := BatchCost(par, cauchy, StagePhase(par, xs, n), HasTails(par), PinsPer(par, agg));
      var b := FormulaBatch(par, agg, cauchy, n + 1, Prod(xs[..n]), xs[n]);
      hide BatchCost; hide FormulaBatch; hide GcHolds; hide StagePhase;
      SameTimes(live, a.dc, b.dc);
      SameTimes(live, a.gc, b.gc);
    }
  }

  lemma {:induction false} SameTimes(n: nat, a: int, b: int)
    requires n >= 1
    ensures n * a == n * b <==> a == b
  {
    if a < b { MulMono(a + 1, b, n); }
    if b < a { MulMono(b + 1, a, n); }
  }

  lemma {:induction false} StripesPositive(par: Params, xs: seq<nat>, n: nat)
    requires n <= |xs| && Prod(xs) == par.x >= 1
    ensures StripesAfter(par, xs, n) >= 1
  {
    ProdPrefix(xs, n);
  }

  lemma {:induction false} BatchAgrees(par: Params, agg: bool, cauchy: bool, xs: seq<nat>, n: nat)
    requires par.Ok() && ParametersOk(par, xs) && n < |xs| && Prod(xs) >= 1 && xs[n] > 1
    ensures var actual := BatchCost(par, cauchy, StagePhase(par, xs, n), HasTails(par), PinsPer(par, agg));
      var formula := FormulaBatch(par, agg, cauchy, n + 1, Prod(xs[..n]), xs[n]);
      && actual.lc == formula.lc
      && (actual.dc == formula.dc <==> !(0 < Left(par) == par.g && n == 0))
      && (actual.gc == formula.gc <==> GcHolds(par, agg, xs, n))
  {
    BatchDcAgrees(par, agg, cauchy, xs, n);
    BatchGcAgrees(par, agg, cauchy, xs, n);
  }

  lemma {:induction false} BatchGcAgrees(par: Params, agg: bool, cauchy: bool, xs: seq<nat>, n: nat)
    requires par.Ok() && ParametersOk(par, xs) && n < |xs| && Prod(xs) >= 1 && xs[n] > 1
    ensures BatchGc(par, StagePhase(par, xs, n), HasTails(par), PinsPer(par, agg)) ==
      FormulaBatch(par, agg, cauchy, n + 1, Prod(xs[..n]), xs[n]).gc
      <==> GcHolds(par, agg, xs, n)
  {
    hide Close; hide FormulaBatch; hide FormulaClose; hide GcHolds; hide ParametersOk; hide Beyond; hide Left;
    CloseMatches(par, agg, xs, n);
    FormulaGc(par, agg, cauchy, n + 1, Prod(xs[..n]), xs[n]);
    var a := Close(par, Beyond(par, StagePhase(par, xs, n), HasTails(par)));
    var b := FormulaClose(par, agg, n + 1, Prod(xs[..n]));
    var w := PinsPer(par, agg) * par.g;
    if xs[n] * (par.l * (a - w)) == xs[n] * (par.l * (b - w)) { CancelBatch(par.l, xs[n], a - w, b - w); }
  }

  /** Blocks that leave one tail, in the terms of the formula. */
  lemma {:induction false} SurplusIs(par: Params, xs: seq<nat>, n: nat)
    requires par.Ok() && ParametersOk(par, xs) && n < |xs| && Prod(xs) >= 1 && xs[n] > 1 && HasTails(par)
    ensures Surplus(par, StagePhase(par, xs, n), true) == if Left(par) < par.g && n == 0 then 0 else (xs[n] - 1) * par.g
  {
    TailSizes(par, xs, n);
    FullLeft(par);
    if Left(par) < par.g && n == 0 { FirstFills(par, xs); }
    assert (xs[n] - 1) * par.g == xs[n] * par.g - par.g;
  }

  lemma {:induction false} PositiveProduct(a: nat, b: nat, c: nat)
    requires a >= 1 && b >= 1 && c >= 1
    ensures c * (a * b) >= 1 && c * (a * b) == a * b * c
  {
    MulMono(1, a, b);
    MulMono(1, c, a * b);
  }

  /** Blocks relocated per batch besides the aggregated ones. */
  function TailMoves(par: Params, xi: nat, none: bool): int { if none then 0 else (xi - 1) * par.g * par.l }

  lemma {:induction false} BatchDcIs(par: Params, agg: bool, xs: seq<nat>, n: nat)
    requires par.Ok() && ParametersOk(par, xs) && n < |xs| && Prod(xs) >= 1 && xs[n] > 1
    ensures BatchDc(par, StagePhase(par, xs, n), HasTails(par), PinsPer(par, agg)) ==
      (if agg then par.b / (par.g + 1) * (xs[n] - 1) * (par.g + 1) * par.l else 0)
      + TailMoves(par, xs[n], Left(par) == 0 || (Left(par) < par.g && n == 0))
  {
    PinSurplus(par, xs[n], StagePhase(par, xs, n));
    if HasTails(par) {
      SurplusIs(par, xs, n);
      Regroup3((xs[n] - 1), par.g, par.l);
    }
    hide Surplus; hide StagePhase; hide ParametersOk; hide Left;
  }

  lemma {:induction false} Regroup3(a: int, b: int, c: int)
    ensures c * (a * b) == a * b * c && c * 0 == 0
  {}

  lemma {:induction false} BatchDcAgrees(par: Params, agg: bool, cauchy: bool, xs: seq<nat>, n: nat)
    requires par.Ok() && ParametersOk(par, xs) && n < |xs| && Prod(xs) >= 1 && xs[n] > 1
    ensures BatchDc(par, StagePhase(par, xs, n), HasTails(par), PinsPer(par, agg)) ==
      FormulaBatch(par, agg, cauchy, n + 1, Prod(xs[..n]), xs[n]).dc
      <==> !(0 < Left(par) == par.g && n == 0)
  {
    BatchDcIs(par, agg, xs, n);
    FullLeft(par);
    hide BatchDc; hide StagePhase; hide ParametersOk; hide Left;
    if par.g >= 1 { PositiveProduct(xs[n] - 1, par.g, par.l); }
  }

  /** Blocks that leave the aggregated clusters, in the terms of the formula. */
  lemma {:induction false} PinSurplus(par: Params, xi: nat, ph: Phase)
    requires ph.xi == xi
    ensures par.l * Full(par) * Surplus(par, ph, false) == par.b / (par.g + 1) * (xi - 1) * (par.g + 1) * par.l
  {
    assert Surplus(par, ph, false) == (xi - 1) * (par.g + 1);
    Regroup4(Full(par), xi - 1, par.g + 1, par.l);
  }

  lemma {:induction false} Regroup4(a: int, b: int, c: int, d: int)
    ensures d * a * (b * c) == a * b * c * d
  {
    assert a * b * c == a * (b * c);
    assert d * a * (b * c) == d * (a * (b * c));
  }

  lemma {:induction false} FirstFills(par: Params, xs: seq<nat>)
    requires par.Ok() && ParametersOk(par, xs) && 0 < |xs| && 0 < Left(par) < par.g
    ensures xs[0] * Left(par) == par.g
  {
    QuotientAboveOne(par.g, Left(par));
  }

  /** The first stage fills the tails, or there are none. */
  predicate FirstFull(par: Params, xs: seq<nat>)
    requires xs != []
  {
    var m := Left(par);
    m == 0 || (par.g % m == 0 && xs[0] == par.g / m)
  }

  lemma {:induction false} FirstFullIs(par: Params, xs: seq<nat>)
    requires par.Ok() && ParametersOk(par, xs) && xs != []
    ensures FirstFull(par, xs) <==> !(0 < Left(par) == par.g && xs[0] > 1)
    ensures FirstFull(par, xs) ==> forall n, agg :: 0 <= n < |xs| ==> GcHolds(par, agg, xs, n)
  {
    ProdPositive(par, xs);
    StripesStep(par, xs, 0);
    var m := Left(par);
    if 0 < m == par.g {
      DivIs(par.g, 1, m);
      DivIs(1, 0, par.g + 1);
    }
  }

  /** Merging costs what the closed forms say at every stage iff m == 0 or the
      first stage fills the tails, stage_x[0] == g / m. */
  lemma {:induction false} RunAgrees(par: Params, agg: bool, cauchy: bool, xs: seq<nat>)
    requires par.Ok() && ParametersOk(par, xs) && xs != []
    ensures Prod(xs) >= 1
    ensures (forall n :: 0 <= n < |xs| ==>
      StageCost(par, agg, cauchy, xs, n) == FormulaCost(par, agg, cauchy, xs, n)) <==> FirstFull(par, xs)
  {
    hide StageCost; hide FormulaCost; hide ParametersOk; hide GcHolds; hide FirstFull; hide Left;
    ProdPositive(par, xs);
    FirstFullIs(par, xs);
    forall n | 0 <= n < |xs| && FirstFull(par, xs)
      ensures StageCost(par, agg, cauchy, xs, n) == FormulaCost(par, agg, cauchy, xs, n)
    {
      StageAgrees(par, agg, cauchy, xs, n);
    }
    StageAgrees(par, agg, cauchy, xs, 0);
  }

  /** Accepted parameters whose first stage moves blocks the formula does not
      count: one group of two, two global parities, two stripes merged at once. */
  lemma {:induction false} FormulaMisses(agg: bool)
    ensures ParametersOk(Params(1, 2, 2, 2), [2]) && Prod([2]) == 2
    ensures StageCost(Params(1, 2, 2, 2), agg, false, [2], 0).dc
      != FormulaCost(Params(1, 2, 2, 2), agg, false, [2], 0).dc
  {
    assert [2][..0] == [];
    StageAgrees(Params(1, 2, 2, 2), agg, false, [2], 0);
  }
}
