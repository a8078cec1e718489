/** The function table of ExpressionEvaluator: a case-insensitive map from
    a name to a function of the argument array. The Math library functions
    are parameters (`MathLib`); the rest is written out over `real`. */
module Registry {
  import opened Syntax
  import opened Lexer

  /** `Math.Sin` ... `Math.Pow`, which the model does not interpret. */
  datatype MathLib = MathLib(
    sin: real -> real, cos: real -> real, tan: real -> real,
    asin: real -> real, acos: real -> real, atan: real -> real,
    sqrt: real -> real, ln: real -> real, log10: real -> real,
    pow: (real, real) -> real)

  /** The table's keys, in lower case. */
  const Names: set<string> :=
    {"sin", "cos", "tan", "asin", "acos", "atan", "sqrt", "abs", "ln", "log",
     "pow", "min", "max", "pct", "pmt", "fv", "pv", "nper"}

  /** The table lookup with `StringComparer.OrdinalIgnoreCase`. */
  predicate IsKnown(name: string) {
    Lower(name) in Names
  }

  /** Lower-case names are found as they are. */
  lemma LowerCaseKnown(name: string)
    requires forall k :: 0 <= k < |name| ==> 'a' <= name[k] <= 'z'
    ensures IsKnown(name) <==> name in Names
  {
    assert Lower(name) == name;
  }

  /** `a[k]`, which throws when the call supplied fewer arguments. */
  function Arg(a: seq<real>, k: nat): (r: Result<real>)
    ensures r.Ok? <==> k < |a|
    ensures r.Ok? ==> r.value == a[k]
    ensures r.Err? ==> r.error == IndexOutOfRange
  {
    if k < |a| then Ok(a[k]) else Err(IndexOutOfRange)
  }

  /** `a.Length > k ? a[k] : 0.0` */
  function Optional(a: seq<real>, k: nat): real {
    if |a| > k then a[k] else 0.0
  }

  /** A floating-point quotient, reported as an error where .NET would
      produce an infinity or NaN. */
  function Quotient(x: real, y: real): (r: Result<real>)
    ensures r.Ok? <==> y != 0.0
    ensures r.Ok? ==> r.value * y == x
  {
    if y == 0.0 then Err(NonFinite) else Ok(x / y)
  }

  function Abs(x: real): real {
    if x < 0.0 then -x else x
  }

  /** The rates the financial functions treat as zero (`Math.Abs(rate) < 1e-12`). */
  predicate NearZero(rate: real) {
    Abs(rate) < 0.000000000001
  }

  /** `a.Min()` */
  function Minimum(a: seq<real>): (m: real)
    requires |a| > 0
    ensures m in a
    ensures forall k :: 0 <= k < |a| ==> m <= a[k]
  {
    if |a| == 1 then a[0]
    else
      var rest := Minimum(a[1..]);
      assert forall k :: 1 <= k < |a| ==> a[k] == a[1..][k - 1];
      if a[0] <= rest then a[0] else rest
  }

  /** `a.Max()` */
  function Maximum(a: seq<real>): (m: real)
    requires |a| > 0
    ensures m in a
    ensures forall k :: 0 <= k < |a| ==> a[k] <= m
  {
    if |a| == 1 then a[0]
    else
      var rest := Maximum(a[1..]);
      assert forall k :: 1 <= k < |a| ==> a[k] == a[1..][k - 1];
      if rest <= a[0] then a[0] else rest
  }

  /** min/max over an array: `Enumerable.Min` throws on an empty sequence. */
  function Extreme(a: seq<real>, max: bool): (r: Result<real>)
    ensures r.Ok? <==> |a| > 0
    ensures r.Err? ==> r.error == NoElements
  {
    if |a| == 0 then Err(NoElements)
    else if max then Ok(Maximum(a)) else Ok(Minimum(a))
  }

  /** The arguments of a financial function, `(rate, nper or pmt, pv or pmt,
      fv or pv, type)`: three it reads unconditionally, two that default to 0. */
  function CashArgs(a: seq<real>): (r: Result<(real, real, real, real, real)>)
    ensures r.Ok? <==> |a| >= 3
    ensures r.Err? ==> r.error == IndexOutOfRange
    ensures r.Ok? ==> r.value == (a[0], a[1], a[2], if |a| > 3 then a[3] else 0.0, if |a| > 4 then a[4] else 0.0)
  {
    var x :- Arg(a, 0);
    var y :- Arg(a, 1);
    var z :- Arg(a, 2);
    Ok((x, y, z, Optional(a, 3), Optional(a, 4)))
  }

  /** The body of pmt(rate, nper, pv, fv, type). */
  function Payment(lib: MathLib, rate: real, nper: real, pv: real, fv: real, timing: real): Result<real> {
    if NearZero(rate) then Quotient(-(pv + fv), nper)
    else
      var r1 := lib.pow(1.0 + rate, nper);
      Quotient(-(rate * (pv * r1 + fv)), (1.0 + rate * timing) * (r1 - 1.0))
  }

  /** The body of fv(rate, nper, pmt, pv, type). */
  function FutureValue(lib: MathLib, rate: real, nper: real, pmt: real, pv: real, timing: real): real {
    if NearZero(rate) then -(pv + pmt * nper)
    else
      var r1 := lib.pow(1.0 + rate, nper);
      -(pv * r1 + pmt * (1.0 + rate * timing) * (r1 - 1.0) / rate)
  }

  /** The body of pv(rate, nper, pmt, fv, type). */
  function PresentValue(lib: MathLib, rate: real, nper: real, pmt: real, fv: real, timing: real): Result<real> {
    if NearZero(rate) then Ok(-(fv + pmt * nper))
    else
      var r1 := lib.pow(1.0 + rate, nper);
      Quotient(-(fv + pmt * (1.0 + rate * timing) * (r1 - 1.0) / rate), r1)
  }

  /** The body of nper(rate, pmt, pv, fv, type). */
  function Periods(lib: MathLib, rate: real, pmt: real, pv: real, fv: real, timing: real): Result<real> {
    if NearZero(rate) then Quotient(-(pv + fv), pmt)
    else
      var ratio :- Quotient(pmt * (1.0 + rate * timing) - fv * rate, pmt * (1.0 + rate * timing) + pv * rate);
      Quotient(lib.ln(ratio), lib.ln(1.0 + rate))
  }

  /** The table entry `key` (a lower-case name) applied to the argument array. */
  function Apply(lib: MathLib, key: string, a: seq<real>): Result<real>
    requires key in Names
  {
    if key == "sin" then var x :- Arg(a, 0); Ok(lib.sin(x))
    else if key == "cos" then var x :- Arg(a, 0); Ok(lib.cos(x))
    else if key == "tan" then var x :- Arg(a, 0); Ok(lib.tan(x))
    else if key == "asin" then var x :- Arg(a, 0); Ok(lib.asin(x))
    else if key == "acos" then var x :- Arg(a, 0); Ok(lib.acos(x))
    else if key == "atan" then var x :- Arg(a, 0); Ok(lib.atan(x))
    else if key == "sqrt" then var x :- Arg(a, 0); Ok(lib.sqrt(x))
    else if key == "abs" then var x :- Arg(a, 0); Ok(Abs(x))
    else if key == "ln" then var x :- Arg(a, 0); Ok(lib.ln(x))
    else if key == "log" then var x :- Arg(a, 0); Ok(lib.log10(x))
    else if key == "pow" then var x :- Arg(a, 0); var y :- Arg(a, 1); Ok(lib.pow(x, y))
    else if key == "min" then Extreme(a, false)
    else if key == "max" then Extreme(a, true)
    else if key == "pct" then var x :- Arg(a, 0); Ok(x / 100.0)
    else
      var c :- CashArgs(a);
      if key == "pmt" then Payment(lib, c.0, c.1, c.2, c.3, c.4)
      else if key == "fv" then Ok(FutureValue(lib, c.0, c.1, c.2, c.3, c.4))
      else if key == "pv" then PresentValue(lib, c.0, c.1, c.2, c.3, c.4)
      else Periods(lib, c.0, c.1, c.2, c.3, c.4)
  }

  /** Looking `name` up in the table and applying what is found. */
  function Call(lib: MathLib, name: string, a: seq<real>): (r: Result<real>)
    ensures !IsKnown(name) <==> r == Err(UnknownFunction(name))
  {
    if IsKnown(name) then
      var r := Apply(lib, Lower(name), a);
      assert r != Err(UnknownFunction(name));
      r
    else Err(UnknownFunction(name))
  }

  // ---------------------------------------------------------------------
  // Properties of the table

  /** The number of leading arguments entry `key` reads unconditionally. */
  function Arity(key: string): nat {
    if key in {"min", "max"} then 0
    else if key == "pow" then 2
    else if key in {"pmt", "fv", "pv", "nper"} then 3
    else 1
  }

  /** A known function called with too few arguments fails with an index
      error (or, for min and max, the empty-sequence error); with enough
      arguments it never fails for want of one. */
  lemma {:induction false} ArityErrors(lib: MathLib, name: string, a: seq<real>)
    requires IsKnown(name)
    ensures |a| < Arity(Lower(name)) <==> Call(lib, name, a) == Err(IndexOutOfRange)
    ensures Lower(name) in {"min", "max"} ==> (|a| == 0 <==> Call(lib, name, a) == Err(NoElements))
  {
    var key := Lower(name);
    if key in {"pmt", "pv", "nper"} && |a| >= 3 {
      var c := CashArgs(a).value;
      var r := Apply(lib, key, a);
      assert r.Err? ==> r.error == NonFinite;
    }
  }

  /** The fourth and fifth arguments of the financial functions default to 0. */
  lemma DefaultArguments(lib: MathLib, key: string, x: real, y: real, z: real, w: real)
    requires key in {"pmt", "fv", "pv", "nper"}
    ensures Apply(lib, key, [x, y, z]) == Apply(lib, key, [x, y, z, 0.0, 0.0])
    ensures Apply(lib, key, [x, y, z, w]) == Apply(lib, key, [x, y, z, w, 0.0])
  {
    assert CashArgs([x, y, z]) == CashArgs([x, y, z, 0.0, 0.0]);
    assert CashArgs([x, y, z, w]) == CashArgs([x, y, z, w, 0.0]);
  }

  /** The zero-rate cash-flow balance: the present value, `nper` payments and
      the future value add up to nothing. */
  predicate Linear(nper: real, pmt: real, pv: real, fv: real) {
    pv + pmt * nper + fv == 0.0
  }

  /** The time-value-of-money equation for a non-zero rate, with
      `growth` = (1 + rate)^nper. */
  predicate Annuity(rate: real, growth: real, pmt: real, pv: real, fv: real, timing: real)
    requires rate != 0.0
  {
    pv * growth + pmt * (1.0 + rate * timing) * (growth - 1.0) / rate + fv == 0.0
  }

  /** A payment that satisfies the cross-multiplied form of pmt's quotient
      balances the annuity equation. */
  lemma PaymentBalances(rate: real, growth: real, pv: real, fv: real, timing: real, p: real)
    requires rate != 0.0
    requires p * ((1.0 + rate * timing) * (growth - 1.0)) == -(rate * (pv * growth + fv))
    ensures Annuity(rate, growth, p, pv, fv, timing)
  {
    var c := 1.0 + rate * timing;
    var n := -(rate * (pv * growth + fv));
    assert p * c * (growth - 1.0) == n;
    assert n / rate == -(pv * growth + fv);
    assert p * c * (growth - 1.0) / rate == -(pv * growth + fv);
  }

  /** pmt solves the cash-flow equation for the payment; it fails exactly
      when the equation has no unique solution. */
  lemma PaymentSolves(lib: MathLib, rate: real, nper: real, pv: real, fv: real, timing: real)
    ensures var r := Payment(lib, rate, nper, pv, fv, timing);
      && (NearZero(rate) ==> (r.Ok? <==> nper != 0.0) && (r.Ok? ==> Linear(nper, r.value, pv, fv)))
      && (!NearZero(rate) ==>
            var growth := lib.pow(1.0 + rate, nper);
            && rate != 0.0
            && (r.Ok? <==> (1.0 + rate * timing) * (growth - 1.0) != 0.0)
            && (r.Ok? ==> Annuity(rate, growth, r.value, pv, fv, timing)))
  {
    var r := Payment(lib, rate, nper, pv, fv, timing);
    if !NearZero(rate) && r.Ok? {
      PaymentBalances(rate, lib.pow(1.0 + rate, nper), pv, fv, timing, r.value);
    }
  }

  /** fv solves the cash-flow equation for the future value. */
  lemma FutureValueSolves(lib: MathLib, rate: real, nper: real, pmt: real, pv: real, timing: real)
    ensures var f := FutureValue(lib, rate, nper, pmt, pv, timing);
      && (NearZero(rate) ==> Linear(nper, pmt, pv, f))
      && (!NearZero(rate) ==> rate != 0.0 && Annuity(rate, lib.pow(1.0 + rate, nper), pmt, pv, f, timing))
  {
  }

  /** pv solves the cash-flow equation for the present value; at a non-zero
      rate it fails exactly when the growth factor is 0. */
  lemma PresentValueSolves(lib: MathLib, rate: real, nper: real, pmt: real, fv: real, timing: real)
    ensures var r := PresentValue(lib, rate, nper, pmt, fv, timing);
      && (NearZero(rate) ==> r.Ok? && Linear(nper, pmt, r.value, fv))
      && (!NearZero(rate) ==>
            var growth := lib.pow(1.0 + rate, nper);
            && rate != 0.0
            && (r.Ok? <==> growth != 0.0)
            && (r.Ok? ==> Annuity(rate, growth, pmt, r.value, fv, timing)))
  {
  }

  /** At a zero rate nper solves the cash-flow equation for the number of
      periods, and fails exactly when the payment is 0. */
  lemma PeriodsSolveAtZeroRate(lib: MathLib, rate: real, pmt: real, pv: real, fv: real, timing: real)
    requires NearZero(rate)
    ensures var r := Periods(lib, rate, pmt, pv, fv, timing);
      && (r.Ok? <==> pmt != 0.0)
      && (r.Ok? ==> Linear(r.value, pmt, pv, fv))
  {
  }

  /** At a zero rate the four financial functions are inverses of each other:
      the payment pmt computes gives back the other three quantities. */
  lemma ZeroRateInverses(lib: MathLib, nper: real, pv: real, fv: real, p: real)
    requires Payment(lib, 0.0, nper, pv, fv, 0.0) == Ok(p)
    ensures FutureValue(lib, 0.0, nper, p, pv, 0.0) == fv
    ensures PresentValue(lib, 0.0, nper, p, fv, 0.0) == Ok(pv)
    ensures p != 0.0 ==> Periods(lib, 0.0, p, pv, fv, 0.0) == Ok(nper)
  {
    PaymentSolves(lib, 0.0, nper, pv, fv, 0.0);
    FutureValueSolves(lib, 0.0, nper, p, pv, 0.0);
    PresentValueSolves(lib, 0.0, nper, p, fv, 0.0);
    if p != 0.0 {
      PeriodsSolveAtZeroRate(lib, 0.0, p, pv, fv, 0.0);
      var n := Periods(lib, 0.0, p, pv, fv, 0.0).value;
      assert p * n == p * nper;
    }
  }

  /** pmt(0, 12, -1200) = 100: a loan of 1200 repaid in 12 interest-free
      instalments. */
  lemma PmtZeroRateExample(lib: MathLib)
    ensures Call(lib, "pmt", [0.0, 12.0, -1200.0]) == Ok(100.0)
  {
    assert Lower("pmt") == "pmt";
    assert CashArgs([0.0, 12.0, -1200.0]) == Ok((0.0, 12.0, -1200.0, 0.0, 0.0));
  }
}
