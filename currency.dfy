/**
 * The currency section's arithmetic (src/components/currency-section.tsx): the rate table
 * keyed by code, the rows it displays, and the converter that goes through BYN using the
 * National Bank's official rate per `scale` units. Numbers are exact reals.
 */
module Currency {

  const BYN := "BYN"
  const MAJOR := ["USD", "EUR", "RUB", "PLN", "UAH", "CNY", "GBP", "CHF", "JPY"]

  /** An `NBRBRate` row: the fields the section reads. */
  datatype Rate = Rate(abbreviation: string, officialRate: real, scale: real)

  /** `{ rate, scale }`: BYN for `scale` units of the currency. */
  datatype Info = Info(rate: real, scale: real)

  const BYN_INFO := Info(1.0, 1.0)

  function InfoOf(r: Rate): Info {
    Info(r.officialRate, r.scale)
  }

  /** `Object.fromEntries(rates.map(...))`: each entry overwrites an earlier one with the same code. */
  function ByCode(rates: seq<Rate>): (m: map<string, Info>)
    ensures m.Keys == set i | 0 <= i < |rates| :: rates[i].abbreviation
  {
    if rates == [] then map[]
    else
      var last := rates[|rates| - 1];
      var prev := rates[..|rates| - 1];
      var m := ByCode(prev);
      assert (set i | 0 <= i < |rates| :: rates[i].abbreviation)
          == (set i | 0 <= i < |prev| :: prev[i].abbreviation) + {last.abbreviation};
      m[last.abbreviation := InfoOf(last)]
  }

  /** For a code that occurs more than once, the last row wins. */
  lemma {:induction false} ByCodeLastWins(rates: seq<Rate>, i: nat)
    requires i < |rates|
    requires forall j :: i < j < |rates| ==> rates[j].abbreviation != rates[i].abbreviation
    ensures rates[i].abbreviation in ByCode(rates)
    ensures ByCode(rates)[rates[i].abbreviation] == InfoOf(rates[i])
  {
    if i < |rates| - 1 {
      var prev := rates[..|rates| - 1];
      ByCodeLastWins(prev, i);
    }
  }

  /** `MAJOR.includes(code)`. */
  predicate IsMajor(code: string) {
    code in MAJOR
  }

  /** `rates.filter(...)`: the rows of the major currencies. */
  function DisplayRates(rates: seq<Rate>): (r: seq<Rate>)
    ensures forall x :: x in r <==> x in rates && IsMajor(x.abbreviation)
    ensures |r| <= |rates|
  {
    if rates == [] then []
    else (if IsMajor(rates[0].abbreviation) then [rates[0]] else []) + DisplayRates(rates[1..])
  }

  /** `a` is `b` with some elements dropped. */
  predicate IsSubsequence<T(==)>(a: seq<T>, b: seq<T>)
    decreases |b|
  {
    if a == [] then true
    else if b == [] then false
    else (a[0] == b[0] && IsSubsequence(a[1..], b[1..])) || IsSubsequence(a, b[1..])
  }

  /** The displayed rows keep their original order. */
  lemma {:induction false} DisplayRatesKeepOrder(rates: seq<Rate>)
    ensures IsSubsequence(DisplayRates(rates), rates)
  {
    if rates != [] {
      var rest := DisplayRates(rates[1..]);
      DisplayRatesKeepOrder(rates[1..]);
      if IsMajor(rates[0].abbreviation) {
        assert DisplayRates(rates) == [rates[0]] + rest;
        assert ([rates[0]] + rest)[1..] == rest;
      } else {
        assert DisplayRates(rates) == rest;
      }
    }
  }

  /** A JavaScript number: a real, or an `Infinity`/`NaN` from dividing by zero. */
  datatype Num = Num(value: real) | NonFinite

  /** `convert(from, to, val)`; `table` is `byCode`. */
  function Convert(table: map<string, Info>, from: string, to: string, val: real): (r: Num)
    ensures from == to ==> r == Num(val)
    ensures from != to && ((from != BYN && from !in table) || (to != BYN && to !in table)) ==> r == Num(0.0)
  {
    if from == to then Num(val)
    else if (from != BYN && from !in table) || (to != BYN && to !in table) then Num(0.0)
    else
      var fromInfo := if from == BYN then BYN_INFO else table[from];
      var toInfo := if to == BYN then BYN_INFO else table[to];
      if from != BYN && fromInfo.scale == 0.0 then NonFinite
      else
        var inByn := if from == BYN then val else val * fromInfo.rate / fromInfo.scale;
        if to == BYN then Num(inByn)
        else if toInfo.rate == 0.0 then NonFinite
        else Num(inByn * toInfo.scale / toInfo.rate)
  }

  /** A code the converter knows: BYN or a key of the table. */
  predicate Known(table: map<string, Info>, code: string) {
    code == BYN || code in table
  }

  /** To BYN is `val * rate / scale`; from BYN is `val * scale / rate`. */
  lemma ConvertWithByn(table: map<string, Info>, code: string, val: real)
    requires code != BYN && code in table
    ensures table[code].scale != 0.0 ==>
              Convert(table, code, BYN, val) == Num(val * table[code].rate / table[code].scale)
    ensures table[code].rate != 0.0 ==>
              Convert(table, BYN, code, val) == Num(val * table[code].scale / table[code].rate)
  {
  }

  /** Between two known currencies the conversion goes through BYN. */
  lemma ConvertThroughByn(table: map<string, Info>, from: string, to: string, val: real)
    requires from != to && Known(table, from) && Known(table, to)
    ensures Convert(table, from, to, val) ==
              match Convert(table, from, BYN, val)
              case Num(inByn) => Convert(table, BYN, to, inByn)
              case NonFinite => NonFinite
  {
  }

  /** With exact arithmetic and non-zero rates and scales, converting there and back returns the amount. */
  lemma ConvertRoundTrip(table: map<string, Info>, from: string, to: string, val: real)
    requires Known(table, from) && Known(table, to)
    requires from in table ==> table[from].rate != 0.0 && table[from].scale != 0.0
    requires to in table ==> table[to].rate != 0.0 && table[to].scale != 0.0
    ensures Convert(table, from, to, val).Num?
    ensures Convert(table, to, from, Convert(table, from, to, val).value) == Num(val)
  {
    if from != to && from != BYN && to != BYN {
      RoundTripBetween(table, from, to, val);
    } else if from != to && from != BYN {
      RoundTripViaByn(table, from, val);
    } else if from != to && to != BYN {
      RoundTripViaByn(table, to, val);
      DivMulCancel(val, table[to].scale, table[to].rate);
    }
  }

  /** A currency to BYN and back, and BYN to it and back. */
  lemma RoundTripViaByn(table: map<string, Info>, code: string, val: real)
    requires code != BYN && code in table && table[code].rate != 0.0 && table[code].scale != 0.0
    ensures Convert(table, code, BYN, val) == Num(val * table[code].rate / table[code].scale)
    ensures Convert(table, BYN, code, val) == Num(val * table[code].scale / table[code].rate)
    ensures Convert(table, BYN, code, val * table[code].rate / table[code].scale) == Num(val)
  {
    DivMulCancel(val, table[code].rate, table[code].scale);
  }

  /** Between two currencies other than BYN and back. */
  lemma RoundTripBetween(table: map<string, Info>, from: string, to: string, val: real)
    requires from != to && from != BYN && to != BYN && from in table && to in table
    requires table[from].rate != 0.0 && table[from].scale != 0.0
    requires table[to].rate != 0.0 && table[to].scale != 0.0
    ensures Convert(table, from, to, val).Num?
    ensures Convert(table, to, from, Convert(table, from, to, val).value) == Num(val)
  {
    var f, t := table[from], table[to];
    var inByn := val * f.rate / f.scale;
    var x := inByn * t.scale / t.rate;
    assert Convert(table, from, to, val) == Num(x);
    DivMulCancel(inByn, t.scale, t.rate);
    var back := x * t.rate / t.scale;
    assert back == inByn;
    DivMulCancel(val, f.rate, f.scale);
    assert back * f.scale / f.rate == val;
    assert Convert(table, to, from, x) == Num(back * f.scale / f.rate);
  }

  /** `(x * a / b) * b / a == x` for non-zero `a` and `b`. */
  lemma DivMulCancel(x: real, a: real, b: real)
    requires a != 0.0 && b != 0.0
    ensures x * a / b * b / a == x
  {
    assert x * a / b * b == x * a;
  }

  /** The answer is non-finite exactly when a scale or rate it divides by is zero. */
  lemma ConvertNonFinite(table: map<string, Info>, from: string, to: string, val: real)
    requires from != to && Known(table, from) && Known(table, to)
    ensures Convert(table, from, to, val).NonFinite? <==>
              (from != BYN && table[from].scale == 0.0) || (to != BYN && table[to].rate == 0.0)
  {
  }
}
