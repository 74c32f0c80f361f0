/** Values shared by every component: optional values, the result of a
    JavaScript numeric conversion, and rounding of money to the cent. */
module Common {

  datatype Option<+T> = None | Some(value: T) {
    function GetOr(default: T): T {
      match this
      case Some(v) => v
      case None => default
    }
  }

  /** A JavaScript number as produced by a foreign numeric parser such as
      `parseFloat`: a finite value or NaN. */
  datatype Num = Finite(value: real) | NaN {

    /** `n > 0`; every comparison with NaN is false. */
    predicate IsPositive() {
      Finite? && value > 0.0
    }

    /** `n || d`: NaN and 0 are falsy, so both give the default. */
    function Or(d: real): (r: real)
      ensures IsPositive() || (Finite? && value < 0.0) ==> r == value
      ensures !(Finite? && value != 0.0) ==> r == d
    {
      if Finite? && value != 0.0 then value else d
    }

    /** `n || null` */
    function OrNull(): (r: Option<real>)
      ensures r.Some? <==> Finite? && value != 0.0
      ensures r.Some? ==> r.value == value
    {
      if Finite? && value != 0.0 then Some(value) else None
    }

    /** `n - m`: NaN as soon as either side is. */
    function Minus(m: Num): (r: Num)
      ensures r.Finite? <==> Finite? && m.Finite?
      ensures r.Finite? ==> r.value + m.value == value
    {
      if Finite? && m.Finite? then Finite(value - m.value) else NaN
    }

    /** `Math.abs(n)` */
    function Abs(): (r: Num)
      ensures r.NaN? <==> NaN?
      ensures r.Finite? ==> r.value >= 0.0 && (r.value == value || r.value == -value)
    {
      match this
      case NaN => NaN
      case Finite(v) => Finite(if v < 0.0 then -v else v)
    }
  }

  /** `Number(x)` of a numeric field that may be absent: `Number(undefined)`
      is NaN. */
  function NumberOf(x: Option<real>): (n: Num)
    ensures n.Finite? <==> x.Some?
    ensures n.Finite? ==> n.value == x.value
  {
    match x
    case Some(v) => Finite(v)
    case None => NaN
  }

  /** The foreign JavaScript conversions the source relies on, passed in
      rather than modelled: `parseFloat` and `String(n)` for a number. */
  datatype JsRuntime = JsRuntime(parseFloat: string -> Num, numberToString: real -> string)

  /** The value a filter select stores, `v === 'all' ? '' : v`: the "all"
      item clears the filter. */
  function AllMeansNone(v: string): (r: string)
    ensures v == "all" ==> r == ""
    ensures v != "all" ==> r == v
  {
    if v == "all" then "" else v
  }

  /** What a `catch` receives: an `Error` with its message, or any other
      thrown value. */
  datatype Thrown = ErrorWith(message: string) | NonError

  /** `e instanceof Error ? e.message : fallback` */
  function MessageOr(e: Thrown, fallback: string): (m: string)
    ensures e.ErrorWith? ==> m == e.message
    ensures e.NonError? ==> m == fallback
  {
    match e
    case ErrorWith(message) => message
    case NonError => fallback
  }

  /** An awaited call: the value it resolves to, or what it throws. */
  datatype Attempt<+T> = Done(value: T) | Threw(thrown: Thrown)

  // ---------------------------------------------------------------------
  // Money

  const TpsRate: real := 0.05
  const TvqRate: real := 0.09975
  const TvhRate: real := 0.13
  const HalfCent: real := 0.005

  /** A whole number of cents. */
  predicate IsCents(r: real) {
    (r * 100.0).Floor as real == r * 100.0
  }

  /** c is the value Math.round(x*100)/100 stands for: a whole number of
      cents, at most half a cent below or above x (ties go up). */
  predicate NearestCent(x: real, c: real) {
    IsCents(c) && x - HalfCent < c <= x + HalfCent
  }

  /** Math.round(x * 100) / 100 on exact reals. */
  function Round2(x: real): (r: real)
    ensures NearestCent(x, r)
  {
    var k := (100.0 * x + 0.5).Floor;
    assert (k as real) <= 100.0 * x + 0.5 < (k as real) + 1.0;
    var r := k as real / 100.0;
    assert r * 100.0 == k as real;
    r
  }

  /** Only one whole-cent value lies within half a cent of x, so NearestCent
      pins Round2 down. */
  lemma {:induction false} NearestCentUnique(x: real, c: real)
    requires NearestCent(x, c)
    ensures c == Round2(x)
  {
    var r := Round2(x);
    var a := (c * 100.0).Floor;
    var b := (r * 100.0).Floor;
    assert a as real == c * 100.0;
    assert b as real == r * 100.0;
    assert -1.0 < (a - b) as real < 1.0;
    assert a == b;
  }

  /** Rounding an amount already in cents leaves it unchanged. */
  lemma {:induction false} Round2OfCents(x: real)
    requires IsCents(x)
    ensures Round2(x) == x
  {
    NearestCentUnique(x, x);
  }

  lemma {:induction false} Round2Idempotent(x: real)
    ensures Round2(Round2(x)) == Round2(x)
  {
    Round2OfCents(Round2(x));
  }

  /** Sums and differences of whole cents are whole cents. */
  lemma {:induction false} CentsAdd(x: real, y: real)
    requires IsCents(x) && IsCents(y)
    ensures IsCents(x + y) && IsCents(x - y)
  {
    var a := (x * 100.0).Floor;
    var b := (y * 100.0).Floor;
    var s := (x + y) * 100.0;
    var d := (x - y) * 100.0;
    assert s == x * 100.0 + y * 100.0;
    assert d == x * 100.0 - y * 100.0;
    assert s == (a + b) as real;
    assert d == (a - b) as real;
    assert s.Floor == a + b;
    assert d.Floor == a - b;
  }

  lemma {:induction false} Round2Monotonic(x: real, y: real)
    requires x <= y
    ensures Round2(x) <= Round2(y)
  {
    var kx := (100.0 * x + 0.5).Floor;
    var ky := (100.0 * y + 0.5).Floor;
    assert kx as real <= 100.0 * y + 0.5;
    assert kx <= ky;
  }
}
