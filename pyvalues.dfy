/** Python values, truthiness, the exceptions the widgets raise, and Python's
    `round` on an exact quotient. */
module PyValues {

  /** A Python value as the widgets' type checks and truth tests see it. */
  datatype PyValue =
    | PyNone
    | PyBool(b: bool)
    | PyInt(i: int)
    | PyStr(s: string)
    | PyTuple(items: seq<PyValue>)
    | PyObject  // any other object (a function, an instance): truthy by default

  /** Python's truth test, as used by `if self.valuetopass:` and `if self.max_length:`. */
  predicate Truthy(v: PyValue)
  {
    match v
    case PyNone => false
    case PyBool(b) => b
    case PyInt(i) => i != 0
    case PyStr(s) => s != ""
    case PyTuple(items) => items != []
    case PyObject => true
  }

  /** The exceptions a widget raises; `attr` names the offending attribute or parameter. */
  datatype PyError =
    | TypeError(attr: string)
    | ValueError(attr: string)
    | ZeroDivisionError
    | SystemExit
    | DrawingError  // a pygame surface or drawing call rejecting a colour or a size

  /** The outcome of a call that returns None or raises. */
  datatype Outcome = Pass | Raise(error: PyError)

  /** The outcome of a call that returns a value or raises. */
  datatype Result<T> = Ok(value: T) | Err(error: PyError)

  datatype Option<T> = None | Some(value: T)

  /** The first of two checks that fails, as a sequence of `raise` statements behaves. */
  function Then(first: Outcome, second: Outcome): (r: Outcome)
    ensures r.Pass? <==> first.Pass? && second.Pass?
    ensures first.Raise? ==> r == first
  {
    if first.Raise? then first else second
  }

  function Abs(n: int): nat
  {
    if n < 0 then -n else n
  }

  /** Python's `round(n / d)`: the integer nearest to n/d, ties going to the even one.
      The quotient is taken exactly; floating-point error is not modelled. */
  function RoundHalfEven(n: int, d: int): (r: int)
    requires d != 0
    ensures 2 * Abs(n - r * d) <= Abs(d)
    ensures 2 * Abs(n - r * d) == Abs(d) ==> r % 2 == 0
  {
    if d > 0 then RoundPositive(n, d)
    else
      var r := RoundPositive(-n, -d);
      assert n - r * d == -(-n - r * -d) by { NegMul(r, d); }
      r
  }

  lemma NegMul(r: int, d: int)
    ensures r * -d == -(r * d)
  {
  }

  function RoundPositive(n: int, d: int): (r: int)
    requires d > 0
    ensures 2 * Abs(n - r * d) <= d
    ensures 2 * Abs(n - r * d) == d ==> r % 2 == 0
    ensures r == n / d || (r == n / d + 1 && 2 * (n % d) >= d)
    ensures r == n / d ==> 2 * (n % d) <= d
  {
    var q, m := n / d, n % d;
    assert n - q * d == m && 0 <= m < d;
    assert n - (q + 1) * d == m - d by { SuccMul(q, d); }
    if 2 * m < d then q
    else if 2 * m > d then q + 1
    else if q % 2 == 0 then q
    else q + 1
  }

  lemma SuccMul(q: int, d: int)
    ensures (q + 1) * d == q * d + d
  {
  }

  /** Rounding an exact multiple gives the multiplier back. */
  lemma RoundOfMultiple(k: int, d: int)
    requires d != 0
    ensures RoundHalfEven(k * d, d) == k
  {
    if d > 0 {
      DivOfMultiple(k, d);
    } else {
      assert -(k * d) == k * -d by { NegMul(k, d); }
      DivOfMultiple(k, -d);
    }
  }

  lemma DivOfMultiple(k: int, d: int)
    requires d > 0
    ensures (k * d) / d == k && (k * d) % d == 0
  {
    var q, m := (k * d) / d, (k * d) % d;
    assert (k - q) * d == m by { assert k * d == q * d + m; SubMul(k, q, d); }
    if k - q >= 1 {
      MulLe(1, k - q, d);
    } else if k - q <= -1 {
      MulLe(k - q, -1, d);
    }
  }

  lemma SubMul(a: int, b: int, d: int)
    ensures (a - b) * d == a * d - b * d
  {
  }

  /** For a positive divisor, rounding the quotient is monotone in the dividend. */
  lemma RoundMonotone(n1: int, n2: int, d: int)
    requires d > 0 && n1 <= n2
    ensures RoundHalfEven(n1, d) <= RoundHalfEven(n2, d)
  {
    assert RoundHalfEven(n1, d) == RoundPositive(n1, d) && RoundHalfEven(n2, d) == RoundPositive(n2, d);
    DivMonotone(n1, n2, d);
    if n1 / d < n2 / d {
      assert RoundPositive(n1, d) <= n1 / d + 1 <= n2 / d <= RoundPositive(n2, d);
    } else {
      RoundSameQuotient(n1, n2, d);
    }
  }

  lemma RoundSameQuotient(n1: int, n2: int, d: int)
    requires d > 0 && n1 <= n2 && n1 / d == n2 / d
    ensures RoundPositive(n1, d) <= RoundPositive(n2, d)
  {
    var q, m1, m2 := n1 / d, n1 % d, n2 % d;
    assert n1 == q * d + m1 && n2 == q * d + m2;
    assert m1 <= m2;
    if m1 == m2 {
      assert n1 == n2;
    } else if RoundPositive(n1, d) == q + 1 {
      assert 2 * m2 > d;
    }
  }

  lemma DivMonotone(n1: int, n2: int, d: int)
    requires d > 0 && n1 <= n2
    ensures n1 / d <= n2 / d
  {
    var q1, q2 := n1 / d, n2 / d;
    assert n1 == q1 * d + n1 % d && n2 == q2 * d + n2 % d;
    if q1 > q2 {
      MulLe(q2 + 1, q1, d);
      SuccMul(q2, d);
      assert false;
    }
  }

  lemma MulLe(a: int, b: int, d: nat)
    requires a <= b
    ensures a * d <= b * d
  {
    assert b * d - a * d == (b - a) * d;
  }
}
