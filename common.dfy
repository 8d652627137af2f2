/** Values shared by every part of the model: optional values and the
    Python exceptions the modelled code can raise, as explicit results. */
module Common {

  datatype Option<+T> = None | Some(value: T)

  /** The exceptions the modelled code raises, each named after the Python
      exception and the statement that raises it. */
  datatype Error =
    | RangeStepZero        // ValueError: range() arg 3 must not be zero
    | EmptyStack           // ValueError: np.stack of an empty list
    | RowIndex             // IndexError: row 1 of an array with fewer than two rows
    | MissingKey           // KeyError: an interval end key is absent
    | ZeroDivision         // ZeroDivisionError
    | ListIndex            // IndexError: a list indexed past its end
    | TimeFormat           // ValueError: strptime rejects the string
    | LengthMismatch       // ValueError: label lists of different lengths
    | Unpack               // ValueError: too few values to unpack
    | MissingScore         // ValueError: AUC requested without scores
    | EmptyMax             // ValueError: max() of an empty sequence
    | UnboundLocal         // UnboundLocalError: a loop variable never bound

  datatype Result<+T> = Ok(value: T) | Err(error: Error)

  /** Number of occurrences of `v` in `s`. */
  function Count<T(==)>(s: seq<T>, v: T): (n: nat)
    ensures n <= |s|
  {
    if s == [] then 0
    else Count(s[..|s| - 1], v) + (if s[|s| - 1] == v then 1 else 0)
  }

  /** Counting distributes over concatenation. */
  lemma {:induction false} CountConcat<T>(a: seq<T>, b: seq<T>, v: T)
    ensures Count(a + b, v) == Count(a, v) + Count(b, v)
  {
    if b == [] {
      assert a + b == a;
    } else {
      var n := |b| - 1;
      assert (a + b)[..|a + b| - 1] == a + b[..n];
      assert (a + b)[|a + b| - 1] == b[n];
      CountConcat(a, b[..n], v);
    }
  }

  lemma MulMonotone(a: nat, b: nat, c: nat)
    requires a <= b
    ensures a * c <= b * c
  {}

  /** q * d + r with 0 <= r < d has quotient q and remainder r. */
  lemma DivModUnique(v: int, d: int, q: int, r: int)
    requires d > 0 && 0 <= r < d && v == q * d + r
    ensures v / d == q && v % d == r
  {
    var q' := v / d;
    if q' < q {
      MulMonotone(1, q - q', d);
    } else if q' > q {
      MulMonotone(1, q' - q, d);
    }
  }
}
