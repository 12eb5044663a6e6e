/** Vocabulary shared by every component: optional columns and error returns. */
module Common {
  /** A nullable column, or the result of a query that may find no row. */
  datatype Option<+T> = None | Some(value: T)

  /** The exceptions the services throw. */
  datatype Error = NotFound | Forbidden | BadRequest | Unauthorized

  datatype Result<+T> = Ok(value: T) | Err(error: Error)

  const MINUTE_MS: int := 60000
  const DAY_MS: int := 86400000

  /** The rows of `s` that satisfy `p`, in order: a query's `where` clause. */
  function Filter<T>(s: seq<T>, p: T -> bool): seq<T> {
    if s == [] then [] else (if p(s[0]) then [s[0]] else []) + Filter(s[1..], p)
  }

  lemma {:induction false} FilterConcat<T>(a: seq<T>, b: seq<T>, p: T -> bool)
    ensures Filter(a + b, p) == Filter(a, p) + Filter(b, p)
  {
    if a == [] {
      assert a + b == b;
    } else {
      assert (a + b)[0] == a[0] && (a + b)[1..] == a[1..] + b;
      FilterConcat(a[1..], b, p);
      var head, rest := if p(a[0]) then [a[0]] else [], Filter(a[1..], p);
      assert head + (rest + Filter(b, p)) == head + rest + Filter(b, p);
    }
  }
}
