/** Small shared vocabulary: optional values, results with an error, bytes. */
module Common {

  /** A value that may be missing: Python's `None` or an omitted argument. */
  datatype Option<+T> = None | Some(value: T)

  /** The value of an operation that can raise: `Failure` carries the exception. */
  datatype Result<+R, +E> = Success(value: R) | Failure(error: E)

  /** The outcome of a state-changing call that returns nothing or raises. */
  datatype Outcome<+E> = Pass | Fail(error: E)

  newtype byte = b: int | 0 <= b < 256

  /** The elements of a queue, as a set. */
  function SetOf<T>(q: seq<T>): set<T> {
    set x | x in q
  }

  lemma SetOfAppend<T>(a: seq<T>, b: seq<T>)
    ensures SetOf(a + b) == SetOf(a) + SetOf(b)
  {
    forall x | x in a + b ensures x in a || x in b {
      var i :| 0 <= i < |a + b| && (a + b)[i] == x;
      if i >= |a| { assert b[i - |a|] == x; }
    }
  }
}

/** Python classes, reduced to what `isinstance` looks at. */
module PyObjects {

  /** A class by name, with the names of all the classes it derives from. */
  datatype PyClass = PyClass(name: string, ancestors: seq<string>)

  /** `issubclass(c, base)`: the class itself or one of its ancestors. */
  predicate IsSubclass(c: PyClass, base: PyClass) {
    c.name == base.name || base.name in c.ancestors
  }
}
