/** A compute-once cell (the role cactoos' Sticky plays around the parse).

    The cell holds a thunk. The first access runs it; a successful value is
    kept and every later access returns it without running the thunk again. A
    failed run keeps nothing, so the next access runs the thunk again.
    `evaluations` counts runs of the thunk. The cell is a value: an access
    returns the outcome together with the cell as it is afterwards.
 */
module Sticky {
  import opened Wrappers

  datatype Cell<T, E> = Cell(thunk: () -> Result<T, E>, cached: Option<T>, evaluations: nat)

  /** A cell that has not been accessed yet. */
  function Fresh<T, E>(thunk: () -> Result<T, E>): (c: Cell<T, E>)
    ensures Coherent(c)
    ensures c.thunk == thunk && c.evaluations == 0
  {
    Cell(thunk, None, 0)
  }

  /** The invariant every reachable cell keeps: a cached value is the thunk's
      successful value; while the thunk succeeds it has run at most once, and
      exactly once when a value is cached; a failing thunk leaves nothing cached. */
  ghost predicate Coherent<T, E>(c: Cell<T, E>) {
    match c.thunk()
    case Success(v) =>
      && c.evaluations <= 1
      && (c.cached.Some? <==> c.evaluations == 1)
      && (c.cached.Some? ==> c.cached.value == v)
    case Failure(_) => c.cached.None?
  }

  /** One access (Sticky.value()). */
  function Value<T, E>(c: Cell<T, E>): (r: (Result<T, E>, Cell<T, E>))
    ensures r.1.thunk == c.thunk
    ensures c.cached.Some? ==> r.1 == c && r.0 == Success(c.cached.value)
    ensures c.cached.None? ==> r.1.evaluations == c.evaluations + 1 && r.0 == c.thunk()
    ensures Coherent(c) ==>
      && Coherent(r.1)
      && r.0 == c.thunk()
      && (r.1.cached.Some? <==> r.0.Success?)
  {
    match c.cached
    case Some(v) => (Success(v), c)
    case None =>
      var outcome := c.thunk();
      var kept := if outcome.Success? then Some(outcome.value) else None;
      (outcome, Cell(c.thunk, kept, c.evaluations + 1))
  }

  /** Accessing a coherent cell any number of times gives the thunk's outcome
      every time, and runs a succeeding thunk at most once in all. */
  lemma {:induction false} RepeatedValue<T, E>(c: Cell<T, E>, n: nat)
    requires Coherent(c)
    ensures Accessed(c, n).0 == c.thunk()
    ensures Coherent(Accessed(c, n).1)
    ensures c.thunk().Success? ==> Accessed(c, n).1.evaluations <= 1
    ensures c.thunk().Failure? ==> Accessed(c, n).1.evaluations == c.evaluations + n
  {
    if n > 0 {
      RepeatedValue(c, n - 1);
    }
  }

  /** The cell after `n` accesses, with the outcome of the last one (the thunk's
      own outcome when there was none). */
  function Accessed<T, E>(c: Cell<T, E>, n: nat): (r: (Result<T, E>, Cell<T, E>))
    ensures r.1.thunk == c.thunk
  {
    if n == 0 then (c.thunk(), c)
    else Value(Accessed(c, n - 1).1)
  }
}
