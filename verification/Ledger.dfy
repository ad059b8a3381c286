/** Logs of acquire/release operations, replayed to find what is still held.

    A log is replayed from the empty set. The replay fails when something
    already held is acquired again (the operating system handed out a live
    number) or when something not held is released (a double close, a double
    free). The same numbers may be used again after a release. */
module Ledger {

  datatype Option<+T> = None | Some(value: T)

  type byte = x: int | 0 <= x < 256

  datatype Op<T> = Acquire(item: T) | Release(item: T)

  function Held<T(==)>(log: seq<Op<T>>): Option<set<T>>
  {
    if log == [] then Some({})
    else
      match Held(log[..|log| - 1])
      case None => None
      case Some(held) =>
        match log[|log| - 1]
        case Acquire(x) => if x in held then None else Some(held + {x})
        case Release(x) => if x in held then Some(held - {x}) else None
  }

  /** One more operation on a log. */
  lemma HeldSnoc<T>(log: seq<Op<T>>, op: Op<T>)
    ensures Held(log + [op]) ==
            match Held(log)
            case None => None
            case Some(held) =>
              match op
              case Acquire(x) => if x in held then None else Some(held + {x})
              case Release(x) => if x in held then Some(held - {x}) else None
  {
    assert (log + [op])[..|log + [op]| - 1] == log;
  }

  /** One more operation, by counting. */
  lemma CountSnoc<T>(log: seq<T>, op: T, x: T)
    ensures multiset(log + [op])[x] == multiset(log)[x] + if op == x then 1 else 0
  {
    assert multiset(log + [op]) == multiset(log) + multiset{op};
  }

  /** x is acquired as often as released, and once more when it is held. */
  ghost predicate Balanced<T>(log: seq<Op<T>>, x: T, held: bool) {
    multiset(log)[Acquire(x)] == multiset(log)[Release(x)] + if held then 1 else 0
  }

  lemma BalancedSnoc<T>(log: seq<Op<T>>, op: Op<T>, x: T, held: bool)
    requires Balanced(log, x, held)
    requires op == Acquire(x) ==> !held
    requires op == Release(x) ==> held
    ensures Balanced(log + [op], x, if op.item == x then op.Acquire? else held)
  {
    CountSnoc(log, op, Acquire(x));
    CountSnoc(log, op, Release(x));
  }

  /** What a successful replay means by counting: an item is acquired exactly as
      often as it is released, plus one when it is still held. */
  lemma {:induction false} HeldCounts<T>(log: seq<Op<T>>, x: T)
    requires Held(log).Some?
    ensures Balanced(log, x, x in Held(log).value)
  {
    if log != [] {
      var init, op := log[..|log| - 1], log[|log| - 1];
      assert log == init + [op];
      HeldCounts(init, x);
      BalancedSnoc(init, op, x, x in Held(init).value);
    }
  }
}
