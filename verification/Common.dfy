/** What several models share. */
module Common {

  datatype Option<+T> = None | Some(value: T)

  /** A two-phase transfer at the ledger. */
  datatype Status = Pending | Posted(amount: nat) | Voided | Expired

  /** What was built so far, followed by the rest, if there is one. */
  function Following<T>(out: seq<T>, rest: Option<seq<T>>): Option<seq<T>> {
    if rest.Some? then Some(out + rest.value) else None
  }

  lemma FollowingOne<T>(out: seq<T>, x: T, rest: Option<seq<T>>)
    ensures Following(out, Following([x], rest)) == Following(out + [x], rest)
  {
    if rest.Some? {
      assert out + ([x] + rest.value) == out + [x] + rest.value;
    }
  }

  /** How many are left to visit: the measure of a walk that marks what it is inside of. */
  function Remaining<T>(all: set<T>, visited: set<T>): nat {
    |all - visited|
  }

  lemma RemainingShrinks<T>(all: set<T>, visited: set<T>, x: T)
    requires x in all && x !in visited
    ensures Remaining(all, visited + {x}) < Remaining(all, visited)
  {
    assert all - (visited + {x}) == (all - visited) - {x};
  }
}
