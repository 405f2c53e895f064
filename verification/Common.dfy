/** Types shared by every model of this project. */
module Common {

  /** An item carried by a channel. Uninterpreted: nothing below depends on what it is. */
  type Payload(==)

  datatype Option<+T> = None | Some(value: T)

  /** How a call that runs user code ends: it returns, or it unwinds with the payload of a panic. */
  datatype Exit<+T> = Ret(value: T) | Unwind(panic: nat)

  /**
  User code was given control `n` times: of the choices it had `before` it has made that many, or it
  has none left to make.
   */
  predicate Played(before: nat, after: nat, n: nat) {
    after == 0 || after + n <= before
  }

  ghost predicate NoDup<T>(list: seq<T>) {
    forall i, j | 0 <= i < j < |list| :: list[i] != list[j]
  }

  /** `Vec::swap_remove`: the last element takes the place of the one that is removed. */
  function SwapRemove<T>(list: seq<T>, i: nat): seq<T>
    requires i < |list|
  {
    list[i := list[|list| - 1]][..|list| - 1]
  }

  lemma SwapRemoveElems<T>(list: seq<T>, i: nat)
    requires i < |list| && NoDup(list)
    ensures NoDup(SwapRemove(list, i))
    ensures forall e :: e in SwapRemove(list, i) <==> e in list && e != list[i]
  {
    var r := SwapRemove(list, i);
    forall e | e in list && e != list[i] ensures e in r {
      var j :| 0 <= j < |list| && list[j] == e;
      assert r[if j == |list| - 1 then i else j] == e;
    }
  }
}
