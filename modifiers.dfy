/** Functional options. Go's `ClientModifierFn` and `ContextTransportOption`
    are functions that rewrite the fields of a struct through a pointer; here a
    modifier is a function from the old field values to the new ones, and a
    list of them is applied front to back. */
module Modifiers {

  /** The value obtained by applying `fs` to `x` in list order. */
  function ApplyAll<T>(x: T, fs: seq<T -> T>): T
    decreases |fs|
  {
    if fs == [] then x else ApplyAll(fs[0](x), fs[1..])
  }

  /** Applying one more modifier after a list is the same as applying it to
      the result of the list: the step a loop over the modifiers takes. */
  lemma {:induction false} ApplyAllSnoc<T>(x: T, fs: seq<T -> T>, f: T -> T)
    ensures ApplyAll(x, fs + [f]) == f(ApplyAll(x, fs))
    decreases |fs|
  {
    if fs != [] {
      assert (fs + [f])[0] == fs[0];
      assert (fs + [f])[1..] == fs[1..] + [f];
      ApplyAllSnoc(fs[0](x), fs[1..], f);
    }
  }

  /** Applying two lists one after the other is applying their concatenation. */
  lemma {:induction false} ApplyAllAppend<T>(x: T, fs: seq<T -> T>, gs: seq<T -> T>)
    ensures ApplyAll(x, fs + gs) == ApplyAll(ApplyAll(x, fs), gs)
    decreases |fs|
  {
    if fs == [] {
      assert fs + gs == gs;
    } else {
      assert (fs + gs)[0] == fs[0];
      assert (fs + gs)[1..] == fs[1..] + gs;
      ApplyAllAppend(fs[0](x), fs[1..], gs);
    }
  }

  /** The last write wins: if modifier `i` establishes `P` whatever it is
      given, and every later modifier preserves `P`, then the final value
      satisfies `P`, whatever the earlier modifiers did. */
  lemma {:induction false} LastWriteWins<T>(x: T, fs: seq<T -> T>, i: nat, P: T -> bool)
    requires i < |fs|
    requires forall y :: P(fs[i](y))
    requires forall j, y :: i < j < |fs| && P(y) ==> P(fs[j](y))
    ensures P(ApplyAll(x, fs))
    decreases |fs|
  {
    if i == 0 {
      PreservedToEnd(fs[0](x), fs[1..], P);
    } else {
      forall j, y | i - 1 < j < |fs[1..]| && P(y) ensures P(fs[1..][j](y)) {
        assert fs[1..][j] == fs[j + 1];
      }
      LastWriteWins(fs[0](x), fs[1..], i - 1, P);
    }
  }

  /** A property every modifier preserves survives the whole list. */
  lemma {:induction false} PreservedToEnd<T>(x: T, fs: seq<T -> T>, P: T -> bool)
    requires P(x)
    requires forall j, y :: 0 <= j < |fs| && P(y) ==> P(fs[j](y))
    ensures P(ApplyAll(x, fs))
    decreases |fs|
  {
    if fs != [] {
      forall j, y | 0 <= j < |fs[1..]| && P(y) ensures P(fs[1..][j](y)) {
        assert fs[1..][j] == fs[j + 1];
      }
      PreservedToEnd(fs[0](x), fs[1..], P);
    }
  }
}
