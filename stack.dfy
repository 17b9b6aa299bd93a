/** The dispatcher's argument stack: a growable vector of values, top at the end. */
module CallStack {
  import opened Values

  class Stack {
    /** The values on the stack, bottom first; the top is the last element. */
    var elems: seq<IValue>

    constructor (init: seq<IValue>)
      ensures elems == init
    {
      elems := init;
    }

    /** Removes and returns the top value. */
    method Pop() returns (v: IValue)
      requires |elems| > 0
      modifies this
      ensures old(elems) == elems + [v]
    {
      v := elems[|elems| - 1];
      elems := elems[..|elems| - 1];
    }

    /** Removes the top `n` values and returns them in bottom-to-top order. */
    method PopN(n: nat) returns (vs: seq<IValue>)
      requires n <= |elems|
      modifies this
      ensures |vs| == n && old(elems) == elems + vs
    {
      vs := elems[|elems| - n..];
      elems := elems[..|elems| - n];
    }

    /** Puts `v` on top. */
    method Push(v: IValue)
      modifies this
      ensures elems == old(elems) + [v]
    {
      elems := elems + [v];
    }
  }
}
