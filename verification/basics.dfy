/** The optional value used wherever the C code passes a value that may be NULL. */
module Options {
  datatype Option<+T> = None | Some(value: T)
}

module Bytes {
  type byte = b: int | 0 <= b < 256
}

module Sequences {
  ghost predicate Distinct<T>(s: seq<T>) {
    forall i, j :: 0 <= i < j < |s| ==> s[i] != s[j]
  }

  function Reversed<T>(s: seq<T>): (r: seq<T>)
    ensures |r| == |s|
    ensures forall i :: 0 <= i < |s| ==> r[i] == s[|s| - 1 - i]
  {
    if s == [] then [] else Reversed(s[1..]) + [s[0]]
  }
}

/** A history: what happened, in order. */
module Logs {
  datatype Log<E> = Start | Then(before: Log<E>, event: E)

  predicate PrefixOf<E(==)>(p: Log<E>, t: Log<E>) {
    p == t || (t.Then? && PrefixOf(p, t.before))
  }
}
