/** Facts about joining and slicing sequences, proved once where nothing
    else is in scope, so that the proofs about parsers and line splitting
    can cite them instead of rediscovering them among many definitions. */
module SeqFacts {

  lemma Assoc<T>(a: seq<T>, b: seq<T>, c: seq<T>)
    ensures (a + b) + c == a + (b + c)
  {
  }

  /** `((a + b) + c) + d` regrouped to the right. */
  lemma Assoc4<T>(a: seq<T>, b: seq<T>, c: seq<T>, d: seq<T>)
    ensures ((a + b) + c) + d == a + (b + (c + d))
  {
  }

  /** The two halves of a join. */
  lemma Halves<T>(a: seq<T>, b: seq<T>)
    ensures (a + b)[..|a|] == a && (a + b)[|a|..] == b
  {
  }

  /** A join after a single element. */
  lemma AfterFirst<T>(x: T, b: seq<T>)
    ensures ([x] + b)[0] == x && ([x] + b)[1..] == b
  {
  }

  /** A sequence is its first element joined to the rest. */
  lemma FirstAndRest<T>(s: seq<T>)
    requires s != []
    ensures [s[0]] + s[1..] == s
  {
  }

  /** A text opened by one element: the element, then everything after. */
  lemma Enclosed<T>(o: T, body: seq<T>, c: seq<T>, rest: seq<T>)
    ensures ([o] + body + c) + rest == [o] + (body + c + rest)
    ensures ([o] + (body + c + rest))[0] == o && ([o] + (body + c + rest))[1..] == body + c + rest
  {
  }
}
