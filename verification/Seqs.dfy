/** Facts about sequences that larger proofs cite by name. */
module Seqs {
  lemma Associative<T>(a: seq<T>, b: seq<T>, c: seq<T>)
    ensures (a + b) + c == a + (b + c)
  {
  }

  lemma EmptyUnit<T>(a: seq<T>)
    ensures [] + a == a && a + [] == a
  {
  }

  lemma FirstAndRest<T>(x: T, a: seq<T>, b: seq<T>)
    ensures var whole := ([x] + a) + b; whole != [] && whole[0] == x && whole[1..] == a + b
  {
  }

  lemma DropLeft<T>(a: seq<T>, b: seq<T>)
    ensures (a + b)[|a|..] == b && (a + b)[..|a|] == a
  {
  }

  lemma CutFurther<T>(a: seq<T>, b: seq<T>, n: nat)
    requires n <= |b|
    ensures a + b == (a + b[..n]) + b[n..]
  {
  }
}
