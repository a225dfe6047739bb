/** Facts about sequences shared by every module. */
module Sequences {
  lemma Associate<T>(a: seq<T>, b: seq<T>, c: seq<T>)
    ensures (a + b) + c == a + (b + c)
  {
  }

  lemma NothingAround<T>(w: seq<T>)
    ensures [] + w == w && w + [] == w
  {
  }
}
