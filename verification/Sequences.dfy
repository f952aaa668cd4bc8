/** A few facts about sequences that the solver does not look for by itself. */
module Sequences {

  lemma ConcatAssociates<T>(a: seq<T>, b: seq<T>, c: seq<T>)
    ensures a + b + c == a + (b + c)
  {
  }

  lemma TailMembers<T>(s: seq<T>)
    requires s != []
    ensures s[0] in s && forall x <- s[1..] :: x in s
  {
  }

  lemma HeadTail<T>(s: seq<T>)
    requires s != []
    ensures [s[0]] + s[1..] == s
  {
  }
}
