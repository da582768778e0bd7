/** Document keys built from user ids. */
module Ids {
  import opened Text

  /** `${a}_${b}`: the key of a swipe (actor, target) and of a match (mentor, mentee). */
  function PairKey(a: string, b: string): string {
    a + "_" + b
  }

  /** `[a, b].sort().join('_')`: the two ids in ascending order, joined by `_`. */
  function ConversationId(a: string, b: string): (id: string)
    ensures (LexLe(a, b) && id == PairKey(a, b)) || (LexLe(b, a) && id == PairKey(b, a))
  {
    LexTotal(a, b);
    if LexLe(a, b) then PairKey(a, b) else PairKey(b, a)
  }

  /** Whichever of the two users builds the id, it is the same id. */
  lemma ConversationIdSymmetric(a: string, b: string)
    ensures ConversationId(a, b) == ConversationId(b, a)
  {
    if LexLe(a, b) && LexLe(b, a) {
      LexAntisymmetric(a, b);
    }
  }

  /** Keys are unambiguous as long as the first id holds no `_`. */
  lemma PairKeyInjective(a1: string, b1: string, a2: string, b2: string)
    requires '_' !in a1 && '_' !in a2
    requires PairKey(a1, b1) == PairKey(a2, b2)
    ensures a1 == a2 && b1 == b2
  {
    var k := PairKey(a1, b1);
    var m := if |a1| <= |a2| then |a1| else |a2|;
    assert k[m] == PairKey(a2, b2)[m];
    assert |a1| == |a2|;
    assert a1 == k[..|a1|] && a2 == PairKey(a2, b2)[..|a2|];
    assert b1 == k[|a1| + 1..] && b2 == PairKey(a2, b2)[|a2| + 1..];
  }

  /** For ids without `_`, the reverse swipe of a pair of distinct users is
      stored under a different key from the swipe itself. */
  lemma ReverseKeyDiffers(a: string, b: string)
    requires '_' !in a && '_' !in b && a != b
    ensures PairKey(a, b) != PairKey(b, a)
  {
    if PairKey(a, b) == PairKey(b, a) {
      PairKeyInjective(a, b, b, a);
    }
  }

  /** With `_` inside an id the key is ambiguous: the swipe of "x" on "x_x"
      and the reverse swipe of "x_x" on "x" share one key. */
  lemma UnderscoreKeysCollide()
    ensures PairKey("x", "x_x") == PairKey("x_x", "x")
  {
  }
}
