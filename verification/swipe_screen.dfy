/** The swipe screen's deck: an index into the sample mentors and the list of
    mentors swiped right, both held in component state. */
module SwipeScreen {
  import opened Store
  import opened MentorData

  /** The mentors swiped right, in deck order, given one decision per mentor. */
  ghost function Liked(ms: seq<SampleMentor>, dirs: seq<Direction>): (r: seq<SampleMentor>)
    requires |ms| == |dirs|
  {
    if ms == [] then []
    else
      var n := |ms| - 1;
      Liked(ms[..n], dirs[..n]) + (if dirs[n] == Right then [ms[n]] else [])
  }

  /** No more mentors are liked than were decided on, and each of them was in the deck. */
  lemma {:induction false} LikedBound(ms: seq<SampleMentor>, dirs: seq<Direction>)
    requires |ms| == |dirs|
    ensures |Liked(ms, dirs)| <= |ms|
    ensures forall m :: m in Liked(ms, dirs) ==> m in ms
  {
    if ms != [] {
      var n := |ms| - 1;
      LikedBound(ms[..n], dirs[..n]);
    }
  }

  /** Only right swipes are liked: all-left decisions like no one, all-right like everyone. */
  lemma {:induction false} LikedExtremes(ms: seq<SampleMentor>, dirs: seq<Direction>)
    requires |ms| == |dirs|
    ensures (forall k :: 0 <= k < |dirs| ==> dirs[k] == Left) ==> Liked(ms, dirs) == []
    ensures (forall k :: 0 <= k < |dirs| ==> dirs[k] == Right) ==> Liked(ms, dirs) == ms
  {
    if ms != [] {
      var n := |ms| - 1;
      LikedExtremes(ms[..n], dirs[..n]);
      assert ms == ms[..n] + [ms[n]];
    }
  }

  /** What the screen shows. */
  datatype View = Loading | NoMoreMentors | Cards(cards: seq<SampleMentor>, matchCount: nat, left: int)

  class SwipeDeck {
    var currentIndex: nat
    var mentors: seq<SampleMentor>
    var matches: seq<SampleMentor>
    /** The decisions taken since the last restart, one per mentor passed. */
    ghost var decisions: seq<Direction>

    ghost predicate Valid()
      reads this
    {
      |decisions| == currentIndex <= |mentors| && matches == Liked(mentors[..currentIndex], decisions)
    }

    /** The first render: index 0, no mentors and no matches, so the screen
        shows "Loading mentors...". */
    constructor()
      ensures Valid()
      ensures currentIndex == 0 && matches == [] && mentors == []
      ensures Render() == Loading
    {
      currentIndex, matches, mentors, decisions := 0, [], [], [];
    }

    /** The mount effect, run once after the first render: the sample deck is
        loaded and the first cards are shown. */
    method Mount()
      requires Valid() && mentors == []
      modifies this
      ensures Valid()
      ensures mentors == GenerateSampleMentors() && currentIndex == old(currentIndex) && matches == old(matches)
      ensures Render().Cards? && Render().left == DeckSize - 1
    {
      mentors := GenerateSampleMentors();
    }

    predicate Exhausted()
      reads this
    {
      currentIndex >= |mentors|
    }

    /** `handleSwipe`: a right swipe appends the current mentor to the
        matches; every swipe moves to the next mentor. Swipes come from the
        cards, which are shown only while the deck is not exhausted. */
    method HandleSwipe(dir: Direction)
      requires Valid() && !Exhausted()
      modifies this
      ensures Valid()
      ensures mentors == old(mentors) && currentIndex == old(currentIndex) + 1
      ensures matches == old(matches) + (if dir == Right then [old(mentors[currentIndex])] else [])
      ensures decisions == old(decisions) + [dir]
      ensures |matches| <= currentIndex
    {
      if dir == Right {
        matches := matches + [mentors[currentIndex]];
      }
      decisions := decisions + [dir];
      currentIndex := currentIndex + 1;
      assert mentors[..currentIndex][..currentIndex - 1] == mentors[..currentIndex - 1];
      LikedBound(mentors[..currentIndex], decisions);
    }

    method HandleReject()
      requires Valid() && !Exhausted()
      modifies this
      ensures Valid() && mentors == old(mentors) && currentIndex == old(currentIndex) + 1
      ensures matches == old(matches)
    {
      HandleSwipe(Left);
    }

    method HandleAccept()
      requires Valid() && !Exhausted()
      modifies this
      ensures Valid() && mentors == old(mentors) && currentIndex == old(currentIndex) + 1
      ensures matches == old(matches) + [old(mentors[currentIndex])]
    {
      HandleSwipe(Right);
    }

    /** "Start Over". */
    method Restart()
      modifies this
      ensures Valid() && mentors == old(mentors) && currentIndex == 0 && matches == [] && decisions == []
    {
      currentIndex, matches, decisions := 0, [], [];
    }

    /** The screen for the current state: at most two cards from the current
        index, the current one last (on top), and the counters. */
    function Render(): (v: View)
      reads this
      ensures |mentors| == 0 <==> v.Loading?
      ensures v.NoMoreMentors? <==> |mentors| > 0 && Exhausted()
      ensures v.Cards? ==>
                && 1 <= |v.cards| <= 2
                && v.cards[|v.cards| - 1] == mentors[currentIndex]
                && (|v.cards| == 2 <==> currentIndex + 1 < |mentors|)
                && (|v.cards| == 2 ==> v.cards[0] == mentors[currentIndex + 1])
                && v.matchCount == |matches|
                && v.left == |mentors| - currentIndex - 1 && v.left >= 0
    {
      if |mentors| == 0 then Loading
      else if currentIndex >= |mentors| then NoMoreMentors
      else
        var end := if currentIndex + 2 <= |mentors| then currentIndex + 2 else |mentors|;
        var shown := mentors[currentIndex..end];
        Cards(if |shown| == 2 then [shown[1], shown[0]] else shown, |matches|, |mentors| - currentIndex - 1)
    }
  }
}
