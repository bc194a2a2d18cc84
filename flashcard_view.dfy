/** The flashcard viewer (app/components/FlashcardSet.tsx): which card is
    shown and which side of it, changed by the Next button and by a click on
    the card. The pure functions below specify the two handlers; the class
    holds the component's state and its handlers are proved against them. */
module FlashcardView {
  import opened FlashcardModel

  /** The component state: `currentIndex` and `showTerm`. */
  datatype ViewState = ViewState(currentIndex: int, showTerm: bool)

  /** The state on mount: the first card, term side up. */
  const Initial := ViewState(0, true)

  /** The index points into a deck of `size` cards, or is 0 when the deck is empty. */
  predicate InBounds(s: ViewState, size: nat) {
    0 <= s.currentIndex && (s.currentIndex == 0 || s.currentIndex < size)
  }

  /** `handleNext`: one card forward, term side up, unless on the last card. */
  function Next(s: ViewState, size: nat): (t: ViewState)
    ensures t == s || (t.currentIndex == s.currentIndex + 1 && t.showTerm)
    ensures t != s <==> s.currentIndex < size - 1
    ensures InBounds(s, size) ==> InBounds(t, size)
  {
    if s.currentIndex < size - 1 then ViewState(s.currentIndex + 1, true) else s
  }

  /** `handleFlip`: shows the other side of the same card. */
  function Flip(s: ViewState): (t: ViewState)
    ensures t.currentIndex == s.currentIndex && t.showTerm != s.showTerm
    ensures forall size: nat :: InBounds(s, size) ==> InBounds(t, size)
  {
    ViewState(s.currentIndex, !s.showTerm)
  }

  /** The Next button's `disabled` attribute. A disabled button only ever
      guards a click that would do nothing. */
  predicate NextDisabled(s: ViewState, size: nat)
    ensures NextDisabled(s, size) ==> Next(s, size) == s
  {
    s.currentIndex == size - 1
  }

  /** A user action: a click on Next, or a click on the card. */
  datatype Event = NextClick | FlipClick

  function Step(s: ViewState, size: nat, e: Event): ViewState {
    match e
    case NextClick => Next(s, size)
    case FlipClick => Flip(s)
  }

  /** The state after handling `events` in order. */
  function Run(s: ViewState, size: nat, events: seq<Event>): ViewState
    decreases |events|
  {
    if |events| == 0 then s else Run(Step(s, size, events[0]), size, events[1..])
  }

  /** Flipping twice restores the state. */
  lemma FlipTwice(s: ViewState)
    ensures Flip(Flip(s)) == s
  {
  }

  /** On a non-empty deck the button is disabled exactly when Next would do nothing. */
  lemma DisabledExactlyWhenInert(s: ViewState, size: nat)
    requires size > 0 && InBounds(s, size)
    ensures NextDisabled(s, size) <==> Next(s, size) == s
  {
  }

  /** On an empty deck the `disabled` expression is false while the guard of
      `handleNext` is false too, so the two conditions part ways there. */
  lemma EmptyDeckNextEnabledButInert(s: ViewState)
    requires InBounds(s, 0)
    ensures !NextDisabled(s, 0) && Next(s, 0) == s
  {
  }

  /** No sequence of clicks takes the index out of the deck. */
  lemma {:induction false} RunInBounds(s: ViewState, size: nat, events: seq<Event>)
    requires InBounds(s, size)
    ensures InBounds(Run(s, size, events), size)
    decreases |events|
  {
    if |events| != 0 {
      RunInBounds(Step(s, size, events[0]), size, events[1..]);
    }
  }

  /** No sequence of clicks moves the index backwards. */
  lemma {:induction false} RunIndexMonotone(s: ViewState, size: nat, events: seq<Event>)
    ensures Run(s, size, events).currentIndex >= s.currentIndex
    decreases |events|
  {
    if |events| != 0 {
      RunIndexMonotone(Step(s, size, events[0]), size, events[1..]);
    }
  }

  /** Clicking Next k times advances k cards, stopping at the last one. */
  lemma {:induction false} NextClicksReachEnd(s: ViewState, size: nat, k: nat)
    requires size > 0 && InBounds(s, size)
    ensures var t := Run(s, size, seq(k, _ => NextClick));
      t.currentIndex == if s.currentIndex + k < size - 1 then s.currentIndex + k else size - 1
    decreases k
  {
    var clicks := seq(k, _ => NextClick);
    if k != 0 {
      assert clicks[0] == NextClick;
      assert clicks[1..] == seq(k - 1, _ => NextClick);
      NextClicksReachEnd(Next(s, size), size, k - 1);
    }
  }

  /** The mounted component. */
  class FlashcardSetView {
    const flashcards: seq<Flashcard>
    var currentIndex: int
    var showTerm: bool

    function State(): ViewState
      reads this
    {
      ViewState(currentIndex, showTerm)
    }

    ghost predicate Valid()
      reads this
    {
      InBounds(State(), |flashcards|)
    }

    constructor (flashcards: seq<Flashcard>)
      ensures this.flashcards == flashcards
      ensures State() == Initial && Valid()
    {
      this.flashcards := flashcards;
      currentIndex := 0;
      showTerm := true;
    }

    method HandleNext()
      requires Valid()
      modifies this
      ensures Valid()
      ensures State() == Next(old(State()), |flashcards|)
    {
      if currentIndex < |flashcards| - 1 {
        currentIndex := currentIndex + 1;
        showTerm := true;
      }
    }

    method HandleFlip()
      requires Valid()
      modifies this
      ensures Valid()
      ensures State() == Flip(old(State()))
    {
      showTerm := !showTerm;
    }

    /** The card being rendered; it dereferences the deck, so the deck must not be empty. */
    function CurrentCard(): (card: Flashcard)
      reads this
      requires Valid() && |flashcards| > 0
      ensures card in flashcards
    {
      flashcards[currentIndex]
    }
  }
}
