/**
 * The flashcard study session of `QuizClient` (components/flashcards/QuizClient.tsx):
 * a deck of card ids, the current index, whether the card is flipped, the sets of
 * cards marked known and unknown, and the one-time celebration at the end of the deck.
 *
 * The transitions are specified as functions on a `Session` value (`Next`, `MarkKnown`,
 * `Reset`, `Load`, ...); the class `QuizClient` holds the same state in fields and its
 * handler methods are proved to perform exactly those transitions. The 200 ms
 * `setTimeout` bodies of `nextCard` and `prevCard` run at once, in order; the 5 s
 * confetti timer is the separate handler `ConfettiTimeout`.
 */
module QuizSession {
  import opened Wrappers

  /** The component state the handlers read and write. */
  datatype Session = Session(
    index: int,
    flipped: bool,
    known: set<string>,
    unknown: set<string>,
    showCelebration: bool,
    showConfetti: bool,
    celebrated: bool,
    loaded: bool)

  /** The initial `useState` values. */
  const Initial: Session := Session(0, false, {}, {}, false, false, false, false)

  /** One day in milliseconds, `1000 * 60 * 60 * 24`. */
  const DayMillis: int := 86400000

  /** The progress record kept under `quiz_progress_<id>`; the id arrays are kept as sets. */
  datatype SavedProgress = SavedProgress(
    currentIndex: int,
    knownCards: set<string>,
    unknownCards: set<string>,
    hasCelebrated: bool,
    lastUpdated: int)

  // ----- Transitions -----

  function Flip(s: Session): (r: Session)
    ensures r.flipped == !s.flipped
    ensures r.(flipped := s.flipped) == s
  {
    s.(flipped := !s.flipped)
  }

  /** Showing the celebration and the confetti, and remembering that it was shown. */
  function Celebrate(s: Session): Session
  {
    s.(showCelebration := true, showConfetti := true, celebrated := true)
  }

  /**
   * `nextCard` on a deck of `n` cards: below the last card, move on and unflip, and
   * celebrate on arriving at the last card; at the last card, celebrate. Either way
   * only when the celebration has not been shown yet. So the celebration has been shown
   * afterwards exactly when it had been before, or the index was at least the second to
   * last (the call arrives at, or stays on, the last card).
   */
  function Next(s: Session, n: int): (r: Session)
    ensures s.index < n - 1 ==> r.index == s.index + 1 && !r.flipped
    ensures s.index >= n - 1 ==> r.index == s.index && r.flipped == s.flipped
    ensures r.known == s.known && r.unknown == s.unknown && r.loaded == s.loaded
    ensures r.celebrated <==> s.celebrated || s.index >= n - 2
    ensures !s.celebrated && r.celebrated ==> r.showCelebration && r.showConfetti
    ensures r.celebrated == s.celebrated ==> r.showCelebration == s.showCelebration && r.showConfetti == s.showConfetti
  {
    if s.index < n - 1 then
      var moved := s.(index := s.index + 1, flipped := false);
      if s.index + 1 >= n - 1 && !s.celebrated then Celebrate(moved) else moved
    else if !s.celebrated then Celebrate(s)
    else s
  }

  /** `prevCard`: above the first card, step back and unflip; otherwise nothing. */
  function Prev(s: Session): (r: Session)
    ensures s.index > 0 ==> r.index == s.index - 1 && !r.flipped
    ensures s.index <= 0 ==> r == s
    ensures r.(index := s.index, flipped := s.flipped) == s
  {
    if s.index > 0 then s.(index := s.index - 1, flipped := false) else s
  }

  /**
   * `markAsKnown`: the current card joins the known set and leaves the unknown set, then
   * `nextCard`; no other id changes membership, and every other field is what `nextCard`
   * makes of it.
   */
  function MarkKnown(s: Session, deck: seq<string>): (r: Session)
    requires 0 <= s.index < |deck|
    ensures r.(known := s.known, unknown := s.unknown) == Next(s, |deck|)
    ensures deck[s.index] in r.known && deck[s.index] !in r.unknown
    ensures forall x :: x != deck[s.index] ==> (x in r.known <==> x in s.known) && (x in r.unknown <==> x in s.unknown)
  {
    var cardId := deck[s.index];
    Next(s.(known := s.known + {cardId}, unknown := s.unknown - {cardId}), |deck|)
  }

  /**
   * `markAsUnknown`: the current card joins the unknown set and leaves the known set, then
   * `nextCard`; no other id changes membership, and every other field is what `nextCard`
   * makes of it.
   */
  function MarkUnknown(s: Session, deck: seq<string>): (r: Session)
    requires 0 <= s.index < |deck|
    ensures r.(known := s.known, unknown := s.unknown) == Next(s, |deck|)
    ensures deck[s.index] in r.unknown && deck[s.index] !in r.known
    ensures forall x :: x != deck[s.index] ==> (x in r.known <==> x in s.known) && (x in r.unknown <==> x in s.unknown)
  {
    var cardId := deck[s.index];
    Next(s.(unknown := s.unknown + {cardId}, known := s.known - {cardId}), |deck|)
  }

  /** `resetCards`: nothing is answered any more; the confetti flag and the loaded flag are not touched. */
  function Reset(s: Session): (r: Session)
    ensures r.known == {} && r.unknown == {}
    ensures r.showConfetti == s.showConfetti && r.loaded == s.loaded
  {
    s.(index := 0, flipped := false, known := {}, unknown := {}, showCelebration := false, celebrated := false)
  }

  /** The 5 s timer started by a celebration: hides the confetti and nothing else. */
  function ConfettiOff(s: Session): (r: Session)
    ensures !r.showConfetti && r.(showConfetti := s.showConfetti) == s
  {
    s.(showConfetti := false)
  }

  /**
   * `daysSinceUpdate < 30`, with the division of JavaScript numbers: it holds exactly when
   * less than 30 days of milliseconds have passed.
   */
  predicate Fresh(p: SavedProgress, now: int)
    ensures Fresh(p, now) <==> now - p.lastUpdated < 30 * DayMillis
  {
    var elapsed := (now - p.lastUpdated) as real;
    assert elapsed / (DayMillis as real) < 30.0 <==> elapsed < 30.0 * (DayMillis as real);
    elapsed / (DayMillis as real) < 30.0
  }

  /**
   * `loadProgress`: `saved` is the parsed progress record, None when nothing is stored
   * or it does not parse. A record less than 30 days old restores index, sets and
   * celebration flag, a stale or missing one leaves the state; in every case the session
   * is loaded afterwards, and the card face and the celebration display are never touched.
   */
  function Load(s: Session, saved: Option<SavedProgress>, now: int): (r: Session)
    ensures r.loaded
    ensures saved.Some? && now - saved.value.lastUpdated < 30 * DayMillis ==>
              && r.index == saved.value.currentIndex && r.known == saved.value.knownCards
              && r.unknown == saved.value.unknownCards && r.celebrated == saved.value.hasCelebrated
    ensures (saved.None? || now - saved.value.lastUpdated >= 30 * DayMillis) ==> r == s.(loaded := true)
    ensures r.flipped == s.flipped && r.showCelebration == s.showCelebration && r.showConfetti == s.showConfetti
  {
    match saved
    case Some(p) =>
      if Fresh(p, now) then
        s.(index := p.currentIndex, known := p.knownCards, unknown := p.unknownCards,
           celebrated := p.hasCelebrated, loaded := true)
      else s.(loaded := true)
    case None => s.(loaded := true)
  }

  /** What `saveProgress` writes at time `now`: nothing before progress has loaded. */
  function Save(s: Session, now: int): (r: Option<SavedProgress>)
    ensures r.Some? <==> s.loaded
    ensures r.Some? ==> r.value.lastUpdated == now
  {
    if s.loaded then Some(SavedProgress(s.index, s.known, s.unknown, s.celebrated, now)) else None
  }

  // ----- Derived values -----

  /** `cards.every((card) => knownCards.has(card.id) || unknownCards.has(card.id))`: every id of the deck is answered. */
  predicate AllAnswered(s: Session, deck: seq<string>)
    ensures AllAnswered(s, deck) <==> DeckIds(deck) <= s.known + s.unknown
  {
    var every := forall i :: 0 <= i < |deck| ==> deck[i] in s.known || deck[i] in s.unknown;
    assert every <==> DeckIds(deck) <= s.known + s.unknown by {
      if every {
        forall x | x in DeckIds(deck) ensures x in s.known + s.unknown {
          var i :| 0 <= i < |deck| && deck[i] == x;
        }
      }
      if DeckIds(deck) <= s.known + s.unknown {
        forall i | 0 <= i < |deck| ensures deck[i] in s.known || deck[i] in s.unknown {
          assert deck[i] in DeckIds(deck);
        }
      }
    }
    every
  }

  /** The condition under which the effect calls `markQuizAsComplete`. */
  predicate ShouldMarkComplete(s: Session, deck: seq<string>, demoMode: bool)
    ensures ShouldMarkComplete(s, deck, demoMode)
        <==> s.loaded && !demoMode && |deck| > 0 && DeckIds(deck) <= s.known + s.unknown
  {
    s.loaded && !demoMode && AllAnswered(s, deck) && |deck| > 0
  }

  datatype Colour = Green500 | Red500 | Gray400 | Gray200

  /**
   * The colour classes of progress segment `i` (the `cn(...)` arguments that are not false).
   * A known card's segment is green, an unknown one's red, an unanswered one gray-400 up to
   * the current index and gray-200 after it; with disjoint sets exactly one class applies.
   */
  function SegmentClasses(s: Session, deck: seq<string>, i: nat): (r: set<Colour>)
    requires i < |deck|
    ensures deck[i] in s.known ==> Green500 in r
    ensures deck[i] in s.unknown ==> Red500 in r
    ensures deck[i] !in s.known && deck[i] !in s.unknown ==> r == if i <= s.index then {Gray400} else {Gray200}
    ensures s.known !! s.unknown ==> |r| == 1
  {
    var cardId := deck[i];
    var isKnown := cardId in s.known;
    var isUnknown := cardId in s.unknown;
    (if isKnown then {Green500} else {})
    + (if isUnknown then {Red500} else {})
    + (if !isKnown && !isUnknown && i <= s.index then {Gray400} else {})
    + (if !isKnown && !isUnknown && i > s.index then {Gray200} else {})
  }

  function DeckIds(deck: seq<string>): set<string>
  {
    set i | 0 <= i < |deck| :: deck[i]
  }

  predicate Distinct(deck: seq<string>)
  {
    forall i, j :: 0 <= i < j < |deck| ==> deck[i] != deck[j]
  }

  /** The sets are disjoint and hold only ids of the deck. */
  predicate Consistent(s: Session, deck: seq<string>)
  {
    s.known !! s.unknown && s.known <= DeckIds(deck) && s.unknown <= DeckIds(deck)
  }

  predicate InRange(s: Session, n: int)
  {
    0 <= s.index < n
  }

  // ----- The component -----

  class QuizClient {
    const deck: seq<string>
    const demoMode: bool
    var currentIndex: int
    var isFlipped: bool
    var knownCards: set<string>
    var unknownCards: set<string>
    var showCelebration: bool
    var showConfetti: bool
    var hasCelebrated: bool
    var isLoaded: bool

    function State(): Session
      reads this
    {
      Session(currentIndex, isFlipped, knownCards, unknownCards, showCelebration, showConfetti, hasCelebrated, isLoaded)
    }

    constructor(questions: seq<string>, demo: bool)
      ensures deck == questions && demoMode == demo
      ensures State() == Initial
    {
      deck := questions;
      demoMode := demo;
      currentIndex := 0;
      isFlipped := false;
      knownCards := {};
      unknownCards := {};
      showCelebration := false;
      showConfetti := false;
      hasCelebrated := false;
      isLoaded := false;
    }

    method FlipCard()
      modifies this
      ensures State() == Flip(old(State()))
    {
      isFlipped := !isFlipped;
    }

    method NextCard()
      modifies this
      ensures State() == Next(old(State()), |deck|)
    {
      if currentIndex < |deck| - 1 {
        var nextIndex := currentIndex + 1;
        currentIndex := nextIndex;
        isFlipped := false;
        if nextIndex >= |deck| - 1 && !hasCelebrated {
          showCelebration := true;
          showConfetti := true;
          hasCelebrated := true;
        }
      } else {
        if !hasCelebrated {
          showCelebration := true;
          showConfetti := true;
          hasCelebrated := true;
        }
      }
    }

    method PrevCard()
      modifies this
      ensures State() == Prev(old(State()))
    {
      if currentIndex > 0 {
        currentIndex := currentIndex - 1;
        isFlipped := false;
      }
    }

    /** Only called while a card is shown, that is, while the current index is inside the deck. */
    method MarkAsKnown()
      requires 0 <= currentIndex < |deck|
      modifies this
      ensures State() == MarkKnown(old(State()), deck)
    {
      var cardId := deck[currentIndex];
      knownCards := knownCards + {cardId};
      unknownCards := unknownCards - {cardId};
      NextCard();
    }

    method MarkAsUnknown()
      requires 0 <= currentIndex < |deck|
      modifies this
      ensures State() == MarkUnknown(old(State()), deck)
    {
      var cardId := deck[currentIndex];
      unknownCards := unknownCards + {cardId};
      knownCards := knownCards - {cardId};
      NextCard();
    }

    method ResetCards()
      modifies this
      ensures State() == Reset(old(State()))
    {
      currentIndex := 0;
      isFlipped := false;
      knownCards := {};
      unknownCards := {};
      showCelebration := false;
      hasCelebrated := false;
    }

    method ConfettiTimeout()
      modifies this
      ensures State() == ConfettiOff(old(State()))
    {
      showConfetti := false;
    }

    method LoadProgress(saved: Option<SavedProgress>, now: int)
      modifies this
      ensures State() == Load(old(State()), saved, now)
    {
      if saved.Some? {
        var progress := saved.value;
        var daysSinceUpdate := (now - progress.lastUpdated) as real / (DayMillis as real);
        if daysSinceUpdate < 30.0 {
          currentIndex := progress.currentIndex;
          knownCards := progress.knownCards;
          unknownCards := progress.unknownCards;
          hasCelebrated := progress.hasCelebrated;
        }
      }
      isLoaded := true;
    }

    /** The record `saveProgress` writes, or None before progress has loaded. */
    method SaveProgress(now: int) returns (r: Option<SavedProgress>)
      ensures r == Save(State(), now)
    {
      if !isLoaded {
        return None;
      }
      r := Some(SavedProgress(currentIndex, knownCards, unknownCards, hasCelebrated, now));
    }
  }

  // ----- What the transitions guarantee -----

  /** Every handler keeps the index inside a non-empty deck. */
  lemma HandlersKeepInRange(s: Session, deck: seq<string>)
    requires InRange(s, |deck|)
    ensures InRange(Flip(s), |deck|) && InRange(Next(s, |deck|), |deck|) && InRange(Prev(s), |deck|)
    ensures InRange(MarkKnown(s, deck), |deck|) && InRange(MarkUnknown(s, deck), |deck|)
    ensures InRange(Reset(s), |deck|) && InRange(ConfettiOff(s), |deck|)
  {
  }

  lemma Disjoint3(a: set<string>, b: set<string>, x: string)
    requires a !! b
    ensures (a + {x}) !! (b - {x})
  {
  }

  /** Every handler keeps the sets disjoint and within the deck. */
  lemma HandlersKeepConsistent(s: Session, deck: seq<string>)
    requires Consistent(s, deck) && InRange(s, |deck|)
    ensures Consistent(Flip(s), deck) && Consistent(Next(s, |deck|), deck) && Consistent(Prev(s), deck)
    ensures Consistent(MarkKnown(s, deck), deck) && Consistent(MarkUnknown(s, deck), deck)
    ensures Consistent(Reset(s), deck) && Consistent(ConfettiOff(s), deck)
  {
    var cardId := deck[s.index];
    assert cardId in DeckIds(deck);
    Disjoint3(s.known, s.unknown, cardId);
    Disjoint3(s.unknown, s.known, cardId);
  }

  /** `resetCards` starts a session over: first card, nothing answered, celebration armed again. */
  lemma ResetStartsOver(s: Session, deck: seq<string>)
    requires |deck| > 0
    ensures var r := Reset(s);
            && r.index == 0 && !r.flipped && r.known == {} && r.unknown == {}
            && !r.celebrated && !r.showCelebration
            && InRange(r, |deck|) && Consistent(r, deck) && !AllAnswered(r, deck)
  {
    assert !(deck[0] in Reset(s).known || deck[0] in Reset(s).unknown);
  }

  // ----- The celebration happens at most once between resets -----

  /** The user's actions and the confetti timer: every handler apart from `loadProgress`. */
  datatype Event = FlipEvent | NextEvent | PrevEvent | KnownEvent | UnknownEvent | ResetEvent | ConfettiEvent

  function Apply(s: Session, deck: seq<string>, e: Event): (r: Session)
    requires InRange(s, |deck|)
    ensures InRange(r, |deck|)
    ensures e != ResetEvent && s.celebrated ==> r.celebrated
  {
    HandlersKeepInRange(s, deck);
    match e
    case FlipEvent => Flip(s)
    case NextEvent => Next(s, |deck|)
    case PrevEvent => Prev(s)
    case KnownEvent => MarkKnown(s, deck)
    case UnknownEvent => MarkUnknown(s, deck)
    case ResetEvent => Reset(s)
    case ConfettiEvent => ConfettiOff(s)
  }

  /** The session after `events`, in order. */
  function Run(s: Session, deck: seq<string>, events: seq<Event>): (r: Session)
    requires InRange(s, |deck|)
    ensures InRange(r, |deck|)
    decreases |events|
  {
    if events == [] then s else Run(Apply(s, deck, events[0]), deck, events[1..])
  }

  /**
   * From the initial state of a non-empty deck, every sequence of actions keeps the index
   * inside the deck and the two sets disjoint and within the deck, so the counts never
   * exceed the deck length.
   */
  lemma {:induction false} SessionInvariants(s: Session, deck: seq<string>, events: seq<Event>)
    requires InRange(s, |deck|) && Consistent(s, deck)
    ensures Consistent(Run(s, deck, events), deck)
    ensures |Run(s, deck, events).known| + |Run(s, deck, events).unknown| <= |deck|
    decreases |events|
  {
    if events == [] {
      AnsweredAtMostDeck(s, deck);
    } else {
      HandlersKeepConsistent(s, deck);
      SessionInvariants(Apply(s, deck, events[0]), deck, events[1..]);
    }
  }

  lemma InitialSession(deck: seq<string>)
    requires |deck| > 0
    ensures InRange(Initial, |deck|) && Consistent(Initial, deck) && !Initial.celebrated
  {
  }

  /** How many of `events`, applied in order from `s`, show the celebration for the first time. */
  function Firings(s: Session, deck: seq<string>, events: seq<Event>): nat
    requires InRange(s, |deck|)
    decreases |events|
  {
    if events == [] then 0
    else
      var t := Apply(s, deck, events[0]);
      (if !s.celebrated && t.celebrated then 1 else 0) + Firings(t, deck, events[1..])
  }

  /** Between resets the celebration fires at most once, and not at all once it has fired. */
  lemma {:induction false} CelebrationAtMostOnce(s: Session, deck: seq<string>, events: seq<Event>)
    requires InRange(s, |deck|)
    requires forall k :: 0 <= k < |events| ==> events[k] != ResetEvent
    ensures Firings(s, deck, events) <= 1
    ensures s.celebrated ==> Firings(s, deck, events) == 0
    decreases |events|
  {
    if events != [] {
      CelebrationAtMostOnce(Apply(s, deck, events[0]), deck, events[1..]);
    }
  }

  // ----- Counts and completion -----

  lemma {:induction false} DeckIdsSize(deck: seq<string>)
    ensures |DeckIds(deck)| <= |deck|
    ensures Distinct(deck) ==> |DeckIds(deck)| == |deck|
  {
    if deck != [] {
      var init := deck[..|deck| - 1];
      var last := deck[|deck| - 1];
      DeckIdsSize(init);
      assert DeckIds(deck) == DeckIds(init) + {last} by {
        forall x | x in DeckIds(deck) ensures x in DeckIds(init) + {last} {
          var i :| 0 <= i < |deck| && deck[i] == x;
          if i < |deck| - 1 {
            assert init[i] == x;
          }
        }
      }
      if Distinct(deck) {
        assert Distinct(init);
        assert last !in DeckIds(init);
      }
    }
  }

  /** With consistent sets, there are never more answers than cards. */
  lemma AnsweredAtMostDeck(s: Session, deck: seq<string>)
    requires Consistent(s, deck)
    ensures |s.known| + |s.unknown| <= |deck|
  {
    assert |s.known + s.unknown| == |s.known| + |s.unknown|;
    assert s.known + s.unknown <= DeckIds(deck);
    SubsetSize(s.known + s.unknown, DeckIds(deck));
    DeckIdsSize(deck);
  }

  lemma SubsetSize(a: set<string>, b: set<string>)
    requires a <= b
    ensures |a| <= |b|
    ensures |a| == |b| ==> a == b
  {
    assert b == a + (b - a);
    assert |b| == |a| + |b - a|;
    if |a| == |b| {
      assert |b - a| == 0;
    }
  }

  /**
   * On a deck of distinct ids with consistent sets, every card is answered exactly when the
   * two counts add up to the deck length; so completion is requested exactly then.
   */
  lemma AllAnsweredIffCountsFill(s: Session, deck: seq<string>, demoMode: bool)
    requires Distinct(deck) && Consistent(s, deck)
    ensures AllAnswered(s, deck) <==> |s.known| + |s.unknown| == |deck|
    ensures ShouldMarkComplete(s, deck, demoMode)
        <==> s.loaded && !demoMode && |deck| > 0 && |s.known| + |s.unknown| == |deck|
  {
    var answered := s.known + s.unknown;
    assert |answered| == |s.known| + |s.unknown|;
    DeckIdsSize(deck);
    SubsetSize(answered, DeckIds(deck));
    if AllAnswered(s, deck) {
      forall x | x in DeckIds(deck) ensures x in answered {
        var i :| 0 <= i < |deck| && deck[i] == x;
      }
      assert answered == DeckIds(deck);
    }
    if |answered| == |deck| {
      forall i | 0 <= i < |deck| ensures deck[i] in s.known || deck[i] in s.unknown {
        assert deck[i] in DeckIds(deck);
      }
    }
  }

  // ----- Saved progress -----

  /** Saving and loading again within 30 days restores index, sets and celebration flag. */
  lemma SaveLoadRoundTrip(s: Session, later: Session, saveTime: int, now: int)
    requires s.loaded
    requires now - saveTime < 30 * DayMillis
    ensures var r := Load(later, Save(s, saveTime), now);
            r.index == s.index && r.known == s.known && r.unknown == s.unknown && r.celebrated == s.celebrated
  {
  }

  /**
   * `loadProgress` does not check the saved index against the deck: from an index inside
   * the deck, loading keeps it inside exactly when no fresh record is restored or the
   * restored index lies in the deck.
   */
  lemma LoadIndexInRange(s: Session, deck: seq<string>, saved: Option<SavedProgress>, now: int)
    requires InRange(s, |deck|)
    ensures InRange(Load(s, saved, now), |deck|)
        <==> saved.None? || now - saved.value.lastUpdated >= 30 * DayMillis
             || 0 <= saved.value.currentIndex < |deck|
  {
  }

  /** Loading a consistent record from a consistent state keeps the sets consistent. */
  lemma LoadKeepsConsistent(s: Session, deck: seq<string>, saved: Option<SavedProgress>, now: int)
    requires Consistent(s, deck)
    requires saved.Some? ==> saved.value.knownCards !! saved.value.unknownCards
                             && saved.value.knownCards <= DeckIds(deck) && saved.value.unknownCards <= DeckIds(deck)
    ensures Consistent(Load(s, saved, now), deck)
  {
  }
}
