/**
 * The quiz and flashcard store: decks of flashcards, each deck carrying a
 * stored count of the cards that point at it, and generated quizzes that
 * record the user's answers and a score computed by the caller.
 */
module Quiz {
  import opened Wrappers
  import opened Seqs

  datatype Deck = Deck(
    id: string,
    name: string,
    description: Option<string>,
    createdAt: int,
    cardCount: int)

  /** A flashcard; `interval`, `easeFactor` and `repetitions` are spaced-repetition fields nothing advances yet. */
  datatype Flashcard = Flashcard(
    id: string,
    front: string,
    back: string,
    deckId: string,
    createdAt: int,
    nextReview: int,
    interval: int,
    easeFactor: real,
    repetitions: int)

  /** The front and back text of a card to be added. */
  datatype CardInput = CardInput(front: string, back: string)

  /** A partial flashcard: the fields present are written over the card, the absent ones kept. */
  datatype FlashcardUpdate = FlashcardUpdate(
    id: Option<string>,
    front: Option<string>,
    back: Option<string>,
    deckId: Option<string>,
    createdAt: Option<int>,
    nextReview: Option<int>,
    interval: Option<int>,
    easeFactor: Option<real>,
    repetitions: Option<int>)

  datatype QuizQuestion = QuizQuestion(
    id: string,
    question: string,
    options: seq<string>,
    correctIndex: int,
    explanation: string,
    userAnswer: Option<int>)

  datatype Quiz = Quiz(
    id: string,
    topic: string,
    questions: seq<QuizQuestion>,
    createdAt: int,
    score: Option<int>,
    completedAt: Option<int>)

  const INITIAL_INTERVAL: int := 0
  const INITIAL_EASE_FACTOR: real := 2.5
  const INITIAL_REPETITIONS: int := 0

  // ---------------------------------------------------------------------------
  // Predicates handed to filter and find

  function InDeck(deckId: string): Flashcard -> bool {
    (f: Flashcard) => f.deckId == deckId
  }

  function NotInDeck(deckId: string): Flashcard -> bool {
    (f: Flashcard) => f.deckId != deckId
  }

  function CardHasId(id: string): Flashcard -> bool {
    (f: Flashcard) => f.id == id
  }

  function CardIdIsNot(id: string): Flashcard -> bool {
    (f: Flashcard) => f.id != id
  }

  function DeckIdIsNot(id: string): Deck -> bool {
    (d: Deck) => d.id != id
  }

  function QuizIdIsNot(id: string): Quiz -> bool {
    (q: Quiz) => q.id != id
  }

  // ---------------------------------------------------------------------------
  // The deck/flashcard consistency invariant

  /** The ids of the decks, in order. */
  function DeckIds(decks: seq<Deck>): (ids: seq<string>)
    ensures |ids| == |decks|
    ensures forall i :: 0 <= i < |decks| ==> ids[i] == decks[i].id
  {
    seq(|decks|, i requires 0 <= i < |decks| => decks[i].id)
  }

  /** The flashcards of deck `deckId`, in store order: every card pointing at it and no other. */
  function GetDeckFlashcards(cards: seq<Flashcard>, deckId: string): (r: seq<Flashcard>)
    ensures |r| <= |cards|
    ensures forall i :: 0 <= i < |r| ==> r[i].deckId == deckId && r[i] in cards
    ensures forall i :: 0 <= i < |cards| && cards[i].deckId == deckId ==> cards[i] in r
  {
    Filter(cards, InDeck(deckId))
  }

  /** Every deck's stored count equals the number of flashcards pointing at it. */
  predicate CountsMatch(decks: seq<Deck>, cards: seq<Flashcard>) {
    forall i :: 0 <= i < |decks| ==> decks[i].cardCount == |GetDeckFlashcards(cards, decks[i].id)|
  }

  /** Every flashcard points at a deck of the store. */
  predicate CardsHaveDecks(decks: seq<Deck>, cards: seq<Flashcard>) {
    forall j :: 0 <= j < |cards| ==> cards[j].deckId in DeckIds(decks)
  }

  predicate DistinctCardIds(cards: seq<Flashcard>) {
    forall i, j :: 0 <= i < j < |cards| ==> cards[i].id != cards[j].id
  }

  /** The state the deck and flashcard operations are meant to keep. */
  predicate Consistent(decks: seq<Deck>, cards: seq<Flashcard>) {
    CountsMatch(decks, cards) && CardsHaveDecks(decks, cards) && DistinctCardIds(cards)
  }

  // ---------------------------------------------------------------------------
  // createDeck

  /** `id` is neither a deck's id nor the deck a flashcard points at. */
  predicate DeckIdUnused(decks: seq<Deck>, cards: seq<Flashcard>, id: string) {
    && (forall i :: 0 <= i < |decks| ==> decks[i].id != id)
    && (forall j :: 0 <= j < |cards| ==> cards[j].deckId != id)
  }

  /** The deck list after an empty deck is put at its front. */
  function WithNewDeck(decks: seq<Deck>, id: string, name: string, description: Option<string>, now: int)
    : (r: seq<Deck>)
    ensures |r| == |decks| + 1 && r[1..] == decks
    ensures r[0].id == id && r[0].name == name && r[0].description == description
    ensures r[0].createdAt == now && r[0].cardCount == 0
  {
    [Deck(id, name, description, now, 0)] + decks
  }

  /** Creating a deck under an unused id keeps the store consistent. */
  lemma CreateDeckKeepsConsistent(decks: seq<Deck>, cards: seq<Flashcard>, id: string,
                                  name: string, description: Option<string>, now: int)
    requires Consistent(decks, cards) && DeckIdUnused(decks, cards, id)
    ensures Consistent(WithNewDeck(decks, id, name, description, now), cards)
  {
    var decks' := WithNewDeck(decks, id, name, description, now);
    FilterDropsAll(cards, InDeck(id));
    assert forall i :: 0 < i < |decks'| ==> decks'[i] == decks[i - 1];
    forall j | 0 <= j < |cards|
      ensures cards[j].deckId in DeckIds(decks')
    {
      var i :| 0 <= i < |decks| && DeckIds(decks)[i] == cards[j].deckId;
      assert DeckIds(decks')[i + 1] == cards[j].deckId;
    }
  }

  // ---------------------------------------------------------------------------
  // deleteDeck

  /** The decks other than `id`. */
  function WithoutDeck(decks: seq<Deck>, id: string): (r: seq<Deck>)
    ensures forall i :: 0 <= i < |r| ==> r[i].id != id && r[i] in decks
    ensures forall i :: 0 <= i < |decks| && decks[i].id != id ==> decks[i] in r
  {
    Filter(decks, DeckIdIsNot(id))
  }

  /** The flashcards that do not belong to deck `id`. */
  function CardsOutsideDeck(cards: seq<Flashcard>, id: string): (r: seq<Flashcard>)
    ensures forall i :: 0 <= i < |r| ==> r[i].deckId != id && r[i] in cards
    ensures forall i :: 0 <= i < |cards| && cards[i].deckId != id ==> cards[i] in r
  {
    Filter(cards, NotInDeck(id))
  }

  /** Deleting a deck and its flashcards keeps the store consistent. */
  lemma DeleteDeckKeepsConsistent(decks: seq<Deck>, cards: seq<Flashcard>, id: string)
    requires Consistent(decks, cards)
    ensures Consistent(WithoutDeck(decks, id), CardsOutsideDeck(cards, id))
  {
    var decks', cards' := WithoutDeck(decks, id), CardsOutsideDeck(cards, id);
    forall i | 0 <= i < |decks'|
      ensures decks'[i].cardCount == |GetDeckFlashcards(cards', decks'[i].id)|
    {
      var e := decks'[i].id;
      FilterCommutes(cards, NotInDeck(id), InDeck(e));
      FilterKeepsAll(GetDeckFlashcards(cards, e), NotInDeck(id));
    }
    forall j | 0 <= j < |cards'|
      ensures cards'[j].deckId in DeckIds(decks')
    {
      var k :| 0 <= k < |cards| && cards[k] == cards'[j];
      var i :| 0 <= i < |decks| && DeckIds(decks)[i] == cards[k].deckId;
      var n :| 0 <= n < |decks'| && decks'[n] == decks[i];
      assert DeckIds(decks')[n] == cards'[j].deckId;
    }
    FilterKeepsDistinctIds(cards, NotInDeck(id));
  }

  // ---------------------------------------------------------------------------
  // addFlashcards

  /** Fresh ids for `n` new flashcards: as many as cards, pairwise distinct, none in use. */
  predicate FreshCardIds(cards: seq<Flashcard>, ids: seq<string>, n: nat) {
    && |ids| == n
    && (forall i, j :: 0 <= i < j < |ids| ==> ids[i] != ids[j])
    && (forall i, j :: 0 <= i < |ids| && 0 <= j < |cards| ==> ids[i] != cards[j].id)
  }

  /** The new flashcards for deck `deckId`, one per input, with the initial spaced-repetition values. */
  function NewCards(deckId: string, inputs: seq<CardInput>, ids: seq<string>, now: int): (r: seq<Flashcard>)
    requires |ids| == |inputs|
    ensures |r| == |inputs|
    ensures forall i :: 0 <= i < |r| ==>
      && r[i].id == ids[i] && r[i].deckId == deckId
      && r[i].front == inputs[i].front && r[i].back == inputs[i].back
      && r[i].createdAt == now && r[i].nextReview == now
      && r[i].interval == 0 && r[i].easeFactor == 2.5 && r[i].repetitions == 0
  {
    seq(|inputs|, i requires 0 <= i < |inputs| =>
      Flashcard(ids[i], inputs[i].front, inputs[i].back, deckId, now, now,
                INITIAL_INTERVAL, INITIAL_EASE_FACTOR, INITIAL_REPETITIONS))
  }

  /** The decks after `n` cards were added to `deckId`: only that deck's count grows, by `n`. */
  function CountAdded(decks: seq<Deck>, deckId: string, n: int): (r: seq<Deck>)
    ensures |r| == |decks|
    ensures forall i :: 0 <= i < |r| ==>
      r[i].(cardCount := decks[i].cardCount) == decks[i]
      && r[i].cardCount == decks[i].cardCount + (if decks[i].id == deckId then n else 0)
  {
    seq(|decks|, i requires 0 <= i < |decks| =>
      if decks[i].id == deckId then decks[i].(cardCount := decks[i].cardCount + n) else decks[i])
  }

  /** Adding cards to a deck of the store, under fresh ids, keeps the store consistent. */
  lemma AddFlashcardsKeepsConsistent(decks: seq<Deck>, cards: seq<Flashcard>, deckId: string,
                                     inputs: seq<CardInput>, ids: seq<string>, now: int)
    requires Consistent(decks, cards)
    requires deckId in DeckIds(decks)
    requires FreshCardIds(cards, ids, |inputs|)
    ensures Consistent(CountAdded(decks, deckId, |inputs|), cards + NewCards(deckId, inputs, ids, now))
  {
    var added := NewCards(deckId, inputs, ids, now);
    var decks', cards' := CountAdded(decks, deckId, |inputs|), cards + added;
    forall i | 0 <= i < |decks'|
      ensures decks'[i].cardCount == |GetDeckFlashcards(cards', decks'[i].id)|
    {
      var e := decks[i].id;
      FilterConcat(cards, added, InDeck(e));
      if e == deckId {
        FilterKeepsAll(added, InDeck(e));
      } else {
        FilterDropsAll(added, InDeck(e));
      }
    }
    forall j | 0 <= j < |cards'|
      ensures cards'[j].deckId in DeckIds(decks')
    {
      var i :| 0 <= i < |decks| && DeckIds(decks)[i] == (if j < |cards| then cards[j].deckId else deckId);
      assert DeckIds(decks')[i] == DeckIds(decks)[i];
    }
  }

  /**
   * Adding cards to a deck that does not exist leaves the decks untouched and
   * the new cards pointing at no deck: the store is no longer consistent.
   */
  lemma AddFlashcardsToUnknownDeckOrphansCards(decks: seq<Deck>, cards: seq<Flashcard>, deckId: string,
                                               inputs: seq<CardInput>, ids: seq<string>, now: int)
    requires deckId !in DeckIds(decks)
    requires |inputs| > 0 && |ids| == |inputs|
    ensures CountAdded(decks, deckId, |inputs|) == decks
    ensures !CardsHaveDecks(decks, cards + NewCards(deckId, inputs, ids, now))
  {
    var decks' := CountAdded(decks, deckId, |inputs|);
    forall i | 0 <= i < |decks|
      ensures decks'[i] == decks[i]
    {
      assert DeckIds(decks)[i] == decks[i].id;
    }
    assert (cards + NewCards(deckId, inputs, ids, now))[|cards|].deckId == deckId;
  }

  // ---------------------------------------------------------------------------
  // updateFlashcard

  /** `f` with the fields present in `u` written over it. */
  function ApplyUpdate(f: Flashcard, u: FlashcardUpdate): Flashcard {
    Flashcard(
      if u.id.Some? then u.id.value else f.id,
      if u.front.Some? then u.front.value else f.front,
      if u.back.Some? then u.back.value else f.back,
      if u.deckId.Some? then u.deckId.value else f.deckId,
      if u.createdAt.Some? then u.createdAt.value else f.createdAt,
      if u.nextReview.Some? then u.nextReview.value else f.nextReview,
      if u.interval.Some? then u.interval.value else f.interval,
      if u.easeFactor.Some? then u.easeFactor.value else f.easeFactor,
      if u.repetitions.Some? then u.repetitions.value else f.repetitions)
  }

  /** The flashcards after the cards with id `id` are updated with `u`; every other card is unchanged. */
  function UpdatedCards(cards: seq<Flashcard>, id: string, u: FlashcardUpdate): (r: seq<Flashcard>)
    ensures |r| == |cards|
    ensures forall i :: 0 <= i < |r| && cards[i].id != id ==> r[i] == cards[i]
    ensures forall i :: 0 <= i < |r| && cards[i].id == id ==> r[i] == ApplyUpdate(cards[i], u)
  {
    seq(|cards|, i requires 0 <= i < |cards| =>
      if cards[i].id == id then ApplyUpdate(cards[i], u) else cards[i])
  }

  /** Two card lists whose cards point at the same decks, position by position, give every deck the same cards count. */
  lemma {:induction false} SameDecksSameCounts(a: seq<Flashcard>, b: seq<Flashcard>, e: string)
    requires |a| == |b|
    requires forall i :: 0 <= i < |a| ==> a[i].deckId == b[i].deckId
    ensures |GetDeckFlashcards(a, e)| == |GetDeckFlashcards(b, e)|
  {
    if a != [] {
      SameDecksSameCounts(a[1..], b[1..], e);
    }
  }

  /** An update that changes neither the id nor the deck of a card keeps the store consistent. */
  lemma UpdateFlashcardKeepsConsistent(decks: seq<Deck>, cards: seq<Flashcard>, id: string, u: FlashcardUpdate)
    requires Consistent(decks, cards)
    requires u.id.None? && u.deckId.None?
    ensures Consistent(decks, UpdatedCards(cards, id, u))
  {
    var cards' := UpdatedCards(cards, id, u);
    forall i | 0 <= i < |decks|
      ensures decks[i].cardCount == |GetDeckFlashcards(cards', decks[i].id)|
    {
      SameDecksSameCounts(cards, cards', decks[i].id);
    }
  }

  /** An update that moves a card to another deck leaves both decks' counts stale. */
  lemma UpdateFlashcardDeckBreaksCounts()
    ensures var decks := [Deck("a", "A", None, 0, 1), Deck("b", "B", None, 0, 0)];
      var cards := [Flashcard("c", "front", "back", "a", 0, 0, 0, 2.5, 0)];
      var move := FlashcardUpdate(None, None, None, Some("b"), None, None, None, None, None);
      Consistent(decks, cards) && !CountsMatch(decks, UpdatedCards(cards, "c", move))
  {
    var decks := [Deck("a", "A", None, 0, 1), Deck("b", "B", None, 0, 0)];
    var cards := [Flashcard("c", "front", "back", "a", 0, 0, 0, 2.5, 0)];
    var move := FlashcardUpdate(None, None, None, Some("b"), None, None, None, None, None);
    var moved := UpdatedCards(cards, "c", move);
    assert GetDeckFlashcards(cards, "a") == cards;
    assert GetDeckFlashcards(cards, "b") == [];
    assert DeckIds(decks) == ["a", "b"];
    assert moved == [Flashcard("c", "front", "back", "b", 0, 0, 0, 2.5, 0)];
    assert GetDeckFlashcards(moved, "a") == [];
  }

  // ---------------------------------------------------------------------------
  // deleteFlashcard

  /** The flashcards other than `id`. */
  function CardsWithoutId(cards: seq<Flashcard>, id: string): (r: seq<Flashcard>)
    ensures forall i :: 0 <= i < |r| ==> r[i].id != id && r[i] in cards
    ensures forall i :: 0 <= i < |cards| && cards[i].id != id ==> cards[i] in r
    ensures (forall i :: 0 <= i < |cards| ==> cards[i].id != id) ==> r == cards
  {
    var r := Filter(cards, CardIdIsNot(id));
    assert (forall i :: 0 <= i < |cards| ==> cards[i].id != id) ==> r == cards by {
      if forall i :: 0 <= i < |cards| ==> cards[i].id != id {
        FilterKeepsAll(cards, CardIdIsNot(id));
      }
    }
    r
  }

  /**
   * The decks after the card `removed` (the one found by id, if any) is
   * deleted: the count of its deck drops by one; with no card found nothing
   * changes.
   */
  function DecksAfterCardDelete(decks: seq<Deck>, removed: Option<Flashcard>): (r: seq<Deck>)
    ensures removed.None? ==> r == decks
    ensures removed.Some? ==> r == CountAdded(decks, removed.value.deckId, -1)
  {
    seq(|decks|, i requires 0 <= i < |decks| =>
      if removed.Some? && decks[i].id == removed.value.deckId
      then decks[i].(cardCount := decks[i].cardCount - 1)
      else decks[i])
  }

  lemma {:induction false} FilterKeepsDistinctIds(s: seq<Flashcard>, keep: Flashcard -> bool)
    requires DistinctCardIds(s)
    ensures DistinctCardIds(Filter(s, keep))
  {
    if s != [] {
      FilterKeepsDistinctIds(s[1..], keep);
      var rest := Filter(s[1..], keep);
      forall j | 0 <= j < |rest|
        ensures rest[j].id != s[0].id
      {
        var k :| 0 <= k < |s[1..]| && s[1..][k] == rest[j];
        assert s[k + 1] == rest[j];
      }
    }
  }

  /** Removing the one card with id `id` from a list of distinct ids shortens it by exactly one. */
  lemma {:induction false} RemoveUniqueCard(t: seq<Flashcard>, id: string, k: int)
    requires DistinctCardIds(t)
    requires 0 <= k < |t| && t[k].id == id
    ensures |Filter(t, CardIdIsNot(id))| == |t| - 1
  {
    if k == 0 {
      FilterKeepsAll(t[1..], CardIdIsNot(id));
    } else {
      RemoveUniqueCard(t[1..], id, k - 1);
    }
  }

  /** Deleting the card `cards[k]` leaves its deck one card fewer and every other deck as many as before. */
  lemma DeleteCardDeckCount(cards: seq<Flashcard>, k: int, e: string)
    requires DistinctCardIds(cards) && 0 <= k < |cards|
    ensures |GetDeckFlashcards(CardsWithoutId(cards, cards[k].id), e)|
         == |GetDeckFlashcards(cards, e)| - (if cards[k].deckId == e then 1 else 0)
  {
    var id := cards[k].id;
    var t := GetDeckFlashcards(cards, e);
    FilterCommutes(cards, CardIdIsNot(id), InDeck(e));
    FilterKeepsDistinctIds(cards, InDeck(e));
    if cards[k].deckId == e {
      var n :| 0 <= n < |t| && t[n] == cards[k];
      RemoveUniqueCard(t, id, n);
    } else {
      forall n | 0 <= n < |t|
        ensures t[n].id != id
      {
        var m :| 0 <= m < |cards| && cards[m] == t[n];
      }
      FilterKeepsAll(t, CardIdIsNot(id));
    }
  }

  /** Deleting a flashcard keeps the store consistent, whether or not the id exists. */
  lemma DeleteFlashcardKeepsConsistent(decks: seq<Deck>, cards: seq<Flashcard>, id: string)
    requires Consistent(decks, cards)
    ensures Consistent(DecksAfterCardDelete(decks, Find(cards, CardHasId(id))), CardsWithoutId(cards, id))
  {
    var found := Find(cards, CardHasId(id));
    var decks', cards' := DecksAfterCardDelete(decks, found), CardsWithoutId(cards, id);
    FilterKeepsDistinctIds(cards, CardIdIsNot(id));
    if found.Some? {
      var k := FindIsFirst(cards, CardHasId(id));
      forall i | 0 <= i < |decks'|
        ensures decks'[i].cardCount == |GetDeckFlashcards(cards', decks'[i].id)|
      {
        DeleteCardDeckCount(cards, k, decks[i].id);
      }
      assert DeckIds(decks') == DeckIds(decks);
    }
  }

  // ---------------------------------------------------------------------------
  // Quizzes

  /** The quiz list after a new quiz is put at its front, with its questions as given and no result. */
  function WithNewQuiz(quizzes: seq<Quiz>, id: string, topic: string, questions: seq<QuizQuestion>, now: int)
    : (r: seq<Quiz>)
    ensures |r| == |quizzes| + 1 && r[1..] == quizzes
    ensures r[0].id == id && r[0].topic == topic && r[0].questions == questions && r[0].createdAt == now
    ensures r[0].score.None? && r[0].completedAt.None?
  {
    [Quiz(id, topic, questions, now, None, None)] + quizzes
  }

  /**
   * The quizzes after question `questionId` of quiz `quizId` gets the answer
   * `answer`: that question's `userAnswer` becomes `answer` whatever it was;
   * every other question, and every other field, is unchanged.
   */
  function Answered(quizzes: seq<Quiz>, quizId: string, questionId: string, answer: int): (r: seq<Quiz>)
    ensures |r| == |quizzes|
    ensures forall i :: 0 <= i < |r| ==>
      r[i].(questions := quizzes[i].questions) == quizzes[i] && |r[i].questions| == |quizzes[i].questions|
    ensures forall i, j :: 0 <= i < |r| && 0 <= j < |r[i].questions| ==>
      r[i].questions[j].(userAnswer := quizzes[i].questions[j].userAnswer) == quizzes[i].questions[j]
      && r[i].questions[j].userAnswer ==
           (if quizzes[i].id == quizId && quizzes[i].questions[j].id == questionId then Some(answer)
            else quizzes[i].questions[j].userAnswer)
  {
    seq(|quizzes|, i requires 0 <= i < |quizzes| =>
      if quizzes[i].id == quizId
      then quizzes[i].(questions := seq(|quizzes[i].questions|, j requires 0 <= j < |quizzes[i].questions| =>
             var q := quizzes[i].questions[j];
             if q.id == questionId then q.(userAnswer := Some(answer)) else q))
      else quizzes[i])
  }

  /** The store keeps the latest answer: a second answer to the same question replaces the first. */
  lemma AnswerLastWriteWins(quizzes: seq<Quiz>, quizId: string, questionId: string, first: int, second: int)
    ensures Answered(Answered(quizzes, quizId, questionId, first), quizId, questionId, second)
         == Answered(quizzes, quizId, questionId, second)
  {
    var lhs := Answered(Answered(quizzes, quizId, questionId, first), quizId, questionId, second);
    var rhs := Answered(quizzes, quizId, questionId, second);
    forall i | 0 <= i < |quizzes|
      ensures lhs[i] == rhs[i]
    {
      assert lhs[i].questions == rhs[i].questions;
    }
  }

  /**
   * The quizzes after quiz `quizId` is completed with `score` at time `now`:
   * that quiz records both; every other field and every other quiz is unchanged.
   */
  function Completed(quizzes: seq<Quiz>, quizId: string, score: int, now: int): (r: seq<Quiz>)
    ensures |r| == |quizzes|
    ensures forall i :: 0 <= i < |r| && quizzes[i].id != quizId ==> r[i] == quizzes[i]
    ensures forall i :: 0 <= i < |r| && quizzes[i].id == quizId ==>
      && r[i].score == Some(score) && r[i].completedAt == Some(now)
      && r[i].(score := quizzes[i].score, completedAt := quizzes[i].completedAt) == quizzes[i]
  {
    seq(|quizzes|, i requires 0 <= i < |quizzes| =>
      if quizzes[i].id == quizId then quizzes[i].(score := Some(score), completedAt := Some(now)) else quizzes[i])
  }

  /** Completing a quiz again overwrites both the score and the completion time with the latest call's. */
  lemma CompleteQuizLastCallWins(quizzes: seq<Quiz>, quizId: string, score1: int, now1: int, score2: int, now2: int)
    ensures Completed(Completed(quizzes, quizId, score1, now1), quizId, score2, now2)
         == Completed(quizzes, quizId, score2, now2)
  {
    var lhs := Completed(Completed(quizzes, quizId, score1, now1), quizId, score2, now2);
    var rhs := Completed(quizzes, quizId, score2, now2);
    assert forall i :: 0 <= i < |quizzes| ==> lhs[i] == rhs[i];
  }

  /** The quizzes other than `id`. */
  function WithoutQuiz(quizzes: seq<Quiz>, id: string): (r: seq<Quiz>)
    ensures forall i :: 0 <= i < |r| ==> r[i].id != id && r[i] in quizzes
    ensures forall i :: 0 <= i < |quizzes| && quizzes[i].id != id ==> quizzes[i] in r
  {
    Filter(quizzes, QuizIdIsNot(id))
  }

  // ---------------------------------------------------------------------------
  // The store

  class QuizStore {
    var decks: seq<Deck>
    var flashcards: seq<Flashcard>
    var quizzes: seq<Quiz>

    ghost predicate Valid()
      reads this
    {
      Consistent(decks, flashcards)
    }

    constructor ()
      ensures decks == [] && flashcards == [] && quizzes == []
      ensures Valid()
    {
      decks, flashcards, quizzes := [], [], [];
    }

    method CreateDeck(name: string, description: Option<string>, freshId: string, now: int) returns (id: string)
      requires DeckIdUnused(decks, flashcards, freshId)
      modifies this
      ensures id == freshId
      ensures decks == WithNewDeck(old(decks), id, name, description, now)
      ensures flashcards == old(flashcards) && quizzes == old(quizzes)
      ensures old(Valid()) ==> Valid()
    {
      id := freshId;
      if Valid() {
        CreateDeckKeepsConsistent(decks, flashcards, id, name, description, now);
      }
      decks := WithNewDeck(decks, id, name, description, now);
    }

    method DeleteDeck(id: string)
      modifies this
      ensures decks == WithoutDeck(old(decks), id)
      ensures flashcards == CardsOutsideDeck(old(flashcards), id)
      ensures quizzes == old(quizzes)
      ensures old(Valid()) ==> Valid()
    {
      if Valid() {
        DeleteDeckKeepsConsistent(decks, flashcards, id);
      }
      decks, flashcards := WithoutDeck(decks, id), CardsOutsideDeck(flashcards, id);
    }

    /** Appends one card per input to deck `deckId`, under the fresh ids `freshIds`, stamped `now`. */
    method AddFlashcards(deckId: string, cards: seq<CardInput>, freshIds: seq<string>, now: int)
      requires FreshCardIds(flashcards, freshIds, |cards|)
      modifies this
      ensures flashcards == old(flashcards) + NewCards(deckId, cards, freshIds, now)
      ensures decks == CountAdded(old(decks), deckId, |cards|)
      ensures quizzes == old(quizzes)
      ensures old(Valid()) && deckId in DeckIds(old(decks)) ==> Valid()
    {
      if Valid() && deckId in DeckIds(decks) {
        AddFlashcardsKeepsConsistent(decks, flashcards, deckId, cards, freshIds, now);
      }
      var newCards := NewCards(deckId, cards, freshIds, now);
      flashcards := flashcards + newCards;
      decks := CountAdded(decks, deckId, |cards|);
    }

    method UpdateFlashcard(id: string, updates: FlashcardUpdate)
      modifies this
      ensures flashcards == UpdatedCards(old(flashcards), id, updates)
      ensures decks == old(decks) && quizzes == old(quizzes)
      ensures old(Valid()) && updates.id.None? && updates.deckId.None? ==> Valid()
    {
      if Valid() && updates.id.None? && updates.deckId.None? {
        UpdateFlashcardKeepsConsistent(decks, flashcards, id, updates);
      }
      flashcards := UpdatedCards(flashcards, id, updates);
    }

    method DeleteFlashcard(id: string)
      modifies this
      ensures flashcards == CardsWithoutId(old(flashcards), id)
      ensures decks == DecksAfterCardDelete(old(decks), Find(old(flashcards), CardHasId(id)))
      ensures quizzes == old(quizzes)
      ensures old(Valid()) ==> Valid()
    {
      var card := Find(flashcards, CardHasId(id));
      if Valid() {
        DeleteFlashcardKeepsConsistent(decks, flashcards, id);
      }
      flashcards, decks := CardsWithoutId(flashcards, id), DecksAfterCardDelete(decks, card);
    }

    /** Stores a quiz with the questions as given under the fresh id `freshId`, created at `now`. */
    method CreateQuiz(topic: string, questions: seq<QuizQuestion>, freshId: string, now: int) returns (id: string)
      requires forall i :: 0 <= i < |quizzes| ==> quizzes[i].id != freshId
      modifies this
      ensures id == freshId
      ensures quizzes == WithNewQuiz(old(quizzes), id, topic, questions, now)
      ensures decks == old(decks) && flashcards == old(flashcards)
    {
      id := freshId;
      quizzes := WithNewQuiz(quizzes, id, topic, questions, now);
    }

    method UpdateQuizAnswer(quizId: string, questionId: string, answer: int)
      modifies this
      ensures quizzes == Answered(old(quizzes), quizId, questionId, answer)
      ensures decks == old(decks) && flashcards == old(flashcards)
    {
      quizzes := Answered(quizzes, quizId, questionId, answer);
    }

    method CompleteQuiz(quizId: string, score: int, now: int)
      modifies this
      ensures quizzes == Completed(old(quizzes), quizId, score, now)
      ensures decks == old(decks) && flashcards == old(flashcards)
    {
      quizzes := Completed(quizzes, quizId, score, now);
    }

    method DeleteQuiz(id: string)
      modifies this
      ensures quizzes == WithoutQuiz(old(quizzes), id)
      ensures decks == old(decks) && flashcards == old(flashcards)
    {
      quizzes := WithoutQuiz(quizzes, id);
    }
  }
}
