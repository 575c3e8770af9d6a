# Synapse study assistant: the client-side stores in Dafny

Synapse is a desktop study assistant. A user chats with a language model,
generates quizzes and flashcards, and builds study plans. All of its domain
logic lives in four client-side stores plus a fixed provider/model catalogue.
This project models them:

- **Conversation store** (`chat_store.dfy`, module `Chat`). It holds the
  conversations, newest first, and the active-conversation pointer.
  - Messages are only appended.
  - A title is derived once, from an opening user message.
  - A message's content can be overwritten. The chat view uses this to show a
    streamed reply as it grows.
- **Quiz/flashcard store** (`quiz_store.dfy`, module `Quiz`). It holds decks,
  flashcards and quizzes.
  - Each deck stores a `cardCount`. `Consistent` is the invariant the deck
    operations are meant to keep: every count matches the cards pointing at
    the deck, every card points at an existing deck, and card ids are
    distinct.
  - Quizzes record the answers and a score that the caller computes.
- **Planner store** (`planner_store.dfy`, module `Planner`). It holds study
  plans made of sessions, plus the active-plan pointer.
  - Sessions can be completed (in any plan) or rescheduled.
  - Progress and today's sessions are derived from the active plan.
- **Settings store** (`settings_store.dfy`, module `Settings`). It holds the
  provider, model, per-provider API keys and theme. Only provider, model and
  theme are persisted.
- **Provider/model catalogue** (`models.dfy`, module `Models`). It is the
  fixed four-provider table plus the two lookups.
- Two pure helpers taken from the UI code:
  - the quiz score (`quiz_view.dfy`, module `QuizView`);
  - the day-offset timestamps of a generated plan (`study_calendar.dfy`,
    module `StudyCalendar`).

Each store is a class whose fields are the store's state. Each mutator is a
method whose `ensures` gives the new field values as a pure function of the
old ones. That function is the store's `map`/`filter`/spread expression, and
the properties are proved about it as lemmas. The read-only queries are pure
functions of the state values. `Seqs` gives the generic `filter` and `find`
with their laws. `Wrappers` gives `Option`, used for `undefined`/`null`.

`crypto.randomUUID()` becomes a fresh-id parameter, and the method requires
that the id is not already in use. `Date.now()` becomes a `now` parameter.

Three behaviours of the code that a reader might not expect, all modelled as the code has them:

- **Title.** A title is derived only when the conversation had no messages
  and the new message is from the user. If the assistant speaks first, the
  title stays "New Chat" for good (`Chat.TitleFrozenOnceStarted`). It does
  not come from the first user message.
- **Quiz answers.** `updateQuizAnswer` overwrites an earlier answer
  (`Quiz.AnswerLastWriteWins`). The first answer wins only because the quiz
  view ignores clicks on an answered question.
- **Flashcard deck.** The deck a flashcard points at is not enforced.
  - Adding cards to an unknown deck leaves orphan cards
    (`Quiz.AddFlashcardsToUnknownDeckOrphansCards`).
  - An update that moves a card to another deck leaves the counts stale
    (`Quiz.UpdateFlashcardDeckBreaksCounts`).

## Model

| member | source | states |
|---|---|---|
| `Models.GetProviderConfig` | src/lib/ai/models.ts:69-71 | every provider has a table entry, and the entry found has that provider's id |
| `Models.GetModelConfig` | src/lib/ai/models.ts:73-76 | a model is found exactly when the provider lists that id, and the model found has that id |
| `Models.ProviderIdsDistinct` | src/lib/ai/models.ts:20-67 | the table has four entries with pairwise distinct provider ids |
| `Models.DefaultModelExists` | src/features/settings/settings-page.tsx:104-106 | every provider lists at least one model, so `models[0]` chosen on a provider switch exists and is found by `getModelConfig` |
| `Models.ModelTableWellFormed` | src/lib/ai/models.ts:24-65 | model ids are distinct within a provider and every `maxTokens` is positive |
| `Models.ModelBelongsToOneProvider` | src/lib/ai/models.ts:73-76 | a model id found for one provider is not found for any other provider |
| `Models.DefaultSettingsModelIsListed` | src/lib/ai/models.ts:25 | `gpt-4o` is an OpenAI model, with a 128000-token limit |
| `Chat.WithNewConversation` | src/lib/store/chat-store.ts:45-59 | the new conversation ("New Chat", no messages, both timestamps `now`) is at index 0 and the old list is the tail |
| `Chat.ChatStore.constructor` | src/lib/store/chat-store.ts:42-43 | no conversations and no active pointer, so no active conversation |
| `Chat.ChatStore.CreateConversation` | src/lib/store/chat-store.ts:45-59 | returns the fresh id, prepends the conversation and makes it the active one |
| `Chat.WithoutConversation` | src/lib/store/chat-store.ts:61-63 | removes exactly the conversations with that id and keeps all others; an unknown id changes nothing |
| `Wrappers.ClearedIf` | src/lib/store/chat-store.ts:64-67 | the active pointer is cleared exactly when it named the deleted id, otherwise kept |
| `Chat.ChatStore.DeleteConversation` | src/lib/store/chat-store.ts:61-68 | filters the list and clears the active pointer only when it named the deleted id |
| `Chat.ChatStore.SetActiveConversation` | src/lib/store/chat-store.ts:70 | sets only the active pointer |
| `Chat.DeriveTitle` | src/lib/store/chat-store.ts:89-90 | the title is the text itself up to 50 characters, else its first 50 plus "..."; never longer than 53 |
| `Chat.WithMessage` | src/lib/store/chat-store.ts:72-98 | the target conversation gets exactly one more message, at the end, and a new `updatedAt`; others and earlier messages are unchanged; an unknown id changes nothing |
| `Chat.AddMessageTitle` | src/lib/store/chat-store.ts:87-91 | a title changes only for the target, only while it has no messages, only for a user message, and then becomes the derived title |
| `Chat.TitleFrozenOnceStarted` | src/lib/store/chat-store.ts:87-91 | once a conversation has a message, neither adding nor editing changes its title |
| `Chat.ChatStore.AddMessage` | src/lib/store/chat-store.ts:72-98 | returns the fresh message id whether or not the conversation exists, and appends the message stamped `now` |
| `Chat.Edited` | src/lib/store/chat-store.ts:100-112 | only the content of the matching message changes; counts, order, ids, roles, timestamps, `updatedAt` and titles stay the same |
| `Chat.EditLastWriteWins` | src/lib/store/chat-store.ts:100-112 | two successive writes to one message equal the second write alone |
| `Chat.ChatStore.UpdateMessage` | src/lib/store/chat-store.ts:100-112 | replaces the list by the edited list and keeps the active pointer |
| `Chat.GetActiveConversation` | src/lib/store/chat-store.ts:114-119 | nothing when the pointer is unset or names no conversation, else the first listed conversation with that id |
| `Chat.ChatStore.ClearConversations` | src/lib/store/chat-store.ts:121-122 | empties the list and the pointer, after which there is no active conversation |
| `Chat.StreamReply` | src/features/chat/components/chat-view.tsx:72-77 | writing the running totals of the chunks one by one leaves the message holding the concatenation of all chunks |
| `Chat.StreamingExchange` | src/features/chat/components/chat-view.tsx:55-77 | new conversation, user "Hi", empty assistant reply, chunks "Hel" and "lo!": the reply reads "Hello!" |
| `Seqs.Filter` | src/lib/store/chat-store.ts:63 | `Array.prototype.filter`: no longer than its input, every element kept is an accepted element of the input, and every accepted element is kept |
| `Seqs.FilterCount` | src/lib/store/planner-store.ts:127 | the length of a filter result is the number of positions the predicate accepts |
| `Seqs.Find` | src/lib/store/chat-store.ts:116-118 | `Array.prototype.find`: nothing exactly when no element is accepted, otherwise an accepted element of the input |
| `Seqs.FilterConcat` | src/lib/store/chat-store.ts:63 | filtering keeps the survivors in their relative order |
| `Seqs.FindFirst` | src/lib/store/planner-store.ts:101 | `find` returns the element at the first accepted position |
| `Quiz.WithNewDeck` | src/lib/store/quiz-store.ts:74-83 | the new deck, with `cardCount` 0, is at index 0 and the old decks are the tail |
| `Quiz.CreateDeckKeepsConsistent` | src/lib/store/quiz-store.ts:74-83 | creating a deck under an unused id keeps the store consistent |
| `Quiz.QuizStore.CreateDeck` | src/lib/store/quiz-store.ts:74-83 | returns the fresh id, prepends the deck, leaves flashcards and quizzes alone and keeps `Valid` |
| `Quiz.WithoutDeck` | src/lib/store/quiz-store.ts:87 | removes exactly the decks with that id |
| `Quiz.CardsOutsideDeck` | src/lib/store/quiz-store.ts:88 | removes exactly the cards of that deck (the cascade) |
| `Quiz.DeleteDeckKeepsConsistent` | src/lib/store/quiz-store.ts:85-89 | deleting a deck with its cards keeps every remaining count right |
| `Quiz.QuizStore.DeleteDeck` | src/lib/store/quiz-store.ts:85-89 | filters decks and cards, leaves quizzes alone and keeps `Valid` |
| `Quiz.NewCards` | src/lib/store/quiz-store.ts:92-102 | one card per input, in order, with its fresh id, the deck id, `interval` 0, `easeFactor` 2.5 and `repetitions` 0 |
| `Quiz.CountAdded` | src/lib/store/quiz-store.ts:106-110 | only the named deck's count changes, by the number of cards |
| `Quiz.AddFlashcardsKeepsConsistent` | src/lib/store/quiz-store.ts:91-112 | adding cards to an existing deck under fresh ids keeps the store consistent |
| `Quiz.AddFlashcardsToUnknownDeckOrphansCards` | src/lib/store/quiz-store.ts:91-112 | adding cards to an unknown deck leaves the decks unchanged and the new cards pointing at no deck |
| `Quiz.QuizStore.AddFlashcards` | src/lib/store/quiz-store.ts:91-112 | appends the new cards, raises the deck's count and keeps `Valid` when the deck exists |
| `Quiz.UpdatedCards` | src/lib/store/quiz-store.ts:114-119 | only cards with the id change, and each gets the fields present in the update |
| `Quiz.UpdateFlashcardKeepsConsistent` | src/lib/store/quiz-store.ts:114-119 | an update that leaves the id and the deck alone keeps the store consistent |
| `Quiz.UpdateFlashcardDeckBreaksCounts` | src/lib/store/quiz-store.ts:114-119 | moving a card to another deck makes the counts wrong |
| `Quiz.QuizStore.UpdateFlashcard` | src/lib/store/quiz-store.ts:114-119 | maps the update over the cards and keeps `Valid` when the id and the deck are untouched |
| `Quiz.CardsWithoutId` | src/lib/store/quiz-store.ts:125 | removes exactly the cards with the id; an unknown id changes nothing |
| `Quiz.DecksAfterCardDelete` | src/lib/store/quiz-store.ts:123-129 | the count of the found card's deck drops by one; with no card found the decks are unchanged |
| `Quiz.DeleteCardDeckCount` | src/lib/store/quiz-store.ts:121-130 | deleting a card leaves its deck one card fewer and every other deck as many |
| `Quiz.DeleteFlashcardKeepsConsistent` | src/lib/store/quiz-store.ts:121-130 | deleting a card, whether it exists or not, keeps the store consistent |
| `Quiz.QuizStore.DeleteFlashcard` | src/lib/store/quiz-store.ts:121-130 | filters the cards, decrements the found card's deck and keeps `Valid` |
| `Quiz.GetDeckFlashcards` | src/lib/store/quiz-store.ts:132-133 | exactly the cards pointing at the deck |
| `Quiz.WithNewQuiz` | src/lib/store/quiz-store.ts:135-149 | the quiz is at index 0, with the questions as passed and no score or completion time |
| `Quiz.QuizStore.CreateQuiz` | src/lib/store/quiz-store.ts:135-149 | returns the fresh id and prepends the quiz |
| `Quiz.Answered` | src/lib/store/quiz-store.ts:151-165 | only the matching question of the matching quiz gets the answer, whatever it held; no range check; all else unchanged |
| `Quiz.AnswerLastWriteWins` | src/lib/store/quiz-store.ts:151-165 | answering again overwrites: two answers equal the second alone |
| `Quiz.QuizStore.UpdateQuizAnswer` | src/lib/store/quiz-store.ts:151-165 | rewrites only the quizzes |
| `Quiz.Completed` | src/lib/store/quiz-store.ts:167-172 | only the matching quiz changes, and only its score and completion time |
| `Quiz.CompleteQuizLastCallWins` | src/lib/store/quiz-store.ts:167-172 | a second completion overwrites both values with the latest call's |
| `Quiz.QuizStore.CompleteQuiz` | src/lib/store/quiz-store.ts:167-172 | rewrites only the quizzes |
| `Quiz.WithoutQuiz` | src/lib/store/quiz-store.ts:174-177 | removes exactly the quizzes with that id |
| `Quiz.QuizStore.DeleteQuiz` | src/lib/store/quiz-store.ts:174-177 | rewrites only the quizzes |
| `Quiz.QuizStore.constructor` | src/lib/store/quiz-store.ts:70-72 | an empty store is consistent |
| `QuizView.CorrectCount` | src/features/quiz/components/quiz-view.tsx:30-32 | the number of positions whose question has `userAnswer` equal to `correctIndex`, hence at most the number of questions |
| `QuizView.Score` | src/features/quiz/components/quiz-view.tsx:30-33 | the score lies within one half of 100 * correct / total and in 0..100 |
| `QuizView.RoundedPercentage` | src/features/quiz/components/quiz-view.tsx:33 | `Math.round(c / n * 100)` in integers: within one half of the exact value, in 0..100 |
| `Planner.PlannerStore.constructor` | src/lib/store/planner-store.ts:42-43 | no plans and no active pointer, so progress is (0, 0) |
| `Planner.NewSessions` | src/lib/store/planner-store.ts:47-51 | one session per input, in order, with its fresh id, not completed, other fields copied |
| `Planner.WithNewPlan` | src/lib/store/planner-store.ts:53-62 | the new plan is at index 0 and the old plans are the tail |
| `Planner.PlannerStore.CreatePlan` | src/lib/store/planner-store.ts:45-67 | returns the fresh id, prepends the plan, makes it active, and its progress is 0 of the session count |
| `Planner.WithoutPlan` | src/lib/store/planner-store.ts:71 | removes exactly the plans with that id |
| `Planner.PlannerStore.DeletePlan` | src/lib/store/planner-store.ts:69-73 | filters the plans and clears the active pointer only when it named that plan |
| `Planner.PlannerStore.SetActivePlan` | src/lib/store/planner-store.ts:75 | sets only the active pointer |
| `Planner.MarkCompleted` | src/lib/store/planner-store.ts:77-87 | in every plan, a session ends up completed exactly when it was before or has the id; matching ones get `completedAt` `now` and keep their other fields; every other session and every plan field is unchanged |
| `Planner.PlannerStore.CompleteSession` | src/lib/store/planner-store.ts:77-87 | rewrites only the plans |
| `Planner.Rescheduled` | src/lib/store/planner-store.ts:89-97 | only `scheduledAt` of the matching sessions changes, to the unchecked new time |
| `Planner.PlannerStore.RescheduleSession` | src/lib/store/planner-store.ts:89-97 | rewrites only the plans |
| `Planner.GetActivePlan` | src/lib/store/planner-store.ts:99-102 | nothing when the pointer is unset or names no plan, else the first listed plan with that id |
| `Planner.GetTodaySessions` | src/lib/store/planner-store.ts:104-119 | empty with no active plan, else exactly the active plan's sessions with `today <= scheduledAt < tomorrow` |
| `Planner.CountDone` | src/lib/store/planner-store.ts:127 | the number of positions holding a completed session, hence at most the session count |
| `Planner.GetProgress` | src/lib/store/planner-store.ts:121-129 | (0, 0) with no active plan, else `total` is the active plan's session count and `completed` the number of its completed sessions; always 0 <= completed <= total |
| `Planner.CompleteSessionAdvancesProgress` | src/lib/store/planner-store.ts:121-129 | completing a pending session of the active plan adds one to `completed` and leaves `total` |
| `Planner.CompletionIsNeverUndone` | src/lib/store/planner-store.ts:45-97 | no operation turns a completed session back to pending |
| `StudyCalendar.ToSessionInputs` | src/features/planner/components/study-calendar.tsx:42-51 | each session is scheduled `day * 86400000` ms after `now`, with its other fields copied |
| `StudyCalendar.TodayIsDayZero` | src/features/planner/components/study-calendar.tsx:47 | right after generation, today's sessions are exactly those with day offset 0 |
| `Settings.Partialize` | src/lib/store/settings-store.ts:37-41 | the saved projection holds provider, model and theme |
| `Settings.Rehydrate` | src/lib/store/settings-store.ts:21-24 | a restored state has no API keys |
| `Settings.PersistRoundTrip` | src/lib/store/settings-store.ts:37-41 | save then restore gives the state with empty keys; restore then save gives back what was saved; keys never affect what is saved |
| `Settings.InitialModelIsListed` | src/lib/store/settings-store.ts:21-22 | the default model is a model of the default provider |
| `Settings.SettingsStore.constructor` | src/lib/store/settings-store.ts:21-24 | openai, gpt-4o, no keys, system theme |
| `Settings.SettingsStore.GetApiKey` | src/lib/store/settings-store.ts:33 | the stored key if one was set, otherwise nothing |
| `Settings.SettingsStore.SetProvider` | src/lib/store/settings-store.ts:26 | changes only the provider, so the model is left as it was |
| `Settings.SettingsStore.SetModel` | src/lib/store/settings-store.ts:27 | changes only the model |
| `Settings.SettingsStore.SetApiKey` | src/lib/store/settings-store.ts:28-31 | afterwards `getApiKey` for that provider gives the key, and the other providers' keys are unchanged |
| `Settings.SettingsStore.SetTheme` | src/lib/store/settings-store.ts:32 | changes only the theme |

## Left out

- Persistence: the zustand `persist` middleware, localStorage and JSON serialisation are not modelled. Only the settings `partialize` projection and the shallow merge on load are modelled, as pure functions.
- `src/lib/ai/client.ts` and `src/lib/ai/providers.ts` are not part of this model. They are thin wrappers over the external AI SDKs: network calls, async streams and schema validation.
- The React components, routing and alerts are not modelled. Neither are the Tauri commands in `src-tauri`. Only the streaming loop, the quiz score and the day-offset conversion are modelled from the UI code.
- `crypto.randomUUID()` is replaced by caller-supplied ids that must be unused. `Date.now()` is replaced by a `now` parameter.
- Several operations read the clock more than once. The model passes a single `now` to each, so every one of these reads gets the same value:
  - `addMessage` reads it for the message timestamp and again for `updatedAt` (chat-store.ts:77, 86);
  - `createConversation` reads it for `createdAt` and again for `updatedAt` (chat-store.ts:51-52);
  - `addFlashcards` reads it twice per card, for `createdAt` and `nextReview` (quiz-store.ts:97-98);
  - the study calendar reads it once per generated session (study-calendar.tsx:47).
- StudyCalendar.TodayIsDayZero: proved for whole-day offsets only. A generated session's `day` is an `int` in the model (`GeneratedSession`, `ToSessionInputs`), but the plan schema accepts any number (`day: z.number()`, src/lib/ai/client.ts:110). With a fractional offset, such as 0.25 in a plan generated in the morning, a session can fall in today's window without its offset being 0. The lemma says nothing about those inputs.
- The local midnights in `getTodaySessions` are not computed. Both bounds are passed in. `StudyCalendar.TodayIsDayZero` assumes a 24-hour day, so days with a daylight-saving change are not covered.
- Floating point: `easeFactor` is the exact real 2.5.
- QuizView.Score: computes `Math.round` on the exact rational `100 * correct / total`. IEEE rounding of `(correct / total) * 100` is not modelled. With no questions the quiz view fails before scoring, so the score requires at least one question.
- Strings are sequences of characters. JavaScript's UTF-16 code units in `slice(0, 50)` are not distinguished from characters.
- `Quiz.UpdatedCards`: an update is a set of optional fields. A key present with the value `undefined`, which the spread would write over the field, is not modelled.
- Dafny's `int` is unbounded. JavaScript numbers lose integer precision above 2^53, which is not modelled.
