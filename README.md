# StudyFetch tutor core, modelled in Dafny

This project models two pieces of the StudyFetch study assistant, a web application where a user chats with an AI tutor that can generate flashcards.

- **The tutor turn** (`chatWithAiTutor` in `utils/anthroApi.ts`), module `AnthroApi`.
  - It builds the outgoing message list from the stored history and the new prompt.
  - It classifies the model's reply. The first `flashcard_generator` tool call with an `input` key is selected. If it carries `input.flashcards`, it wins. Otherwise the first text block is used, and later tool calls are ignored.
  - It maps each generated `{question, answer}` to a `{term, definition}` card. A missing or empty topic becomes "Untitled Topic".
  - It saves at most one flashcard set, then one assistant message. Every failure is rethrown as "Failed to process request".
- **The flashcard viewer** (`FlashcardSet` in `app/components/FlashcardSet.tsx`), module `FlashcardView`.
  - Its state is `currentIndex` and `showTerm`.
  - The Next button and a click on the card change that state.
  - The class `FlashcardSetView` holds the state. Its handlers are proved against the pure functions `Next` and `Flip`.
  - Lemmas over `Run` (any sequence of clicks) give index bounds and monotonicity.

`FlashcardModel` holds the stored record shape from `models/Flashcard.ts`: a topic and an ordered list of `{term, definition}`. `Wrappers` holds `Option` and `Result`.

JavaScript truthiness is modelled exactly where it is observable:
- `AnthroApi.Or` is `s || fallback` on a string that may be missing.
- `AnthroApi.Prop` tells a missing key apart from a key holding `undefined`/`null`. The type guards test keys with `in`, so the difference matters there.
- An empty `flashcards` array is truthy, so it still takes the tool branch.

The foreign calls are parameters of `ChatWithAiTutor`:
- `previous` is the result of the history query. `None` means the query threw.
- `tutor` is the language-model call. `None` means it threw.
- `setSaved` and `messageSaved` say whether each `save` succeeds.
- `now` is the timestamp.

The code does no per-pair validation or filtering: every pair is mapped, and an empty array still produces a saved, empty set.

## Model

| member | source | states |
|---|---|---|
| `AnthroApi.Or` | utils/anthroApi.ts:139 | JavaScript's or-operator on a possibly missing string returns one of its two operands. It returns a non-empty left operand. Its result is empty only when the fallback is empty. |
| `AnthroApi.FindIndex` | utils/anthroApi.ts:117-120 | `find` returns the first element that satisfies the predicate. It returns none only when no element does. |
| `AnthroApi.IsToolUseBlock` | utils/anthroApi.ts:43-45 | Passing the guard means the block is a tool block. A tool block holding an `input` object always passes. |
| `AnthroApi.IsTextBlock` | utils/anthroApi.ts:47-49 | Passing the guard means the block is a text block. A text block holding a `text` string always passes. |
| `AnthroApi.IsGeneratorCall` | utils/anthroApi.ts:117-120 | A match is a tool block named "flashcard_generator", and never a text block. |
| `AnthroApi.FindIndexAfterPrefix` | utils/anthroApi.ts:117-120 | Non-matching elements in front only shift the first match by their count. |
| `AnthroApi.FindIndexSkip` | utils/anthroApi.ts:117-120 | Inserting a non-matching element leaves the first match unchanged, apart from the index shift. |
| `AnthroApi.FindSkipSameElement` | utils/anthroApi.ts:117-120 | Inserting a non-matching element changes neither whether a match exists nor which element is found. |
| `AnthroApi.ToApiMessages` | utils/anthroApi.ts:68-71 | Each prior turn keeps its role and order. Its content is kept, and missing content becomes "". |
| `AnthroApi.BuildHistory` | utils/anthroApi.ts:66-74 | The outgoing list has prior + 1 entries. The prior turns come first, in stored order, with role kept and content defaulting to "". The last entry is `{role: "user", content: prompt}`. |
| `AnthroApi.HistoryBranchesAgree` | utils/anthroApi.ts:66-74 | Both branches of the ternary give the converted history followed by the prompt, also when the history is empty. |
| `AnthroApi.ToFlashcards` | utils/anthroApi.ts:124-127 | The cards have the same length and order as the generated pairs. Each card has `term == question` and `definition == answer`. Nothing is dropped. |
| `AnthroApi.CardsRequest` | utils/anthroApi.ts:117-122 | The tool branch is taken only with a `flashcards` value present. |
| `AnthroApi.FirstText` | utils/anthroApi.ts:138 | A found text is the string of a text block with no text block before it. Nothing is found when no block passes the text guard. |
| `AnthroApi.Decide` | utils/anthroApi.ts:116-140 | The message is never empty. The tool branch is taken exactly when the first generator call has `input.flashcards`. The saved topic is never empty. The set has as many cards as were generated. |
| `AnthroApi.ToolCallTakesPrecedence` | utils/anthroApi.ts:117-139 | The first `flashcard_generator` call with an `input` key is selected. If it carries `input.flashcards`, it wins over every text block, even ones placed before it. The set has the given topic, or "Untitled Topic" when that is missing or empty, and the mapped cards. |
| `AnthroApi.FirstCallDecides` | utils/anthroApi.ts:117-122 | When the first generator call lacks `input.flashcards`, the reply is answered with text. Later tool calls are not consulted. |
| `AnthroApi.EmptyCardListStillGenerates` | utils/anthroApi.ts:122-135 | An empty `flashcards` array still takes the tool branch. It yields an empty set, returns `[]` and gives the confirmation message. |
| `AnthroApi.IgnoredBlockDropped` | utils/anthroApi.ts:43-49 | A block that passes neither type guard has no effect on the outcome. |
| `AnthroApi.OtherToolUseIgnored` | utils/anthroApi.ts:43-45 | Tool calls naming another tool are ignored. So are tool blocks without an `input` key. |
| `AnthroApi.AnswerIsFirstText` | utils/anthroApi.ts:136-139 | Without a generator call, the message is the first text block's text. Later text blocks are not consulted. If that text is empty, `null` or `undefined`, the message is "Unable to process the response.". |
| `AnthroApi.NoTextFallsBack` | utils/anthroApi.ts:138-139 | With no generator call and no text block, the message is "Unable to process the response.". |
| `AnthroApi.TutorResponse` | utils/anthroApi.ts:60-109 | The model is called with exactly the converted prior turns followed by `{role: "user", content: prompt}`, whether or not the history is empty. A failing history query means there is no reply. |
| `AnthroApi.ChatWithAiTutor` | utils/anthroApi.ts:52-159 | A failing query or model call rethrows "Failed to process request" and writes nothing. Otherwise a set is appended only in the tool branch, and only if its save succeeds. One assistant message with the returned text is appended only after that. Success returns `{message, flashcards}`, with `flashcards` non-null exactly in the tool branch. A set saved before a failing message save stays stored. |
| `FlashcardView.Next` | app/components/FlashcardSet.tsx:16-21 | `handleNext` either changes nothing, or advances the index by exactly 1 and shows the term. It advances exactly when `currentIndex < length - 1`. It keeps the index within bounds. |
| `FlashcardView.Flip` | app/components/FlashcardSet.tsx:23-25 | `handleFlip` keeps the index, shows the other side, and keeps the index within bounds. |
| `FlashcardView.NextDisabled` | app/components/FlashcardSet.tsx:69 | Whenever the button is disabled, a click on Next would change nothing. |
| `FlashcardView.FlipTwice` | app/components/FlashcardSet.tsx:23-25 | Two flips restore the state. |
| `FlashcardView.DisabledExactlyWhenInert` | app/components/FlashcardSet.tsx:69 | On a non-empty deck, the button is disabled exactly when `handleNext` is a no-op. |
| `FlashcardView.EmptyDeckNextEnabledButInert` | app/components/FlashcardSet.tsx:17 | For length 0, the `disabled` expression (`currentIndex === length - 1`) is false, and the guard of `handleNext` is false too, so `handleNext` changes nothing. |
| `FlashcardView.RunInBounds` | app/components/FlashcardSet.tsx:13-25 | After any sequence of Next and flip clicks, `0 <= currentIndex` and the index points into the deck (it is 0 on an empty deck). |
| `FlashcardView.RunIndexMonotone` | app/components/FlashcardSet.tsx:16-21 | The index never decreases. |
| `FlashcardView.NextClicksReachEnd` | app/components/FlashcardSet.tsx:16-21 | k clicks on Next advance the index by k, stopping at the last card. |
| `FlashcardView.FlashcardSetView.constructor` | app/components/FlashcardSet.tsx:13-14 | The initial state is `currentIndex = 0` and `showTerm = true`. |
| `FlashcardView.FlashcardSetView.HandleNext` | app/components/FlashcardSet.tsx:16-21 | The new state is `Next` of the old state. The bounds invariant is kept. |
| `FlashcardView.FlashcardSetView.HandleFlip` | app/components/FlashcardSet.tsx:23-25 | `showTerm` is negated and the index is unchanged. The bounds invariant is kept. |
| `FlashcardView.FlashcardSetView.CurrentCard` | app/components/FlashcardSet.tsx:27 | The rendered card is a card of the deck. The deck must be non-empty, because the render dereferences it. |

## Left out

- The language-model request (`anthropic.messages.create`, the model name, `max_tokens`, the literal tool schema) is not modelled. It is a non-deterministic network service. Its reply is an arbitrary `seq<Block>`, or a throw.
- The MongoDB connection, the `find`/`sort`/`select` query, and Mongoose `save` and its `required` validation are not modelled. They are foreign library code. The query result and each save outcome are parameters.
- Consequently, the link between the history read and the stored messages (filter by `conversationId`, sort by timestamp) is not modelled.
- A failure of `connectMongo()`, which runs outside the `try` and so is not rewrapped, is not modelled.
- The `ANTHROPIC_API_KEY` check at module load is not modelled. It is environment configuration.
- `console.log` and `console.error` are not modelled. They are I/O.
- Reply values outside the declared types are not modelled: a non-array `flashcards` (whose `.map` would throw), and `topic` or `text` values that are neither strings nor `null`/`undefined`. The blocks are typed as the source declares them.
- `question` and `answer` are plain strings: a null or missing one is not modelled. It would make the set's `save` fail Mongoose's `required` check, and `setSaved = false` covers that outcome.
- `AnthroApi.Block`: the `Other(kind)` constructor stands for every block whose `type` is neither "text" nor "tool_use". An `Other` carrying "text" or "tool_use" is never meant. A tool block's `name` is taken to be a string.
- The render throw for an empty deck is not modelled: `flashcards[0]` is `undefined`, so `flashcard.term` throws before the button exists. The class accepts an empty deck; only `CurrentCard` requires a non-empty one.
- The CSS flip and rotate classes and the layout in `app/components/FlashcardSet.tsx` are not modelled. They are presentation only.
- `app/components/ChatBox.tsx`, `app/components/FlashcardSidebar.tsx`, the `app/api` route handlers and the pages are not part of this model. They are fetch and HTTP glue and JSX layout.
- Concurrent turns on one conversation are not modelled. Each call is modelled as running alone.
