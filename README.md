# Learnify study-material core, modelled in Dafny

Learnify turns an uploaded PDF into study material: a slide-style summary generated by a
language model, and a deck of flip-cards. This project models three parts of that system and
proves properties about them.

- **The summary parser.** `parseSummaryText` reads the model's completion line by line and
  fills in a record: a title, an overview, an ordered list of slides, a key takeaway and a
  reading time. `generateSummary` refuses a parse with no slides and supplies a default title.
  - The loop is modelled as the source writes it: a method over mutable variables
    (`GenerateSummary.ParseSummaryText`).
  - It is proved equal to a line-by-line specification (`Step`, `RunFrom`, `Parse`).
  - The specification's properties are proved as lemmas.
  - The five regular expressions (three shapes) are modelled with JavaScript's `match` semantics:
    leftmost match, greedy quantifiers that backtrack, first capture group.
  - The string built-ins `trim`, `split` and `join` are modelled as JavaScript defines them,
    and `parseInt` on the digit strings the minute-read pattern lets through.
  - `SummaryRoundTrip` proves that every well-formed completion in the line format the parser
    recognises is parsed back into exactly the outline it was rendered from.
- **The flashcard session** of `QuizClient`:
  - the current index, flip state, known and unknown card sets, and the one-time celebration;
  - the completion condition, the progress-segment colours, and the 30-day restore rule for
    saved progress.

  The handlers are methods of the class `QuizSession.QuizClient`. Each one is proved to
  perform a transition function on a `Session` value. The invariants are proved about those
  functions: disjoint sets within the deck, the index bounds, and at most one celebration
  between resets. These invariants cover the click and timer handlers. Loading restores a
  saved index and saved sets without checking them against the deck. A record whose index lies
  outside the deck therefore leaves the index bounds, and the component then renders nothing
  (QuizClient.tsx:246). `LoadIndexInRange` and `LoadKeepsConsistent` state when loading keeps
  the invariants.
- **The upload limit.** `getPriceId` and `hasReachedUploadLimit` decide the daily upload
  limit from the user's subscription and the pricing table.

Modules:
- `Wrappers`: `Option`.
- `Text`: the JavaScript string built-ins.
- `SummaryPatterns`: the regular expressions.
- `GenerateSummary`: the parser and `generateSummary`'s rule.
- `SummaryRoundTrip`: the rendering of an outline and the round trip.
- `QuizSession`: the flashcard session.
- `Plans`: the pricing table.
- `User`: the subscription checks.

Everything outside the program is an input to the model:
- the database queries, as `Fetched` or `Failed`;
- the authenticated user;
- the model's completion;
- the stored progress record;
- the current time `now`.

Two modelling facts:
- `trim` and `\s` are JavaScript's WhiteSpace and LineTerminator set.
- The limit that `hasReachedUploadLimit` enforces counts quizzes per day. The basic plan's
  item text, "5 summaries per month", is only a display string.

## Model

| member | source | states |
|---|---|---|
| GenerateSummary.ParseSummaryText | utils/generateSummary.ts:20-96 | The loop over the non-blank lines, with the final save of the open slide, returns exactly the specified parse of the text. |
| GenerateSummary.ReadLine | utils/generateSummary.ts:32-84 | One pass of the loop body over a trimmed line changes the variables exactly as one step of the specification does. |
| GenerateSummary.KeepNonBlank | utils/generateSummary.ts:21 | The filtered lines are never blank and are no more numerous than the input lines. |
| GenerateSummary.KeepNonBlankMembers | utils/generateSummary.ts:21 | A line survives the filter exactly when it occurs in the input and is not blank after trimming. |
| GenerateSummary.KeepNonBlankOne | utils/generateSummary.ts:21 | A single line is kept exactly when it is not blank after trimming. |
| GenerateSummary.KeepNonBlankConcat | utils/generateSummary.ts:21 | The filter distributes over concatenation, so it keeps the surviving lines in their input order, duplicates included. |
| Text.Trim | utils/generateSummary.ts:32 | The trimmed line is empty exactly when the line is all white space; otherwise it starts and ends with a non-white character. |
| Text.TrimIsMiddle | utils/generateSummary.ts:32 | The trimmed line is a middle slice of the line, and everything cut off on either side is white space. |
| Text.TrimOfTrimmed | utils/generateSummary.ts:32 | Trimming a line whose two ends are not white space leaves it unchanged. |
| Text.JoinSplit | utils/generateSummary.ts:21 | Joining the pieces of `split("\n")` with newlines gives back the text. |
| Text.SplitJoin | utils/generateSummary.ts:54 | Splitting a newline-join of newline-free pieces gives back the pieces. |
| Text.DecimalRoundTrip | utils/generateSummary.ts:42 | `parseInt(…, 10)` of the decimal numeral of n is n. |
| SummaryPatterns.ExecIsLeftmost | utils/generateSummary.ts:35 | `match` returns the capture of the match at the first index where the pattern matches. |
| SummaryPatterns.SearchFailsEverywhere | utils/generateSummary.ts:35 | `match` fails exactly when the pattern matches at no index. |
| SummaryPatterns.LabelledTextOnTrimmedLine | utils/generateSummary.ts:34-38 | On a trimmed line starting with a label, the capture is the text after the label without its leading white space, up to the first line terminator; a bare label has no capture. |
| SummaryPatterns.LabelledTextOnCleanLine | utils/generateSummary.ts:44-48 | On a line without terminators, the capture is the whole rest of the line after the label and its white space. |
| SummaryPatterns.BarePrefixHasNoCapture | utils/generateSummary.ts:34-38 | A line holding only "Title:" (or another label) has no match, so the field keeps its value. |
| SummaryPatterns.MinuteDigitsAfterLabel | utils/generateSummary.ts:39-43 | When the first non-white character after "Minute Read:" is a digit, the capture is the maximal digit run there. |
| SummaryPatterns.MinuteDigitsNeedADigit | utils/generateSummary.ts:39-43 | A line without any decimal digit never yields a minute-read value. |
| SummaryPatterns.MinuteLabelWithoutDigits | utils/generateSummary.ts:39-43 | A "Minute Read:" line whose first non-white character after the label is not a digit, and with no second label, yields no minute-read value, whatever digits come later. |
| SummaryPatterns.SlideHeaderCapture | utils/generateSummary.ts:60-63 | A header "Slide <digits>: <heading>" captures exactly the heading. |
| GenerateSummary.PrefixesExclusive | utils/generateSummary.ts:34-84 | The five prefixes exclude one another, so each line takes at most one branch of the chain. |
| GenerateSummary.StepFields | utils/generateSummary.ts:34-48 | Only a matching line of a field's own kind changes that field; title, minute-read and overview lines leave the slides alone. |
| GenerateSummary.FieldsAreLastCaptures | utils/generateSummary.ts:34-78 | Title, overview, key takeaway and minute read are each the capture of the last matching line of their kind (minute read parsed base 10), and null when no line matches. |
| GenerateSummary.ParsedFields | utils/generateSummary.ts:20-96 | The same last-capture rule, for the record `parseSummaryText` returns. |
| GenerateSummary.StepKeepsWellFormed | utils/generateSummary.ts:49-84 | A step keeps every emitted slide with a non-empty heading and content, every held content line non-empty, and a parsed title non-empty. |
| GenerateSummary.FlushedWellFormed | utils/generateSummary.ts:88-93 | Saving the open slide keeps every emitted slide non-empty in heading and content. |
| GenerateSummary.Step | utils/generateSummary.ts:32-84 | One line keeps every slide already emitted as it is and emits at most one more. |
| GenerateSummary.RunFrom | utils/generateSummary.ts:31-85 | The loop keeps the slides emitted before it as a prefix: an emitted slide is never changed or removed. |
| GenerateSummary.RunFromEmitsAtMostOnePerLine | utils/generateSummary.ts:31-85 | The loop emits at most one slide per line. |
| GenerateSummary.Flushed | utils/generateSummary.ts:88-93 | The final save keeps the emitted slides and appends one more exactly when a heading with content is open. |
| GenerateSummary.Parse | utils/generateSummary.ts:20-96 | Every slide in the result has a non-empty heading and non-empty content, so a heading without content lines is never emitted; a parsed title is never empty. |
| GenerateSummary.SlideLineStep | utils/generateSummary.ts:49-63 | A "Slide" line saves the open slide when it has content, takes the heading from a `Slide <digits>:` match, and otherwise keeps the previous heading. |
| GenerateSummary.UnmatchedSlideLineContinuesHeading | utils/generateSummary.ts:49-63 | After an unmatched "Slide" line, the plain lines that follow form a second slide under the same heading. |
| GenerateSummary.KeyTakeawayLineStep | utils/generateSummary.ts:64-78 | "Key Takeaway:" saves the open slide, and clears the heading only when that slide had content. |
| GenerateSummary.PlainLinesAccumulate | utils/generateSummary.ts:79-84 | Under an open heading, plain lines are appended to the content trimmed and in order, and nothing else changes. |
| GenerateSummary.PlainLinesIgnoredWithoutHeading | utils/generateSummary.ts:79-84 | Before any heading, plain lines change nothing. |
| GenerateSummary.PlainPrefixIgnored | utils/generateSummary.ts:79-84 | Plain lines before the first header do not affect the result. |
| GenerateSummary.RunFromConcat | utils/generateSummary.ts:31-85 | Running the loop over two consecutive blocks of lines is running it over the first and then the second. |
| GenerateSummary.GenerateSummaryOutcome | utils/generateSummary.ts:98-149 | The checks run in order and the first failure names the error: no user, then an empty or missing completion, then a parse without slides, then a failed write. A summary is stored exactly when the user is authenticated, the completion is non-empty, the parse has a slide and the write succeeds. The stored title is the parsed title or "Untitled Summary", and the other fields are the parsed ones. |
| SummaryRoundTrip.ParseRenderRoundTrip | utils/generateSummary.ts:20-96 | Parsing the rendering of a well-formed outline (title, overview, numbered slides with content lines, key takeaway, minute read) gives back that outline, each slide's lines joined by newlines. |
| SummaryRoundTrip.KeepNonBlankOfNonBlank | utils/generateSummary.ts:21 | The filter keeps every line of a list with no blank lines. |
| QuizSession.QuizClient.FlipCard | components/flashcards/QuizClient.tsx:124 | The flip turns the flipped state over and leaves the rest of the state alone. |
| QuizSession.QuizClient.NextCard | components/flashcards/QuizClient.tsx:149-173 | The handler performs the `Next` transition on the component state. |
| QuizSession.QuizClient.PrevCard | components/flashcards/QuizClient.tsx:175-184 | The handler performs the `Prev` transition. |
| QuizSession.QuizClient.MarkAsKnown | components/flashcards/QuizClient.tsx:127-136 | The handler performs the `MarkKnown` transition: update both sets, then `nextCard`. |
| QuizSession.QuizClient.MarkAsUnknown | components/flashcards/QuizClient.tsx:138-147 | The handler performs the `MarkUnknown` transition. |
| QuizSession.QuizClient.ResetCards | components/flashcards/QuizClient.tsx:186-195 | The handler performs the `Reset` transition. |
| QuizSession.QuizClient.ConfettiTimeout | components/flashcards/QuizClient.tsx:162 | The confetti timer hides the confetti and nothing else. |
| QuizSession.QuizClient.LoadProgress | components/flashcards/QuizClient.tsx:62-82 | Loading performs the `Load` transition: a fresh record restores the saved fields, and the session is loaded in every case. |
| QuizSession.QuizClient.SaveProgress | components/flashcards/QuizClient.tsx:87-106 | Nothing is saved before loading; after it, the index, both sets, the celebration flag and the time. |
| QuizSession.QuizClient.constructor | components/flashcards/QuizClient.tsx:48-57 | The session starts at index 0, unflipped, with empty sets and every flag false. |
| QuizSession.Flip | components/flashcards/QuizClient.tsx:124 | The flipped flag is negated and every other field is unchanged. |
| QuizSession.MarkKnown | components/flashcards/QuizClient.tsx:127-136 | After `markAsKnown` the current id is known and not unknown, and no other id changes membership; every other field is exactly what `nextCard` makes of it. |
| QuizSession.MarkUnknown | components/flashcards/QuizClient.tsx:138-147 | After `markAsUnknown` the current id is unknown and not known, and no other id changes membership; every other field is exactly what `nextCard` makes of it. |
| QuizSession.Next | components/flashcards/QuizClient.tsx:149-173 | Below the last card `nextCard` moves forward by one and unflips; at or past it the index and flip stay; the sets never change. The celebration has been shown afterwards exactly when it had been before or the index was at least the second to last; a first firing shows both the celebration and the confetti, and a call that does not fire leaves both display flags alone. |
| QuizSession.Prev | components/flashcards/QuizClient.tsx:175-184 | Above the first card `prevCard` moves back by one and unflips, and otherwise does nothing; only index and flip ever change. |
| QuizSession.Reset | components/flashcards/QuizClient.tsx:186-195 | Both sets are emptied; the confetti flag and the loaded flag carry over. |
| QuizSession.ConfettiOff | components/flashcards/QuizClient.tsx:162 | The confetti timer hides the confetti and changes nothing else. |
| QuizSession.HandlersKeepInRange | components/flashcards/QuizClient.tsx:124-195 | Every handler keeps the index inside the deck. |
| QuizSession.HandlersKeepConsistent | components/flashcards/QuizClient.tsx:127-195 | Every handler keeps the two sets disjoint and within the deck's ids. |
| QuizSession.ResetStartsOver | components/flashcards/QuizClient.tsx:186-195 | Reset gives index 0, unflipped, empty sets, the celebration flags false, and a consistent, unanswered session. |
| QuizSession.InitialSession | components/flashcards/QuizClient.tsx:48-57 | The initial state is in range, consistent and not yet celebrated. |
| QuizSession.Apply | components/flashcards/QuizClient.tsx:124-195 | Any action keeps the index in range, and no action other than reset clears the celebration flag. |
| QuizSession.SessionInvariants | components/flashcards/QuizClient.tsx:127-198 | Over any sequence of actions the sets stay disjoint and within the deck, so known count + unknown count ≤ deck length. |
| QuizSession.CelebrationAtMostOnce | components/flashcards/QuizClient.tsx:158-171 | Between resets the celebration fires at most once, and never again once it has fired. |
| QuizSession.DeckIdsSize | components/flashcards/QuizClient.tsx:297-298 | A deck has at most as many distinct ids as cards, and exactly as many when its ids are distinct. |
| QuizSession.AnsweredAtMostDeck | components/flashcards/QuizClient.tsx:197-198 | With consistent sets the two counts add up to at most the deck length. |
| QuizSession.AllAnsweredIffCountsFill | components/flashcards/QuizClient.tsx:203-213 | On a deck of distinct ids, every card is answered exactly when the counts fill the deck. Completion is requested exactly when progress has loaded, demo mode is off, the deck is non-empty and the counts fill it. |
| QuizSession.AllAnswered | components/flashcards/QuizClient.tsx:206-208 | Every card is answered exactly when each id of the deck is in one of the two sets. |
| QuizSession.ShouldMarkComplete | components/flashcards/QuizClient.tsx:204-212 | Completion is requested exactly when progress has loaded, demo mode is off, the deck is non-empty and every id of the deck is answered. |
| QuizSession.SegmentClasses | components/flashcards/QuizClient.tsx:297-320 | A known card's segment is green, an unknown card's red, an unanswered one gray-400 up to the current index and gray-200 after it; with disjoint sets exactly one class applies. |
| QuizSession.Fresh | components/flashcards/QuizClient.tsx:67-70 | `daysSinceUpdate < 30` holds exactly when less than 30 × 86 400 000 ms have passed. |
| QuizSession.Load | components/flashcards/QuizClient.tsx:62-82 | A record less than 30 days old restores index, sets and celebration flag; a stale or missing record leaves the state and only sets the loaded flag; the flip and both display flags keep their values either way. |
| QuizSession.Save | components/flashcards/QuizClient.tsx:87-106 | A record is written exactly when progress has loaded, stamped with the current time. |
| QuizSession.SaveLoadRoundTrip | components/flashcards/QuizClient.tsx:67-114 | Saving and loading within 30 days restores index, both sets and the celebration flag. |
| QuizSession.LoadIndexInRange | components/flashcards/QuizClient.tsx:67-75 | From an index inside the deck, loading keeps it inside exactly when no fresh record is restored or the saved index lies in the deck; the saved index is not range-checked. |
| QuizSession.LoadKeepsConsistent | components/flashcards/QuizClient.tsx:70-75 | Loading a consistent record keeps the sets consistent. |
| Plans.Find | lib/user.ts:41-42 | The found plan is in the table and carries the key as its price id, with no earlier plan matching; nothing is found exactly when no plan matches, as for a null key. |
| Plans.FindInTable | utils/constant.ts:1-29 | The basic price id finds the basic plan, the pro price id the pro plan, and any other id nothing. |
| Plans.IsPro | lib/user.ts:41-42 | A price id is pro exactly when it is the pro plan's price id; null and unknown ids are not. |
| User.GetPriceId | lib/user.ts:5-19 | The result is non-null exactly when the query succeeds and finds an active user with a non-empty price id, and it is then that price id. |
| User.UploadLimit | lib/user.ts:44 | The limit is 1000 or 5. |
| User.HasReachedUploadLimit | lib/user.ts:27-53 | A failing count query counts as the limit reached. |
| User.UploadLimitByPlan | lib/user.ts:41-44 | The limit is 1000 exactly for the pro price id, and 5 for the basic id, null or an unknown id. |
| User.ReachedIffAtLimit | lib/user.ts:46 | The limit is reached exactly when count ≥ limit, so a count at the limit is already blocked. |
| User.ReachedMonotone | lib/user.ts:46 | Once the limit is reached at a count, it is reached at every larger count. |
| User.ProReachedImpliesBasicReached | lib/user.ts:44-46 | At the same count, a pro user at the limit means every user is at the limit. |
| User.NoSubscriptionGetsDefaultLimit | lib/user.ts:7-15 | A failed lookup, a missing or inactive user, or a null or empty price id gives null and the limit 5. |
| User.ActiveProSubscriber | lib/user.ts:39-46 | An active user on the pro price id is blocked exactly from 1000 quizzes a day on. |

## Left out

- I/O:
  - The database reads are inputs rather than queries: the user lookup, the day's quiz
    count, and whether the summary write succeeds.
  - `prisma.$disconnect` is not modelled.
  - Authentication and the language-model call are inputs as well: the user id, and the
    completion text or its absence.
- The "today" window of lib/user.ts:21-25 is not modelled; the day's count is an input.
  The source computes the window once, when the module loads.
- Saved progress:
  - `localStorage` reads, writes and removal are not modelled, nor `clearProgress` in
    `resetCards`.
  - JSON encoding and decoding are not modelled. A record that is missing or fails to parse
    is `None`.
  - The known and unknown id arrays are modelled as sets, so their order is not captured.
  - JSON numbers that are not integers are outside the model; index and timestamps are
    integers.
  - A record that parses as JSON but has the wrong shape is outside the model. The source
    may restore such a record in part, because `setCurrentIndex` runs before
    `new Set(...)` throws (QuizClient.tsx:71-72).
- Timers:
  - The 200 ms `setTimeout` bodies of `nextCard` and `prevCard` run at once, in call order.
  - The 5 s confetti timer is the separate handler `ConfettiTimeout`.
  - Interleavings of rapid clicks with pending timers (stale closures) are not modelled.
- `Date.now()` is the parameter `now`.
- Rendering and animation are not modelled (`slideDirection`, the JSX, `toLocaleDateString`).
  The card counts of QuizClient.tsx:197-198 are reached only through the lemmas about set
  sizes.
- The `fetch` to /api/complete is not modelled; `ShouldMarkComplete` only states when it is
  requested.
- The deck is kept as the sequence of card ids. The question and answer texts are not needed
  by any handler, and `setCards` is never called.
- components/flashcards/Controls.tsx is not part of this model. It refers to names that are
  not in its scope, and its shuffle uses `Math.random`.
- The language-model clients (utils/groqapi.ts, utils/geminiapi.ts, utils/generateQuiz.ts),
  the upload and API routes, the payment webhooks, quiz deletion and the UI components are
  not part of this model. They are network, ORM or display code.
- Strings are sequences of Unicode scalar values. UTF-16 surrogate pairs, and the `length` of
  text outside the Basic Multilingual Plane, are not modelled.
- `ParseSummaryText` keeps the loop body in the helper method `GenerateSummary.ReadLine`,
  with the TypeScript variables as its locals.
- `parseInt` is exact on digit strings of any length. JavaScript numbers lose precision
  above 2^53.
