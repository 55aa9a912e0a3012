# "Give an AI a break": a Dafny model of the session logic

The app walks a user through a list of writing prompts on behalf of a "tired
AI assistant". The flow is Landing → Intro → one screen per prompt → Finish.
Each prompt screen types out a description one character at a time. It takes
the user's answer and sends it to a scoring service, which returns a reply and
zero to five stars. A shared store keeps every answer. The finish screen sums
the stars and picks one of three messages.

The model covers four parts, one module each, plus three small support
modules:

- `TypedText` (typed_text.dfy): the character-reveal engine. `Step` is one
  turn of the component's tick effect: either its timer fires and one more
  character is shown, or the whole text is shown and `onComplete` is called.
  `Run` chains turns. `Engine` is the component instance as a class, and its
  `Tick` and `SetText` methods are proved against `Step` and the reset rule.
- `PromptsContext` (prompts_context.dfy): the session store `PromptsStore`.
  It holds the prompt slugs, the current index and the append-only history.
  It has load, index setter, append and reset operations, and none of them
  checks anything.
- `PromptResponseScreen` (prompt_response_screen.dfy): where "next" leads
  (`FindIndex`, `NextPrompt`, `NextTarget`), the button label, the star row,
  and the `Screen` class with `HandleSubmit` and `HandleNext`.
- `App` (app.dfy): the Landing and Intro buttons and the finish summary
  (`NumStars`, `Classify`, `Summarize`). `FlowAfter` chains the buttons
  across a whole session. `TwoPromptSession` drives the store and two prompt
  screens from start to finish.
- `Js` (js.dfy): JavaScript behaviour the code relies on. This covers array
  indexing that gives `undefined`, `??`, string truthiness, and `trim`.
- `Decimal` (decimal.dfy): how `${n}` renders an integer, with a parser that
  reads it back.
- `Routes` (routes.dfy): the four screens and their paths.

Modelling choices:

- Network replies are parameters. `LoadPrompts` gets `Option<seq<string>>`,
  `LoadPrompt` gets `Option<PromptDetail>`, and `HandleSubmit` gets a
  `SubmitReply` and returns the request it sent.
- Timers are methods: `Engine.Tick` and `Screen.LoadingTimerFired`.
- The tier tests `percentage > 85` and `percentage > 60` are decided exactly
  by cross-multiplying. For a zero total, the model follows JavaScript's
  division results: `0/0` is NaN, a positive count over 0 is +Infinity, and a
  negative one is -Infinity. `ClassifyByPercentage` connects these integer
  tests to the exact rational percentage.
- The screen records `prompts[currentPromptIndex]`, and that index is never
  checked. A record's prompt is therefore `Option<string>`: `None` is the
  `undefined` an out-of-range index gives.
- `handleNext` checks the next slug for truthiness. The button label checks
  only the position. So an empty next slug gives a "next" button that leads to
  the finish screen (`LabelDisagreesOnEmptySlug`). `LabelMatchesTarget` shows
  the two agree whenever no slug is empty. The model keeps the code's
  behaviour.

Places where the code does less than its call sites or comments suggest; the
model follows the code:

- `LandingScreen` passes `texts` and `pauseBetweenTexts` to `TypedText`
  (src/components/LandingScreen.tsx:20), but `TypedText` accepts only one
  `text`, `onComplete` and `typingSpeed` (src/components/TypedText.tsx:3-7).
  The model is the single-string engine the component implements.
- The comment "Show loading for at least 2 seconds"
  (src/components/PromptResponseScreen.tsx:84) does not hold. The loading
  view renders only while `showLoading && !showMessage` (line 164), and a
  scored reply sets `showMessage`, so the indicator goes away at once; the
  2-second timer only clears `showLoading`. `HandleSubmit` ensures the
  indicator is hidden after a scored reply.
- `setCurrentPromptIndex` stores any integer (src/context/PromptsContext.tsx:32),
  so nothing keeps the index inside the prompt list, and the model has no
  such invariant.
- "again" assigns `window.location.href` (src/App.tsx:83), and `reset`
  (src/context/PromptsContext.tsx:57-60) is never called. A reload amounts to
  a fresh `PromptsStore`.
- A failed submission is not a no-op on the screen. Response mode and the
  loading flag are set before the request goes out, so after a failure the
  loading indicator stays up and nothing is recorded.

## Model

| member | source | states |
|---|---|---|
| `Js.TrimStart` | src/components/PromptResponseScreen.tsx:55 | the characters removed are white space, and what is left is a suffix of the input that is empty or starts with non-white space |
| `Js.TrimEnd` | src/components/PromptResponseScreen.tsx:55 | the characters removed are white space, and what is left is a prefix of the input that is empty or ends with non-white space |
| `Js.TrimEmptyIffBlank` | src/components/PromptResponseScreen.tsx:55 | `trim()` gives the empty string exactly when every character is white space, so the submit guard rejects exactly the blank answers |
| `Decimal.NatToString` | src/App.tsx:50-59 | the numeral of a natural number is non-empty, all digits, and has no leading zero |
| `Decimal.IntToString` | src/App.tsx:50-59 | an interpolated integer is digits with an optional leading '-', and contains no '/' or space |
| `Decimal.ParseNatToString` | src/App.tsx:50-59 | reading the decimal numeral of `n` gives back `n` |
| `Decimal.IntToStringRoundTrip` | src/App.tsx:50-59 | reading an interpolated integer gives the integer back |
| `Decimal.FractionRoundTrip` | src/App.tsx:50-59 | the `${numStars}/${totalPossibleStars}` fragment reads back as both numbers |
| `Routes.PathInjective` | src/App.tsx:98-129 | no two screens are reached by the same path |
| `TypedText.Step` | src/components/TypedText.tsx:21-33 | a turn keeps the shown text equal to the first `currentIndex` characters with the index in bounds; a turn before the end adds exactly `text[currentIndex]` and moves the index by one; completion fires only when everything is shown and typing was not yet done, and it marks typing done; once done, a turn changes nothing |
| `TypedText.Run` | src/components/TypedText.tsx:21-33 | any number of turns keeps the reveal invariant and calls `onComplete` at most once, and never after typing is already done |
| `TypedText.RunFromPrefix` | src/components/TypedText.tsx:22-31 | from `k` shown characters, `n` turns show `k + n` characters without completing, or, once past the end, all of the text with exactly one completion |
| `TypedText.RunFromInitial` | src/components/TypedText.tsx:15-33 | after a reset, `n` turns show `text[..n]` with no completion while `n <= |text|`, and afterwards the whole text with exactly one completion |
| `TypedText.EmptyTextCompletesAtOnce` | src/components/TypedText.tsx:22-31 | an empty text completes on the first turn, with no character shown |
| `TypedText.CursorUntilComplete` | src/components/TypedText.tsx:38 | along a run, the cursor is shown exactly while `onComplete` has not been called |
| `TypedText.CommitAsWritten` | src/components/TypedText.tsx:15-33 | when the text changes, the code as written always empties the display and rewinds the index; when it does not call `onComplete` it lands exactly on the proper reset; the state it leaves is a reachable one for the new text only if `onComplete` did not fire or the new text is empty |
| `TypedText.CommitAsWrittenCompletesEarly` | src/components/TypedText.tsx:15-33 | switching, before typing is done, to a non-empty text no longer than the part already shown calls `onComplete`, and the resulting state breaks the reveal invariant (done at index 0 of a non-empty text) |
| `TypedText.CommitAsWrittenExample` | src/components/TypedText.tsx:15-33 | "abc" shown up to "ab", then the text becomes "x": `onComplete` fires and typing is marked done with nothing shown |
| `TypedText.Engine.constructor` | src/components/TypedText.tsx:10-12 | a mounted instance shows nothing, has index 0, is not done, and has not completed |
| `TypedText.Engine.Tick` | src/components/TypedText.tsx:21-33 | one tick moves the instance exactly as `Step` does and counts the completion; the instance invariant holds that `onComplete` was called once if typing is done and never otherwise |
| `TypedText.Engine.SetText` | src/components/TypedText.tsx:15-19 | a different text resets to nothing shown, index 0, not done and no completion; the same text changes nothing |
| `PromptsContext.PromptsStore.constructor` | src/context/PromptsContext.tsx:31-40 | the store starts with no prompts, index 0 and an empty history |
| `PromptsContext.PromptsStore.LoadPrompts` | src/context/PromptsContext.tsx:42-46 | a fetched list replaces `prompts` wholesale, a failed fetch changes nothing, and index and history are untouched |
| `PromptsContext.PromptsStore.SetCurrentPromptIndex` | src/context/PromptsContext.tsx:32 | any integer is stored as the index, unchecked, and nothing else changes |
| `PromptsContext.PromptsStore.AddToHistory` | src/context/PromptsContext.tsx:48-55 | exactly one record is appended at the end, earlier records are unchanged, no duplicate is suppressed, and prompts and index are untouched |
| `PromptsContext.PromptsStore.Reset` | src/context/PromptsContext.tsx:57-60 | the history becomes empty and the index 0, and `prompts` is unchanged |
| `PromptResponseScreen.FindIndex` | src/components/PromptResponseScreen.tsx:94 | the result is -1 exactly when the slug is absent; otherwise it is the first position holding the slug |
| `PromptResponseScreen.NextTargetAt` | src/components/PromptResponseScreen.tsx:94-101 | for the slug first found at `i`, "next" leads to `prompts[i+1]` when that exists and is non-empty, else to the finish screen (so the last slug finishes); the label is "next" exactly when `i < |prompts|-1` |
| `PromptResponseScreen.EmptyListFinishes` | src/components/PromptResponseScreen.tsx:94-101 | with no prompts, "next" leads to the finish screen and the label is "finish" |
| `PromptResponseScreen.UnknownSlugRestarts` | src/components/PromptResponseScreen.tsx:94-99 | a slug that is absent from a non-empty list is found at -1, so "next" leads to `prompts[0]` and sets index 0 |
| `PromptResponseScreen.LabelMatchesTarget` | src/components/PromptResponseScreen.tsx:200 | with no empty slug, the label is "next" exactly when "next" leads to another prompt, and "finish" exactly when it leads to the finish screen |
| `PromptResponseScreen.LabelDisagreesOnEmptySlug` | src/components/PromptResponseScreen.tsx:200 | with prompts `["a", ""]` on "a", the label reads "next" but the button leads to the finish screen |
| `PromptResponseScreen.StarRowCount` | src/components/PromptResponseScreen.tsx:190-191 | of the five positions, the filled ones number `stars` clamped to 0..5 |
| `PromptResponseScreen.Screen.constructor` | src/components/PromptResponseScreen.tsx:29-38 | a mounted screen has no prompt, an empty input, and every flag off |
| `PromptResponseScreen.Screen.LoadPrompt` | src/components/PromptResponseScreen.tsx:40-52 | a fetched prompt is stored; a failed fetch leaves the screen as it was |
| `PromptResponseScreen.Screen.DescriptionTyped` | src/components/PromptResponseScreen.tsx:135 | the description's completion sets `isTypingDone` |
| `PromptResponseScreen.Screen.EditResponse` | src/components/PromptResponseScreen.tsx:148 | typing sets `userResponse` |
| `PromptResponseScreen.Screen.HandleSubmit` | src/components/PromptResponseScreen.tsx:54-91 | a blank answer changes nothing and sends nothing. Otherwise response mode and loading turn on, the input box is hidden, and the answer is sent with the prompt's variation index. A scored reply stores message and stars, clears the input, shows the score with no loading indicator, and appends one record for `prompts[currentPromptIndex]`. A failure records nothing and leaves the loading indicator up |
| `PromptResponseScreen.Screen.LoadingTimerFired` | src/components/PromptResponseScreen.tsx:85-87 | the 2-second timer only clears `showLoading` |
| `PromptResponseScreen.Screen.HandleNext` | src/components/PromptResponseScreen.tsx:93-109 | the target is `NextTarget` of the store's prompts and the screen's slug; the index becomes the slug's position plus one when going to a prompt and is unchanged otherwise; afterwards response mode, message, loading and input are all cleared |
| `App.OnStart` | src/App.tsx:13 | start always navigates to "/intro" |
| `App.OnOkay` | src/App.tsx:30-31 | okay navigates to `/prompt/` followed by `prompts[0]` when it exists, and `friendly-email` otherwise |
| `App.FlowVisitsPromptsInOrder` | src/App.tsx:30-31 | with distinct non-empty slugs, okay and then `n` presses of "next" reach `prompts[n]` while `n < |prompts|`, and the finish screen after that |
| `App.FlowWithoutPrompts` | src/App.tsx:30 | before prompts load, okay opens the fallback prompt and its "next" leads to the finish screen |
| `App.NumStarsConcat` | src/App.tsx:43 | the star sum splits over concatenated histories |
| `App.NumStarsBounds` | src/App.tsx:43-44 | with ratings in 0..5 the sum lies between 0 and `5 * |history|` |
| `App.ClassifyByPercentage` | src/App.tsx:45-55 | for a positive total, the top tier holds iff the percentage is above 85, the middle iff it is above 60 and at most 85, the low iff it is at most 60 |
| `App.ThresholdsAreStrict` | src/App.tsx:49-52 | exactly 85% falls in the middle tier and exactly 60% in the low tier |
| `App.SummaryTier` | src/App.tsx:43-55 | a non-empty history has total `5 * |history|` and lands in the tier of its percentage band |
| `App.SummaryTextsCarryScore` | src/App.tsx:47-59 | cutting the tier's fixed words off the message, or the phrase and suffix off the share text, leaves a fraction that reads back as the star sum over the total |
| `App.EmptyHistorySummary` | src/App.tsx:43-59 | an empty history scores 0/0, falls in the low tier, and yields the low-tier message and share text with "0/0" |
| `App.ThreeAndFiveStars` | src/App.tsx:43-59 | two answers rated 3 and 5 give 8/10, the middle tier, and its message and share text |
| `App.TwoPromptSession` | src/components/PromptResponseScreen.tsx:78-101 | prompts "a" and "b", answers scored 3 then 5: the history holds both records keyed "a" and "b", the last "next" leads to the finish screen, and the summary is 8/10 in the middle tier |

## Findings

| source | as written | input that shows it | evidently intended | confidence | as-written member | corrected member |
|---|---|---|---|---|---|---|
| src/components/TypedText.tsx:15-33 | When `text` changes, the tick effect runs in the same render as the reset effect and still sees the old index and done flag. If the old index already reaches the new text's length, it marks typing done after the reset and calls `onComplete` before any of the new text is shown. | text "abc" shown up to "ab", then text "x" | the reset takes effect first, and `onComplete` fires once, after the new text is fully shown | medium (depends on React running both effects in one commit); not executed | `TypedText.CommitAsWrittenExample` | `TypedText.Engine.SetText` |

Outside the finding, the engine uses the corrected reset: `Engine.SetText`
resets to `Initial`, and `RunFromInitial` proves that completion then comes
exactly after the whole new text is shown.

## Left out

- TypedText.Engine.SetText: the reset is atomic, which is the intended behaviour (see Findings). The stale-value commit of the code as written is modelled only by `CommitAsWritten`.
- TypedText.Step, TypedText.Engine.Tick: JavaScript `text.length` and `text[i]` (src/components/TypedText.tsx:22,24) count UTF-16 code units, while a Dafny `string` is a sequence of Unicode scalar values. For a text with a character outside the Basic Multilingual Plane (an emoji), the component takes two ticks and shows a lone surrogate in between; the model takes one tick.
- Decimal.IntToString: `${n}` renders a JavaScript double, which switches to exponent form from 1e21 on and loses integer precision above 2^53. The model prints an unbounded integer digit by digit, and reply stars are not bounded anywhere in the model.
- Network requests (prompt list, prompt detail, submission): only their outcome is modelled, as method parameters; request URLs and JSON encoding are not.
- Real timers, `typingSpeed` and timer cancellation: the reveal timer is `Engine.Tick`, and the loading timer is `Screen.LoadingTimerFired`.
- Multi-string reveal with a pause between strings: the code does not implement it.
- AIScript, LandingScreen, YellowButton, PageTransition: presentation and animation only. AIScript wraps a third-party typing library whose behaviour is not visible here.
- React rendering and effect scheduling beyond the finding, route matching, and whether moving from one prompt to the next reuses the screen instance: each prompt gets a fresh `Screen`.
- The share button's clipboard write and its "copied" label timer, and the "again" page reload: these are browser effects. A reload amounts to a new `PromptsStore`.
- Floating-point evaluation of the percentage: the model compares exact rationals, and both tier tests are decided by integer cross-multiplication.
- Non-integer or missing `stars` and `message` fields in a reply: the model takes reply stars as integers.
- The `usePrompts` guard for a missing provider: the context has a default value, so the guard never throws.
