/** The character-reveal engine of the TypedText component.

    One instance holds three state cells: the text shown so far, the index of
    the next character to show, and whether typing is done.  Its tick effect
    runs after every change: while characters remain it arms a timer whose
    firing appends the next character; once the index reaches the end of the
    text and typing is not yet marked done, it marks it done and calls
    `onComplete`.  Its reset effect puts the three cells back to their initial
    values whenever the `text` prop changes.

    `Step` is one turn of the tick effect (the timer firing, or the completion
    branch); `Run` is a sequence of turns; the `Engine` class is the component
    instance, whose methods are proved against `Step`. */
module TypedText {

  /** The three state cells `displayedText`, `currentIndex`, `isTypingDone`. */
  datatype Reveal = Reveal(displayedText: string, currentIndex: int, isTypingDone: bool)

  /** The state on mount and after every reset. */
  const Initial: Reveal := Reveal("", 0, false)

  /** What holds of every reachable state: the shown text is the first
      `currentIndex` characters of `text`, the index never passes the end,
      and typing is done only at the end. */
  predicate Consistent(text: string, r: Reveal)
  {
    0 <= r.currentIndex <= |text| &&
    r.displayedText == text[..r.currentIndex] &&
    (r.isTypingDone ==> r.currentIndex == |text|)
  }

  /** One turn of the tick effect on `text`: the new state, and whether
      `onComplete` was called in this turn. */
  function Step(text: string, r: Reveal): (out: (Reveal, bool))
    requires Consistent(text, r)
    ensures Consistent(text, out.0)
    // a tick before the end reveals exactly the next character
    ensures r.currentIndex < |text| ==>
      !out.1 && out.0.currentIndex == r.currentIndex + 1 &&
      out.0.displayedText == r.displayedText + [text[r.currentIndex]]
    // completion fires only once the whole text is shown, and leaves typing done
    ensures out.1 ==> !r.isTypingDone && out.0.isTypingDone && out.0.displayedText == text
    // once the end is reached, completion fires if and only if it has not yet
    ensures r.currentIndex == |text| ==> (out.1 <==> !r.isTypingDone)
    // once done, nothing changes
    ensures r.isTypingDone ==> out == (r, false)
  {
    if r.currentIndex < |text| then
      (Reveal(r.displayedText + [text[r.currentIndex]], r.currentIndex + 1, r.isTypingDone), false)
    else if !r.isTypingDone then
      (Reveal(r.displayedText, r.currentIndex, true), true)
    else
      (r, false)
  }

  /** `n` turns of the tick effect: the final state and how many times
      `onComplete` was called along the way. */
  function Run(text: string, r: Reveal, n: nat): (out: (Reveal, nat))
    requires Consistent(text, r)
    ensures Consistent(text, out.0)
    ensures out.1 <= 1
    ensures r.isTypingDone ==> out == (r, 0)
    decreases n
  {
    if n == 0 then (r, 0)
    else
      var (r1, fired) := Step(text, r);
      var (r2, calls) := Run(text, r1, n - 1);
      (r2, calls + if fired then 1 else 0)
  }

  /** From a partial reveal of the first `k` characters, `n` more turns show
      `k + n` characters without completing, or, once `n` passes the rest of
      the text, show all of it and complete exactly once. */
  lemma {:induction false} RunFromPrefix(text: string, k: nat, n: nat)
    requires k <= |text|
    ensures Consistent(text, Reveal(text[..k], k, false))
    ensures Run(text, Reveal(text[..k], k, false), n) ==
      if k + n <= |text| then (Reveal(text[..k + n], k + n, false), 0)
      else (Reveal(text, |text|, true), 1)
    decreases n
  {
    assert text[..|text|] == text;
    if n > 0 {
      if k < |text| {
        assert text[..k] + [text[k]] == text[..k + 1];
        RunFromPrefix(text, k + 1, n - 1);
      }
    }
  }

  /** The whole life of one text from a reset: after `n` turns the first
      `min(n, |text|)` characters are shown, and `onComplete` has been called
      once if `n > |text|` and never otherwise. */
  lemma RunFromInitial(text: string, n: nat)
    ensures Consistent(text, Initial)
    ensures Run(text, Initial, n) ==
      if n <= |text| then (Reveal(text[..n], n, false), 0)
      else (Reveal(text, |text|, true), 1)
  {
    RunFromPrefix(text, 0, n);
  }

  /** An empty text completes on the first turn, without revealing anything. */
  lemma EmptyTextCompletesAtOnce()
    ensures Consistent("", Initial)
    ensures Run("", Initial, 1) == (Reveal("", 0, true), 1)
  {
    RunFromInitial("", 1);
  }

  /** The blinking cursor is rendered while typing is not done. */
  predicate ShowsCursor(r: Reveal)
  {
    !r.isTypingDone
  }

  /** Along any run from a reset, the cursor is shown exactly until
      `onComplete` has been called. */
  lemma CursorUntilComplete(text: string, n: nat)
    ensures Consistent(text, Initial)
    ensures ShowsCursor(Run(text, Initial, n).0) <==> Run(text, Initial, n).1 == 0
  {
    RunFromInitial(text, n);
  }

  /** What the component as written does in the render where `text` changes
      from `oldText` to `newText` on state `r`: the reset effect queues the
      initial values, and then the tick effect runs with the values it sees in
      that same render, which are still `r`'s.  If `r`'s index already reaches
      the end of the new text and typing was not done, that effect marks
      typing done (after the reset's update, so that value wins) and calls
      `onComplete`.  Otherwise the timer it may arm is either cleared by the
      next render or, when `r` was already the initial state, reveals the
      correct first character. */
  function CommitAsWritten(oldText: string, r: Reveal, newText: string): (out: (Reveal, bool))
    requires Consistent(oldText, r) && newText != oldText
    // the stale commit always empties the display and rewinds the index ...
    ensures out.0.displayedText == "" && out.0.currentIndex == 0
    // ... and agrees with a proper reset whenever it does not complete
    ensures !out.1 ==> out.0 == Initial
    // the new state is a reachable one exactly when no completion fired, or the new text is empty
    ensures Consistent(newText, out.0) <==> (!out.1 || newText == "")
  {
    var fired := !(r.currentIndex < |newText|) && !r.isTypingDone;
    (Reveal("", 0, fired), fired)
  }

  /** As written, switching mid-reveal to a text no longer than what is already
      shown calls `onComplete` before any of the new text is shown, and leaves
      a state in which typing is marked done at index 0. */
  lemma CommitAsWrittenCompletesEarly(oldText: string, r: Reveal, newText: string)
    requires Consistent(oldText, r) && newText != oldText
    requires !r.isTypingDone && 0 < |newText| <= r.currentIndex
    ensures CommitAsWritten(oldText, r, newText).1
    ensures !Consistent(newText, CommitAsWritten(oldText, r, newText).0)
  {
  }

  /** A concrete case: "abc" shown up to "ab", then the text becomes "x". */
  lemma CommitAsWrittenExample()
    ensures Consistent("abc", Reveal("ab", 2, false))
    ensures CommitAsWritten("abc", Reveal("ab", 2, false), "x") == (Reveal("", 0, true), true)
  {
    assert "abc"[..2] == "ab";
  }

  /** One TypedText instance.  `completions` counts the calls of `onComplete`
      since `text` was last set. */
  class Engine {
    var text: string
    var displayedText: string
    var currentIndex: int
    var isTypingDone: bool
    var completions: nat

    function State(): Reveal
      reads this
    {
      Reveal(displayedText, currentIndex, isTypingDone)
    }

    /** The reveal invariant, and: `onComplete` has been called once if typing
        is done and never otherwise. */
    ghost predicate Valid()
      reads this
    {
      Consistent(text, State()) && completions == (if isTypingDone then 1 else 0)
    }

    /** Mount with `text`: nothing shown, index 0, not done. */
    constructor (text: string)
      ensures Valid() && this.text == text && State() == Initial && completions == 0
    {
      this.text := text;
      displayedText := "";
      currentIndex := 0;
      isTypingDone := false;
      completions := 0;
    }

    /** One turn of the tick effect; `completed` says whether `onComplete`
        was called. */
    method Tick() returns (completed: bool)
      requires Valid()
      modifies this
      ensures Valid() && text == old(text)
      ensures (State(), completed) == Step(text, old(State()))
      ensures completions == old(completions) + (if completed then 1 else 0)
    {
      if currentIndex < |text| {
        displayedText := displayedText + [text[currentIndex]];
        currentIndex := currentIndex + 1;
        completed := false;
      } else if !isTypingDone {
        isTypingDone := true;
        completions := completions + 1;
        completed := true;
      } else {
        completed := false;
      }
    }

    /** A new `text` prop: a different text resets the reveal; the same text
        (the reset effect's dependency unchanged) leaves everything as it is. */
    method SetText(newText: string)
      requires Valid()
      modifies this
      ensures Valid() && text == newText
      ensures newText == old(text) ==> State() == old(State()) && completions == old(completions)
      ensures newText != old(text) ==> State() == Initial && completions == 0
    {
      if newText != text {
        text := newText;
        displayedText := "";
        currentIndex := 0;
        isTypingDone := false;
        completions := 0;
      }
    }
  }
}
