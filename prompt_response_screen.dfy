/** The per-prompt screen (PromptResponseScreen), reached at /prompt/{slug}.

    The pure part decides where "next" leads: the slug's first position in
    the prompt list, then the following slug if there is one and it is
    non-empty, otherwise the finish screen; the button label and the star row
    are derived the same way.  The `Screen` class holds the screen's own
    flags and calls into the shared `PromptsStore`; the network requests are
    parameters (the reply that came back) and results (the request that was
    sent). */
module PromptResponseScreen {
  import opened Js
  import opened Routes
  import opened PromptsContext

  datatype Variation = Variation(sender: string, avatarColor: string, message: string)

  /** The prompt detail the screen fetches for its slug. */
  datatype PromptDetail = PromptDetail(
    slug: string,
    description: string,
    variation: Variation,
    variationIndex: int)

  /** The body of the scoring request `POST /api/submit/{slug}`;
      `variationIndex` is `None` when no prompt detail has been loaded. */
  datatype SubmitRequest = SubmitRequest(slug: string, response: string, variationIndex: Option<int>)

  /** How the scoring request ended: an ok reply with its message and stars,
      or anything that lands in the catch block (a non-ok status, a network
      error, a body that is not JSON). */
  datatype SubmitReply = Scored(message: string, stars: int) | Failed

  /** `prompts.findIndex(p => p === slug)`: the first position of `slug`,
      or -1 when it does not occur. */
  function FindIndex(prompts: seq<string>, slug: string): (i: int)
    ensures -1 <= i < |prompts|
    ensures i == -1 <==> slug !in prompts
    ensures 0 <= i ==> prompts[i] == slug && slug !in prompts[..i]
  {
    if prompts == [] then -1
    else if prompts[0] == slug then 0
    else
      var j := FindIndex(prompts[1..], slug);
      if j == -1 then -1 else j + 1
  }

  /** `currentIndex < prompts.length - 1 ? prompts[currentIndex + 1] : null`. */
  function NextPrompt(prompts: seq<string>, slug: string): Option<string>
  {
    var i := FindIndex(prompts, slug);
    if i < |prompts| - 1 then Some(prompts[i + 1]) else None
  }

  /** Where "next" navigates: the next prompt when `NextPrompt` is truthy
      (present and non-empty), the finish screen otherwise. */
  function NextTarget(prompts: seq<string>, slug: string): Route
  {
    match NextPrompt(prompts, slug)
    case Some(p) => if Truthy(p) then Prompt(p) else Finish
    case None => Finish
  }

  /** The label of the button that calls `handleNext`. */
  function NextLabel(prompts: seq<string>, slug: string): string
  {
    if FindIndex(prompts, slug) < |prompts| - 1 then "next" else "finish"
  }

  /** For the slug first found at position `i`, "next" leads to the slug at
      `i + 1` (when there is one and it is non-empty) and to the finish screen
      otherwise; in particular the last slug leads to the finish screen. */
  lemma NextTargetAt(prompts: seq<string>, i: int)
    requires 0 <= i < |prompts| && prompts[i] !in prompts[..i]
    ensures NextTarget(prompts, prompts[i]) ==
      if i < |prompts| - 1 && prompts[i + 1] != "" then Prompt(prompts[i + 1]) else Finish
    ensures NextLabel(prompts, prompts[i]) == if i < |prompts| - 1 then "next" else "finish"
  {
  }

  /** With no prompts loaded, "next" leads to the finish screen. */
  lemma EmptyListFinishes(slug: string)
    ensures NextTarget([], slug) == Finish && NextLabel([], slug) == "finish"
  {
  }

  /** A slug that is not in a non-empty list is found at -1, so "next" leads
      to the first prompt (when it is non-empty), as if restarting. */
  lemma UnknownSlugRestarts(prompts: seq<string>, slug: string)
    requires |prompts| > 0 && slug !in prompts
    ensures FindIndex(prompts, slug) + 1 == 0
    ensures NextTarget(prompts, slug) == if prompts[0] != "" then Prompt(prompts[0]) else Finish
    ensures NextLabel(prompts, slug) == "next"
  {
  }

  /** When no slug is empty, the label reads "next" exactly when "next" leads
      to another prompt, and "finish" exactly when it leads to the finish
      screen. */
  lemma LabelMatchesTarget(prompts: seq<string>, slug: string)
    requires forall k :: 0 <= k < |prompts| ==> prompts[k] != ""
    ensures NextLabel(prompts, slug) == "next" <==> NextTarget(prompts, slug).Prompt?
    ensures NextLabel(prompts, slug) == "finish" <==> NextTarget(prompts, slug) == Finish
  {
  }

  /** The label tests the position while the navigation tests truthiness, so a
      following empty slug makes the button read "next" and lead to finish. */
  lemma LabelDisagreesOnEmptySlug()
    ensures NextLabel(["a", ""], "a") == "next"
    ensures NextTarget(["a", ""], "a") == Finish
  {
    assert FindIndex(["a", ""], "a") == 0;
  }

  /** The five star positions: position `k` is filled when `k < stars`. */
  function StarRow(stars: int): seq<bool>
  {
    seq(5, k => k < stars)
  }

  function CountFilled(row: seq<bool>): nat
  {
    if row == [] then 0 else CountFilled(row[..|row| - 1]) + if row[|row| - 1] then 1 else 0
  }

  /** Of the first `n` positions, `stars` are filled, clamped to 0..n. */
  lemma {:induction false} FilledPrefixCount(stars: int, n: nat)
    ensures CountFilled(seq(n, k => k < stars)) == if stars < 0 then 0 else if stars > n then n else stars
  {
    if n > 0 {
      var row := seq(n, k => k < stars);
      assert row[..n - 1] == seq(n - 1, k => k < stars);
      FilledPrefixCount(stars, n - 1);
    }
  }

  /** The row shows `stars` filled stars, clamped to the range 0..5. */
  lemma StarRowCount(stars: int)
    ensures |StarRow(stars)| == 5
    ensures CountFilled(StarRow(stars)) == if stars < 0 then 0 else if stars > 5 then 5 else stars
  {
    FilledPrefixCount(stars, 5);
  }

  /** The `variationIndex` sent with a submission: `prompt?.variationIndex`. */
  function VariationIndexOf(prompt: Option<PromptDetail>): Option<int>
  {
    match prompt
    case Some(p) => Some(p.variationIndex)
    case None => None
  }

  /** One mounted prompt screen for `slug`, sharing `store`. */
  class Screen {
    const store: PromptsStore
    const slug: string
    var prompt: Option<PromptDetail>
    var userResponse: string
    var isTypingDone: bool
    var showMessage: bool
    var showLoading: bool
    var isResponseMode: bool
    var stars: int
    var message: string

    /** The screen renders the input box. */
    predicate ShowsInput()
      reads this
    {
      prompt.Some? && !isResponseMode && isTypingDone
    }

    /** The screen renders "reading your response...". */
    predicate ShowsLoading()
      reads this
    {
      prompt.Some? && isResponseMode && showLoading && !showMessage
    }

    /** The screen renders the stars, the reply and the next/finish button. */
    predicate ShowsScore()
      reads this
    {
      prompt.Some? && isResponseMode && showMessage
    }

    /** Mount: nothing loaded, nothing typed, no response shown. */
    constructor (store: PromptsStore, slug: string)
      ensures this.store == store && this.slug == slug
      ensures prompt == None && userResponse == "" && !isTypingDone
      ensures !showMessage && !showLoading && !isResponseMode && stars == 0 && message == ""
    {
      this.store := store;
      this.slug := slug;
      prompt := None;
      userResponse := "";
      isTypingDone := false;
      showMessage := false;
      showLoading := false;
      isResponseMode := false;
      stars := 0;
      message := "";
    }

    /** The result of `GET /api/prompt/{slug}`: stored on success; on failure
        the screen stays blank. */
    method LoadPrompt(fetched: Option<PromptDetail>)
      modifies this
      ensures prompt == (if fetched.Some? then fetched else old(prompt))
      ensures userResponse == old(userResponse) && isTypingDone == old(isTypingDone)
      ensures showMessage == old(showMessage) && showLoading == old(showLoading)
      ensures isResponseMode == old(isResponseMode) && stars == old(stars) && message == old(message)
    {
      if fetched.Some? {
        prompt := fetched;
      }
    }

    /** The description's TypedText called its `onComplete`. */
    method DescriptionTyped()
      modifies this`isTypingDone
      ensures isTypingDone
    {
      isTypingDone := true;
    }

    /** The text area's `onChange`. */
    method EditResponse(text: string)
      modifies this`userResponse
      ensures userResponse == text
    {
      userResponse := text;
    }

    /** `handleSubmit`, given how the scoring request ends.

        A blank response (empty or white space only) changes nothing and sends
        nothing.  Otherwise the screen enters response mode with the loading
        indicator on and sends the response; on an ok reply it stores the
        message and stars, clears the input, shows the score and records one
        history entry for `prompts[currentPromptIndex]`; on a failure nothing
        more happens, so the loading indicator stays up. */
    method HandleSubmit(reply: SubmitReply) returns (request: Option<SubmitRequest>)
      modifies this, store
      ensures store.prompts == old(store.prompts)
      ensures store.currentPromptIndex == old(store.currentPromptIndex)
      ensures prompt == old(prompt) && isTypingDone == old(isTypingDone)
      ensures IsBlank(old(userResponse)) ==>
        request == None && unchanged(this) && unchanged(store)
      ensures !IsBlank(old(userResponse)) ==>
        request == Some(SubmitRequest(slug, old(userResponse), VariationIndexOf(old(prompt)))) &&
        isResponseMode && showLoading && !ShowsInput()
      ensures !IsBlank(old(userResponse)) && reply.Scored? ==>
        message == reply.message && stars == reply.stars && userResponse == "" && showMessage &&
        !ShowsLoading() && (prompt.Some? ==> ShowsScore()) &&
        store.responseHistory == old(store.responseHistory) +
          [ResponseRecord(Lookup(old(store.prompts), old(store.currentPromptIndex)),
                          old(userResponse), reply.message, reply.stars)]
      ensures !IsBlank(old(userResponse)) && reply.Failed? ==>
        message == old(message) && stars == old(stars) && userResponse == old(userResponse) &&
        showMessage == old(showMessage) && store.responseHistory == old(store.responseHistory) &&
        (ShowsLoading() <==> prompt.Some? && !old(showMessage))
    {
      TrimEmptyIffBlank(userResponse);
      if !Truthy(Trim(userResponse)) {
        return None;
      }
      isResponseMode := true;
      showLoading := true;
      request := Some(SubmitRequest(slug, userResponse, VariationIndexOf(prompt)));
      match reply
      case Failed =>
      case Scored(replyMessage, replyStars) =>
        var submitted := userResponse;
        message := replyMessage;
        stars := replyStars;
        userResponse := "";
        showMessage := true;
        store.AddToHistory(Lookup(store.prompts, store.currentPromptIndex), submitted, replyMessage, replyStars);
    }

    /** The timer armed after a scored reply: it only hides the loading flag. */
    method LoadingTimerFired()
      modifies this`showLoading
      ensures !showLoading
    {
      showLoading := false;
    }

    /** `handleNext`: navigate to the next prompt, moving the store's index
        to its position, or to the finish screen, leaving the index; then
        leave response mode with an empty input. */
    method HandleNext() returns (target: Route)
      modifies this, store
      ensures target == NextTarget(old(store.prompts), slug)
      ensures store.currentPromptIndex ==
        if target.Prompt? then FindIndex(old(store.prompts), slug) + 1 else old(store.currentPromptIndex)
      ensures store.prompts == old(store.prompts) && store.responseHistory == old(store.responseHistory)
      ensures !isResponseMode && !showMessage && !showLoading && userResponse == ""
      ensures prompt == old(prompt) && isTypingDone == old(isTypingDone)
      ensures stars == old(stars) && message == old(message)
    {
      var currentIndex := FindIndex(store.prompts, slug);
      var nextPrompt := NextPrompt(store.prompts, slug);
      if nextPrompt.Some? && Truthy(nextPrompt.value) {
        target := Prompt(nextPrompt.value);
        store.SetCurrentPromptIndex(currentIndex + 1);
      } else {
        target := Finish;
      }
      isResponseMode := false;
      showMessage := false;
      showLoading := false;
      userResponse := "";
    }
  }
}
