/** The screens defined in App.tsx: Landing and Intro (where their buttons
    navigate), and Finish (the score summary over the session's history).
    `FlowAfter` chains Intro's button with the prompt screens' "next"
    button, and `TwoPromptSession` drives the store and two prompt screens
    through a whole session. */
module App {
  import opened Js
  import opened Decimal
  import opened Routes
  import opened PromptsContext
  import opened PromptResponseScreen

  // ---------------------------------------------------------------- navigation

  /** The slug Intro falls back to while the prompt list is empty. */
  const FallbackSlug: string := "friendly-email"

  /** Landing's start button always navigates to the intro screen. */
  function OnStart(): (r: Route)
    ensures Path(r) == "/intro"
  {
    Intro
  }

  /** Intro's okay button: `prompts[0] ?? 'friendly-email'`. */
  function OnOkay(prompts: seq<string>): (r: Route)
    ensures Path(r) == PromptPrefix + (if |prompts| > 0 then prompts[0] else FallbackSlug)
  {
    Prompt(OrElse(Lookup(prompts, 0), FallbackSlug))
  }

  /** The screen reached from Intro by pressing okay and then "next" `n`
      times (a screen other than a prompt screen stays put). */
  function FlowAfter(prompts: seq<string>, n: nat): Route
  {
    if n == 0 then OnOkay(prompts)
    else
      match FlowAfter(prompts, n - 1)
      case Prompt(s) => NextTarget(prompts, s)
      case r => r
  }

  predicate Distinct(prompts: seq<string>)
  {
    forall i, j :: 0 <= i < j < |prompts| ==> prompts[i] != prompts[j]
  }

  /** With a loaded list of distinct, non-empty slugs, the session visits
      every prompt once, in list order, and then the finish screen. */
  lemma {:induction false} FlowVisitsPromptsInOrder(prompts: seq<string>, n: nat)
    requires |prompts| > 0 && Distinct(prompts)
    requires forall k :: 0 <= k < |prompts| ==> prompts[k] != ""
    ensures FlowAfter(prompts, n) == if n < |prompts| then Prompt(prompts[n]) else Finish
  {
    if n > 0 {
      FlowVisitsPromptsInOrder(prompts, n - 1);
      if n - 1 < |prompts| {
        var before := prompts[..n - 1];
        assert forall k :: 0 <= k < |before| ==> before[k] == prompts[k];
        NextTargetAt(prompts, n - 1);
      }
    }
  }

  /** Before the prompt list has loaded, okay leads to the fallback prompt,
      and its "next" leads straight to the finish screen. */
  lemma FlowWithoutPrompts()
    ensures FlowAfter([], 0) == Prompt(FallbackSlug)
    ensures FlowAfter([], 1) == Finish
  {
    assert FlowAfter([], 0) == Prompt(FallbackSlug);
  }

  // ------------------------------------------------------------------- scoring

  /** The three outcomes of the finish screen, named after their share text. */
  datatype Tier = SavedTime | HelpedALittle | WastedTime

  /** `responseHistory.reduce((total, { stars }) => total + stars, 0)`. */
  function NumStars(history: seq<ResponseRecord>): int
  {
    if history == [] then 0
    else NumStars(history[..|history| - 1]) + history[|history| - 1].stars
  }

  /** The sum splits over a concatenation of histories. */
  lemma {:induction false} NumStarsConcat(a: seq<ResponseRecord>, b: seq<ResponseRecord>)
    ensures NumStars(a + b) == NumStars(a) + NumStars(b)
    decreases |b|
  {
    if b == [] {
      assert a + b == a;
    } else {
      assert (a + b)[..|a + b| - 1] == a + b[..|b| - 1];
      assert (a + b)[|a + b| - 1] == b[|b| - 1];
      NumStarsConcat(a, b[..|b| - 1]);
    }
  }

  /** When every rating is in 0..5 the sum is between 0 and the total possible. */
  lemma {:induction false} NumStarsBounds(history: seq<ResponseRecord>)
    requires forall k :: 0 <= k < |history| ==> 0 <= history[k].stars <= 5
    ensures 0 <= NumStars(history) <= 5 * |history|
    decreases |history|
  {
    if history != [] {
      NumStarsBounds(history[..|history| - 1]);
    }
  }

  /** The tier the `percentage > 85` / `percentage > 60` tests select, with
      `percentage` computed as `numStars / totalPossibleStars * 100`.  For a
      positive total the tests are decided exactly by cross-multiplying.  For
      a zero total the quotient is NaN when `numStars` is 0 (both tests fail),
      +Infinity when it is positive (the first succeeds) and -Infinity when it
      is negative (both fail). */
  function Classify(numStars: int, totalPossibleStars: nat): Tier
  {
    if totalPossibleStars == 0 then
      if numStars > 0 then SavedTime else WastedTime
    else if 100 * numStars > 85 * totalPossibleStars then SavedTime
    else if 100 * numStars > 60 * totalPossibleStars then HelpedALittle
    else WastedTime
  }

  /** The percentage as an exact rational number. */
  ghost function Percentage(numStars: int, totalPossibleStars: nat): real
    requires totalPossibleStars > 0
  {
    (numStars as real / totalPossibleStars as real) * 100.0
  }

  lemma ScaledComparison(numStars: int, total: nat, bound: int)
    requires total > 0
    ensures Percentage(numStars, total) > bound as real <==> 100 * numStars > bound * total
  {
    var q := numStars as real / total as real;
    assert q * total as real == numStars as real;
    var p := Percentage(numStars, total);
    assert p * total as real == (100 * numStars) as real;
    if p > bound as real {
      assert p * total as real > bound as real * total as real;
    } else {
      assert p * total as real <= bound as real * total as real;
    }
  }

  /** For a non-empty history the tiers are exactly the percentage bands:
      above 85, above 60 up to 85, and 60 or below. */
  lemma ClassifyByPercentage(numStars: int, totalPossibleStars: nat)
    requires totalPossibleStars > 0
    ensures Classify(numStars, totalPossibleStars) == SavedTime <==>
      Percentage(numStars, totalPossibleStars) > 85.0
    ensures Classify(numStars, totalPossibleStars) == HelpedALittle <==>
      60.0 < Percentage(numStars, totalPossibleStars) <= 85.0
    ensures Classify(numStars, totalPossibleStars) == WastedTime <==>
      Percentage(numStars, totalPossibleStars) <= 60.0
  {
    ScaledComparison(numStars, totalPossibleStars, 85);
    ScaledComparison(numStars, totalPossibleStars, 60);
  }

  /** The comparisons are strict: exactly 85% is the middle tier and exactly
      60% the lowest. */
  lemma ThresholdsAreStrict(numStars: int, totalPossibleStars: nat)
    requires totalPossibleStars > 0
    ensures Percentage(numStars, totalPossibleStars) == 85.0 ==>
      Classify(numStars, totalPossibleStars) == HelpedALittle
    ensures Percentage(numStars, totalPossibleStars) == 60.0 ==>
      Classify(numStars, totalPossibleStars) == WastedTime
  {
    ClassifyByPercentage(numStars, totalPossibleStars);
  }

  /** The words of each tier's message before and after the score. */
  function Opening(tier: Tier): string
  {
    match tier
    case SavedTime => "you got "
    case HelpedALittle => "not bad, you scored "
    case WastedTime => "well, you got "
  }

  function Closing(tier: Tier): string
  {
    match tier
    case SavedTime => " stars. you are a life saver!"
    case HelpedALittle => " stars. thanks for saving me a little time."
    case WastedTime => " stars. thanks for nothing."
  }

  /** The opening phrase of each tier's share text. */
  function Phrase(tier: Tier): string
  {
    match tier
    case SavedTime => "i saved an ai some time today!"
    case HelpedALittle => "i kinda helped an ai today."
    case WastedTime => "i wasted an ai's time today."
  }

  const ShareSuffix: string := " stars. http://giveaiabreak.com"

  datatype Summary = Summary(
    numStars: int,
    totalPossibleStars: nat,
    tier: Tier,
    message: string,
    shareText: string)

  /** What the finish screen computes from the history. */
  function Summarize(history: seq<ResponseRecord>): Summary
  {
    var numStars := NumStars(history);
    var total := 5 * |history|;
    var tier := Classify(numStars, total);
    var score := Fraction(numStars, total);
    Summary(numStars, total, tier,
            Opening(tier) + score + Closing(tier),
            Phrase(tier) + " " + score + ShareSuffix)
  }

  lemma Infix(a: string, m: string, b: string)
    ensures (a + m + b)[|a|..|a + m + b| - |b|] == m
  {
  }

  /** The score written into both texts is the real one: cutting the tier's
      fixed words off the message, or off the share text, leaves a fraction
      that reads back as the star sum over five times the number of answers. */
  lemma SummaryTextsCarryScore(history: seq<ResponseRecord>)
    ensures var s := Summarize(history);
      && |Opening(s.tier)| + |Closing(s.tier)| <= |s.message|
      && ParseFraction(s.message[|Opening(s.tier)|..|s.message| - |Closing(s.tier)|]) ==
           Some((NumStars(history), 5 * |history|))
      && |Phrase(s.tier)| + 1 + |ShareSuffix| <= |s.shareText|
      && ParseFraction(s.shareText[|Phrase(s.tier)| + 1..|s.shareText| - |ShareSuffix|]) ==
           Some((NumStars(history), 5 * |history|))
  {
    var s := Summarize(history);
    var score := Fraction(NumStars(history), 5 * |history|);
    var opening, closing := Opening(s.tier), Closing(s.tier);
    assert s.message == opening + score + closing;
    Infix(opening, score, closing);
    var phrase := Phrase(s.tier) + " ";
    assert s.shareText == phrase + score + ShareSuffix;
    Infix(phrase, score, ShareSuffix);
    FractionRoundTrip(NumStars(history), 5 * |history|);
  }

  /** A non-empty history, whatever its ratings, lands in the tier of its
      percentage band. */
  lemma SummaryTier(history: seq<ResponseRecord>)
    requires |history| > 0
    ensures var s := Summarize(history);
      && s.totalPossibleStars == 5 * |history|
      && (s.tier == SavedTime <==> Percentage(NumStars(history), 5 * |history|) > 85.0)
      && (s.tier == HelpedALittle <==> 60.0 < Percentage(NumStars(history), 5 * |history|) <= 85.0)
      && (s.tier == WastedTime <==> Percentage(NumStars(history), 5 * |history|) <= 60.0)
  {
    ClassifyByPercentage(NumStars(history), 5 * |history|);
  }

  /** An empty history divides 0 by 0: the lowest tier, scored "0/0". */
  lemma EmptyHistorySummary()
    ensures Summarize([]) == Summary(0, 0, WastedTime,
      Opening(WastedTime) + "0/0" + Closing(WastedTime),
      Phrase(WastedTime) + " 0/0" + ShareSuffix)
  {
    assert IntToString(0) == "0" by {
      assert NatToString(0) == [DigitChar(0)];
    }
    assert " " + "0/0" == " 0/0";
  }

  /** Two answers rated 3 and 5: 8 of 10 stars, 80%, the middle tier. */
  lemma ThreeAndFiveStars(history: seq<ResponseRecord>)
    requires |history| == 2 && history[0].stars == 3 && history[1].stars == 5
    ensures Summarize(history) == Summary(8, 10, HelpedALittle,
      Opening(HelpedALittle) + "8/10" + Closing(HelpedALittle),
      Phrase(HelpedALittle) + " 8/10" + ShareSuffix)
  {
    assert history[..1] == [history[0]] && history[..1][..0] == [];
    assert NumStars(history[..1]) == 3;
    assert NumStars(history) == 8;
    assert Fraction(8, 10) == "8/10" by {
      assert NatToString(8) == [DigitChar(8)];
      assert NatToString(10) == NatToString(1) + [DigitChar(0)];
    }
    assert Phrase(HelpedALittle) + " " + "8/10" == Phrase(HelpedALittle) + " 8/10";
  }

  // ----------------------------------------------------------- whole session

  /** A whole session through the store and two prompt screens: prompts "a"
      and "b" load, okay opens "a", its answer scores 3, "next" opens "b", its
      answer scores 5, and "next" leads to the finish screen, whose summary is
      8/10, the middle tier. */
  method TwoPromptSession() returns (history: seq<ResponseRecord>, last: Route, summary: Summary)
    ensures history == [ResponseRecord(Some("a"), "sure", "nice", 3),
                        ResponseRecord(Some("b"), "done", "great", 5)]
    ensures last == Finish
    ensures summary == Summary(8, 10, HelpedALittle,
      Opening(HelpedALittle) + "8/10" + Closing(HelpedALittle),
      Phrase(HelpedALittle) + " 8/10" + ShareSuffix)
  {
    var store := new PromptsStore();
    store.LoadPrompts(Some(["a", "b"]));
    var route := OnOkay(store.prompts);
    assert route == Prompt("a");

    var first := new Screen(store, route.slug);
    first.EditResponse("sure");
    assert !IsWhiteSpace("sure"[0]);
    var _ := first.HandleSubmit(Scored("nice", 3));
    route := first.HandleNext();
    assert FindIndex(["a", "b"], "a") == 0;
    assert route == Prompt("b") && store.currentPromptIndex == 1;

    var second := new Screen(store, route.slug);
    second.EditResponse("done");
    assert !IsWhiteSpace("done"[0]);
    var _ := second.HandleSubmit(Scored("great", 5));
    last := second.HandleNext();
    assert FindIndex(["a", "b"], "b") == 1;

    history := store.responseHistory;
    assert history == [ResponseRecord(Some("a"), "sure", "nice", 3),
                       ResponseRecord(Some("b"), "done", "great", 5)];
    summary := Summarize(history);
    ThreeAndFiveStars(history);
  }
}
