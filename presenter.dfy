/** The decisions `showResult`, `copyResult`, `shareResult` and
    `renderHistoryItems` take before touching the page. */
module Presenter {
  import opened Basics
  import opened Text
  import opened Messages
  import opened History

  /** Which of the two scripts: `Public/script.js` or the accessibility-enhanced
      `static/js/script.js`, which adds screen-reader announcements. */
  datatype Variant = PublicScript | StaticScript

  /** The CSS class `showResult` puts on the result card. */
  datatype Category = Success | Error | Warning

  datatype Description = Description(headline: string, category: Category)

  /** The `if (prediction === 1) … else if (prediction === 0) … else …` chain. */
  function Describe(prediction: int): (d: Description)
    ensures d.category == Success <==> prediction == 1
    ensures d.category == Error <==> prediction == 0
    ensures d.category == Warning <==> prediction != 0 && prediction != 1
    ensures d.headline == match d.category
      case Success => ResultTrue
      case Error => ResultFalse
      case Warning => AnalysisError
  {
    if prediction == 1 then Description(ResultTrue, Success)
    else if prediction == 0 then Description(ResultFalse, Error)
    else Description(AnalysisError, Warning)
  }

  /** The three headlines are distinct, so the headline alone tells the category. */
  lemma HeadlineDeterminesCategory(p: int, q: int)
    requires Describe(p).headline == Describe(q).headline
    ensures Describe(p).category == Describe(q).category
  {
  }

  /** `Math.round(confidence * 100)`: the nearest integer, halves rounded up. */
  function Percent(c: real): (p: int)
    ensures p as real <= c * 100.0 + 0.5 < p as real + 1.0
  {
    (c * 100.0 + 0.5).Floor
  }

  const ConfidencePrefix := "Confidence: "

  /** `Confidence: N%`, with `N` the rounded percentage. */
  function ConfidenceLine(c: real): (l: string)
    ensures |l| > |ConfidencePrefix| + 1
    ensures StartsWith(l, ConfidencePrefix) && EndsWith(l, "%")
    ensures IsIntString(l[|ConfidencePrefix|..|l| - 1])
    ensures IntValue(l[|ConfidencePrefix|..|l| - 1]) == Percent(c)
  {
    var n := IntToString(Percent(c));
    ConcatParts(ConfidencePrefix, n, "%");
    ConfidencePrefix + n + "%"
  }

  /** Everything `showResult` decides: the card's headline and class, the
      summary line, the confidence line when one is shown, whether the result
      is archived, and the screen-reader announcement of the static script. */
  datatype Presentation = Presentation(
    headline: string,
    category: Category,
    summary: string,
    confidenceLine: Option<string>,
    archived: bool,
    announcement: Option<string>)

  function Present(variant: Variant, prediction: int, confidence: Option<real>, text: string): (p: Presentation)
    ensures p.headline == Describe(prediction).headline && p.category == Describe(prediction).category
    ensures p.summary == AnalysisCompleted(text)
    ensures p.archived <==> prediction != -1
    ensures p.confidenceLine.Some? <==> confidence.Some? && prediction != -1
    ensures p.confidenceLine.Some? ==> p.confidenceLine.value == ConfidenceLine(confidence.value)
    ensures p.announcement.None? <==> variant == PublicScript
    ensures p.announcement.Some? ==>
      p.announcement.value == if p.archived then p.headline + ". " + p.summary else AnalysisError
  {
    var d := Describe(prediction);
    var summary := AnalysisCompleted(text);
    var line := if confidence.Some? && prediction != -1 then Some(ConfidenceLine(confidence.value)) else None;
    var archived := prediction != -1;
    var announcement :=
      if variant == PublicScript then None
      else if archived then Some(d.headline + ". " + summary)
      else Some(AnalysisError);
    Presentation(d.headline, d.category, summary, line, archived, announcement)
  }

  /** The failure path of the submit handler, `showResult(-1, null, text)`, is
      a warning that is neither archived nor shown with a confidence. */
  lemma FailureIsNeverArchived(variant: Variant, text: string)
    ensures var p := Present(variant, -1, None, text);
      p.category == Warning && !p.archived && p.confidenceLine.None?
      && (variant == StaticScript ==> p.announcement == Some(AnalysisError))
  {
  }

  /** For the outcomes the verdict source produces (a 0 or 1 with a confidence,
      or the failure path's -1 with none), a confidence is shown and the result
      archived exactly when the verdict is true or fake, not the warning. */
  lemma SourceOutcomesKeepVerdictInvariant(variant: Variant, prediction: int, confidence: Option<real>, text: string)
    requires (prediction in {0, 1} && confidence.Some?) || (prediction == -1 && confidence.None?)
    ensures var p := Present(variant, prediction, confidence, text);
      && (p.archived <==> p.category != Warning)
      && (p.confidenceLine.Some? <==> p.category != Warning)
  {
  }

  /** The guards differ: a prediction outside {-1, 0, 1} gets the warning
      headline yet is archived and, with a confidence, shows it. */
  lemma OtherPredictionsAreArchived(variant: Variant, prediction: int, c: real, text: string)
    requires prediction !in {-1, 0, 1}
    ensures var p := Present(variant, prediction, Some(c), text);
      p.category == Warning && p.archived && p.confidenceLine == Some(ConfidenceLine(c))
  {
  }

  /** The label of `copyResult`, `shareResult` and `renderHistoryItems`:
      `prediction === 1 ? "TRUE" : "FAKE"`. */
  function ResultLabel(prediction: int): (l: string)
    ensures l == HistoryResultTrue <==> prediction == 1
    ensures l == HistoryResultFalse <==> prediction != 1
  {
    if prediction == 1 then HistoryResultTrue else HistoryResultFalse
  }

  /** JavaScript truthiness of `confidence`: absent and zero are both falsy. */
  predicate IsTruthy(confidence: Option<real>) {
    confidence.Some? && confidence.value != 0.0
  }

  /** ` (N% confidence)` in the copied text, ` (N%)` in a history row; empty when falsy. */
  function ConfidenceSuffix(confidence: Option<real>, unit: string): (s: string)
    ensures s == "" <==> !IsTruthy(confidence)
    ensures IsTruthy(confidence) ==>
      && |s| > |unit| + 4
      && StartsWith(s, " (") && EndsWith(s, "%" + unit + ")")
      && IsIntString(s[2..|s| - |unit| - 2])
      && IntValue(s[2..|s| - |unit| - 2]) == Percent(confidence.value)
  {
    if IsTruthy(confidence) then
      var n := IntToString(Percent(confidence.value));
      var tail := "%" + unit + ")";
      ConcatParts(" (", n, tail);
      " (" + n + tail
    else
      ""
  }

  const CopyPrefix := "Fact Check Result: "
  const CopyTextLine := "\nText analyzed: \""

  /** The text `copyResult` writes to the clipboard. */
  function CopyText(r: Result): (t: string)
    ensures StartsWith(t, CopyPrefix + ResultLabel(r.prediction))
    ensures EndsWith(t, CopyTextLine + r.text + "\"")
    ensures |t| == |CopyPrefix + ResultLabel(r.prediction)|
      + |ConfidenceSuffix(r.confidence, " confidence")| + |CopyTextLine + r.text + "\""|
    ensures t[|CopyPrefix + ResultLabel(r.prediction)|..|t| - |CopyTextLine + r.text + "\""|]
      == ConfidenceSuffix(r.confidence, " confidence")
  {
    var head := CopyPrefix + ResultLabel(r.prediction);
    var tail := CopyTextLine + r.text + "\"";
    var suffix := ConfidenceSuffix(r.confidence, " confidence");
    ConcatParts(head, suffix, tail);
    head + suffix + tail
  }

  /** The text `shareResult` shares. */
  function ShareTextOf(r: Result): (t: string)
    ensures StartsWith(t, SharePrefix + ResultLabel(r.prediction) + " - \"")
    ensures EndsWith(t, "...\"")
    ensures |SharePrefix + ResultLabel(r.prediction) + " - \""| + 4 <= |t|
    ensures t[|SharePrefix + ResultLabel(r.prediction) + " - \""|..|t| - 4] == Take(r.text, ExcerptLength)
  {
    ShareText(ResultLabel(r.prediction), r.text)
  }

  /** Copy and share label anything but a `1` as FAKE: a failed analysis,
      still the current result, is copied as a FAKE verdict. */
  lemma FailedResultIsCopiedAsFake(text: string, timestamp: int)
    ensures StartsWith(CopyText(Result(-1, None, text, timestamp)), CopyPrefix + HistoryResultFalse)
    ensures StartsWith(ShareTextOf(Result(-1, None, text, timestamp)), SharePrefix + HistoryResultFalse + " - \"")
  {
  }

  /** The result badge of one history row: its class and its visible text. */
  datatype Badge = Badge(cssClass: string, text: string)

  function HistoryBadge(e: Entry): (b: Badge)
    ensures b.cssClass == "true" <==> e.result.prediction == 1
    ensures b.cssClass == "false" <==> e.result.prediction != 1
    ensures StartsWith(b.text, (if e.result.prediction == 1 then "✓ " else "✗ ") + ResultLabel(e.result.prediction))
    ensures EndsWith(b.text, ConfidenceSuffix(e.result.confidence, ""))
    ensures |b.text| == |(if e.result.prediction == 1 then "✓ " else "✗ ") + ResultLabel(e.result.prediction)|
      + |ConfidenceSuffix(e.result.confidence, "")|
  {
    var isTrue := e.result.prediction == 1;
    var head := (if isTrue then "✓ " else "✗ ") + ResultLabel(e.result.prediction);
    var suffix := ConfidenceSuffix(e.result.confidence, "");
    var text := head + suffix;
    assert text[..|head|] == head && text[|text| - |suffix|..] == suffix;
    Badge(if isTrue then "true" else "false", text)
  }
}
