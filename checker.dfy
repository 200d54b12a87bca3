/** The module-level state of either script — `history`, `currentResult`,
    `historyExpanded` and the stored copy of the history — as one object,
    with the handlers that change it. */
module Checker {
  import opened Basics
  import opened Text
  import opened History
  import opened Presenter
  import opened Input
  import opened Keys

  /** What the awaited `analyzeText` call did: resolved with a prediction and
      an optional confidence, or threw. */
  datatype Outcome = Resolved(prediction: int, confidence: Option<real>) | Failed

  /** The arguments `handleFormSubmit` passes to `showResult`: the catch branch uses `(-1, null)`. */
  function ShownVerdict(o: Outcome): (v: (int, Option<real>))
    ensures o.Failed? ==> v.0 == -1 && v.1.None?
    ensures o.Resolved? ==> v == (o.prediction, o.confidence)
  {
    match o
    case Resolved(p, c) => (p, c)
    case Failed => (-1, None)
  }

  /** A submission either stops at the guard, with its toast, or shows a result. */
  datatype SubmitOutcome = Blocked(reason: Rejection, message: string) | Shown(presentation: Presentation)

  const ExpandedPrefix := "History expanded. "
  const ItemsSuffix := " items."

  /** The static script's announcement on toggling the history panel; when
      expanded, the number after the prefix reads back as the item count. */
  function ToggleAnnouncement(variant: Variant, expanded: bool, count: nat): (a: Option<string>)
    ensures a.None? <==> variant == PublicScript
    ensures a.Some? && expanded ==>
      && StartsWith(a.value, ExpandedPrefix) && EndsWith(a.value, ItemsSuffix)
      && DigitsValue(LeadingDigits(a.value[|ExpandedPrefix|..])) == count
      && a.value[|ExpandedPrefix|..][|LeadingDigits(a.value[|ExpandedPrefix|..])|..] == ItemsSuffix
    ensures a.Some? && !expanded ==> a.value == "History collapsed"
  {
    if variant == PublicScript then None
    else if expanded then
      var n := NatToString(count);
      var m := ExpandedPrefix + n + ItemsSuffix;
      assert m[|ExpandedPrefix|..] == n + ItemsSuffix;
      LeadingDigitsOfConcat(n, ItemsSuffix);
      NatToStringRoundTrip(count);
      Some(m)
    else Some("History collapsed")
  }

  class FactChecker {
    const variant: Variant
    var history: seq<Entry>
    var currentResult: Option<Result>
    var historyExpanded: bool
    /** The history as last written under the storage key. */
    ghost var stored: seq<Entry>

    /** Every write to `history` is followed by writing it to storage. */
    ghost predicate Valid()
      reads this
    {
      stored == history
    }

    /** Start-up: `history` is what storage held, taken as it is (the source
        does not cut a stored list that is too long), nothing shown yet and
        the panel collapsed. */
    constructor (variant: Variant, saved: seq<Entry>)
      ensures Valid()
      ensures this.variant == variant && history == saved
      ensures currentResult == None && !historyExpanded
    {
      this.variant := variant;
      history := saved;
      stored := saved;
      currentResult := None;
      historyExpanded := false;
    }

    /** `addToHistory`: prepend, keep the first `MaxHistoryItems`, write back. */
    method AddToHistory(result: Result, id: string)
      requires Valid()
      modifies this`history, this`stored
      ensures Valid()
      ensures history == Record(old(history), Entry(id, result))
      ensures |history| <= MaxHistoryItems
      ensures history[0] == Entry(id, result)
      ensures history[1..] == Take(old(history), MaxHistoryItems - 1)
    {
      history := [Entry(id, result)] + history;
      history := Take(history, MaxHistoryItems);
      stored := history;
    }

    /** `showResult`: records the current result, decides the presentation and
        archives every result whose prediction is not -1. */
    method ShowResult(prediction: int, confidence: Option<real>, text: string, timestamp: int, id: string)
      returns (p: Presentation)
      requires Valid()
      modifies this`history, this`stored, this`currentResult
      ensures Valid()
      ensures p == Present(variant, prediction, confidence, text)
      ensures currentResult == Some(Result(prediction, confidence, text, timestamp))
      ensures history == if prediction != -1 then Record(old(history), Entry(id, currentResult.value)) else old(history)
    {
      currentResult := Some(Result(prediction, confidence, text, timestamp));
      p := Present(variant, prediction, confidence, text);
      if prediction != -1 {
        AddToHistory(currentResult.value, id);
      }
    }

    /** `handleFormSubmit`: the guard, then `showResult` with what the verdict
        source returned (or `-1, null` when it threw). */
    method Submit(raw: string, outcome: Outcome, timestamp: int, id: string) returns (o: SubmitOutcome)
      requires Valid()
      modifies this`history, this`stored, this`currentResult
      ensures Valid()
      ensures CheckSubmission(raw).Rejected? ==>
        var reason := CheckSubmission(raw).reason;
        o == Blocked(reason, RejectionMessage(reason))
        && history == old(history) && currentResult == old(currentResult)
      ensures CheckSubmission(raw).Accepted? ==>
        var text, v := CheckSubmission(raw).text, ShownVerdict(outcome);
        && o == Shown(Present(variant, v.0, v.1, text))
        && currentResult == Some(Result(v.0, v.1, text, timestamp))
        && history == if v.0 != -1 then Record(old(history), Entry(id, currentResult.value)) else old(history)
    {
      var gate := CheckSubmission(raw);
      if gate.Rejected? {
        return Blocked(gate.reason, RejectionMessage(gate.reason));
      }
      var v := ShownVerdict(outcome);
      var p := ShowResult(v.0, v.1, gate.text, timestamp, id);
      o := Shown(p);
    }

    /** `toggleHistory`. */
    method ToggleHistory() returns (announcement: Option<string>)
      modifies this`historyExpanded
      ensures historyExpanded == !old(historyExpanded)
      ensures announcement == ToggleAnnouncement(variant, historyExpanded, |history|)
    {
      historyExpanded := !historyExpanded;
      announcement := ToggleAnnouncement(variant, historyExpanded, |history|);
    }

    /** `handleGlobalKeys`: at most one action per key press; only the two
        history actions change the state, each by one toggle. */
    method HandleGlobalKeys(e: KeyEvent) returns (a: KeyAction, announcement: Option<string>)
      modifies this`historyExpanded
      ensures a == if variant == StaticScript then StaticKeyAction(e, old(historyExpanded))
                   else PublicKeyAction(e, old(historyExpanded))
      ensures historyExpanded ==
        if a == ToggleHistoryPanel || a == CollapseHistoryPanel then !old(historyExpanded) else old(historyExpanded)
      ensures announcement ==
        if a == ToggleHistoryPanel || a == CollapseHistoryPanel then ToggleAnnouncement(variant, historyExpanded, |history|)
        else None
    {
      if variant == StaticScript {
        if e.altKey && !e.shiftKey && !e.ctrlKey && KeyIs(e.key, 's', 'S') {
          return FocusInput, None;
        }
        if e.altKey && KeyIs(e.key, 'h', 'H') {
          announcement := ToggleHistory();
          return ToggleHistoryPanel, announcement;
        }
        if e.altKey && e.key == "Enter" {
          return RequestSubmit, None;
        }
      }
      if e.key == "Escape" && historyExpanded {
        announcement := ToggleHistory();
        return CollapseHistoryPanel, announcement;
      }
      return Ignored, None;
    }

    /** `copyResult`: nothing without a current result, else its copy text. */
    method CopyResult() returns (t: Option<string>)
      ensures currentResult.None? ==> t.None?
      ensures currentResult.Some? ==> t == Some(CopyText(currentResult.value))
    {
      if currentResult.None? {
        return None;
      }
      t := Some(CopyText(currentResult.value));
    }

    /** `shareResult`: nothing without a current result, else its share text. */
    method ShareResult() returns (t: Option<string>)
      ensures currentResult.None? ==> t.None?
      ensures currentResult.Some? ==> t == Some(ShareTextOf(currentResult.value))
    {
      if currentResult.None? {
        return None;
      }
      t := Some(ShareTextOf(currentResult.value));
    }
  }
}
