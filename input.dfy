/** The two checks on the text box: the guard at the top of
    `handleFormSubmit` and the live counter `updateCharCount`. */
module Input {
  import opened Basics
  import opened Text
  import opened Messages

  datatype Rejection = Blank | OverLength

  /** What the submit guard decides: not analysed, or analysed on the trimmed text. */
  datatype Gate = Rejected(reason: Rejection) | Accepted(text: string)

  function CheckSubmission(raw: string): (g: Gate)
    ensures g == Rejected(Blank) <==> AllWhitespace(raw)
    ensures g == Rejected(OverLength) <==> !AllWhitespace(raw) && |Trim(raw)| > MaxCharacters
    ensures g.Accepted? ==> g.text == Trim(raw) && 1 <= |g.text| <= MaxCharacters
  {
    var text := Trim(raw);
    if text == "" then Rejected(Blank)
    else if |text| > MaxCharacters then Rejected(OverLength)
    else Accepted(text)
  }

  /** The toast (and, in the static script, the announcement) of a rejected submission. */
  function RejectionMessage(r: Rejection): string {
    match r
    case Blank => EmptyInput
    case OverLength => OverLimit
  }

  /** What `updateCharCount` decides for the untrimmed length `count`. */
  datatype Counter = Counter(caption: string, submitDisabled: bool, warning: Option<string>)

  function CountCharacters(count: nat): (c: Counter)
    ensures c.submitDisabled <==> count > MaxCharacters
    ensures c.warning.Some? <==> c.submitDisabled
    ensures c.warning.Some? ==> c.warning.value == OverLimit
    ensures c.caption == CharacterCount(count)
  {
    if count > MaxCharacters then Counter(CharacterCount(count), true, Some(OverLimit))
    else Counter(CharacterCount(count), false, None)
  }

  /** Whatever the submit guard finds too long, the counter would also mark
      as over the limit, since trimming never lengthens the text. This relates
      lengths only: the counter runs 100 ms after the last keystroke, and
      `setLoading(false)` re-enables the button after every submission, so the
      button need not be disabled at the moment the guard runs. */
  lemma TooLongForGateIsTooLongForCounter(raw: string)
    requires CheckSubmission(raw) == Rejected(OverLength)
    ensures CountCharacters(|raw|).submitDisabled
  {
  }

  /** The converse fails: the counter measures the untrimmed text, so padding
      can disable the button on a text the guard accepts (a submission still
      reachable through Alt+Enter in the static script). */
  lemma CounterStricterThanGate()
    ensures var raw := " " + seq(MaxCharacters, _ => 'a');
      CountCharacters(|raw|).submitDisabled && CheckSubmission(raw).Accepted?
  {
    var body := seq(MaxCharacters, _ => 'a');
    var raw := " " + body;
    assert raw[1..] == body;
    assert TrimStart(raw) == body;
    assert TrimEnd(body) == body;
  }
}
