/** The `CONFIG` limits and the `STRINGS` table that both scripts define
    identically, with the three template helpers `CHARACTER_COUNT`,
    `ANALYSIS_COMPLETED` and `SHARE_TEXT`. */
module Messages {
  import opened Basics
  import opened Text

  const MaxCharacters: nat := 1000
  /** How much of the analysed text the summary and share lines quote. */
  const ExcerptLength: nat := 100

  const EmptyInput := "Please enter some text to analyze."
  const AnalysisError := "Error analyzing text. Please try again."
  const ResultTrue := "This text is likely TRUE"
  const ResultFalse := "This text is likely FAKE"
  const HistoryResultTrue := "TRUE"
  const HistoryResultFalse := "FAKE"
  /** The toast both the counter and the submit handler show: `Text exceeds ${MAX_CHARACTERS} character limit.` */
  const OverLimit := "Text exceeds " + NatToString(MaxCharacters) + " character limit."

  /** `CHARACTER_COUNT(count)`: the count, then "character", plural unless the count is one. */
  function CharacterCount(count: nat): (r: string)
    ensures DigitsValue(LeadingDigits(r)) == count
    ensures r[|LeadingDigits(r)|..] == if count == 1 then " character" else " characters"
    ensures EndsWith(r, "characters") <==> count != 1
    ensures EndsWith(r, " character") <==> count == 1
  {
    var digits := NatToString(count);
    var noun := if count != 1 then " characters" else " character";
    assert digits + " character" + (if count != 1 then "s" else "") == digits + noun;
    LeadingDigitsOfConcat(digits, noun);
    NatToStringRoundTrip(count);
    digits + noun
  }

  const AnalysisPrefix := "Analysis completed for: \""

  /** The text between a known prefix and the closing character of `s`. */
  function Quoted(prefix: string, s: string): string
    requires |prefix| < |s|
  {
    s[|prefix|..|s| - 1]
  }

  /** `ANALYSIS_COMPLETED(text)`: quotes the first hundred characters and marks
      with "..." only a text that was actually cut. */
  function AnalysisCompleted(text: string): (r: string)
    ensures StartsWith(r, AnalysisPrefix) && EndsWith(r, "\"")
    ensures |AnalysisPrefix| < |r| <= |AnalysisPrefix| + ExcerptLength + 4
    ensures Quoted(AnalysisPrefix, r) ==
      if |text| <= ExcerptLength then text else text[..ExcerptLength] + "..."
  {
    var excerpt := Take(text, ExcerptLength) + (if |text| > ExcerptLength then "..." else "");
    var r := AnalysisPrefix + excerpt + "\"";
    assert r[..|AnalysisPrefix|] == AnalysisPrefix;
    assert Quoted(AnalysisPrefix, r) == excerpt;
    r
  }

  /** A text of at most a hundred characters can be read back from its summary line. */
  lemma AnalysisCompletedInjectiveOnShortTexts(a: string, b: string)
    requires |a| <= ExcerptLength && |b| <= ExcerptLength
    requires AnalysisCompleted(a) == AnalysisCompleted(b)
    ensures a == b
  {
  }

  /** Beyond a hundred characters the summary depends on nothing but the first hundred. */
  lemma AnalysisCompletedSeesOnlyExcerpt(a: string, b: string)
    requires |a| > ExcerptLength && |b| > ExcerptLength
    requires a[..ExcerptLength] == b[..ExcerptLength]
    ensures AnalysisCompleted(a) == AnalysisCompleted(b)
  {
  }

  const SharePrefix := "Quick Fact Checker result: "

  /** `SHARE_TEXT(result, text)`: the label, then the first hundred characters
      of the text, followed by "..." whether or not anything was cut. */
  function ShareText(result: string, text: string): (r: string)
    ensures StartsWith(r, SharePrefix + result + " - \"")
    ensures EndsWith(r, "...\"")
    ensures |SharePrefix + result + " - \""| + 4 <= |r|
    ensures r[|SharePrefix + result + " - \""|..|r| - 4] == Take(text, ExcerptLength)
  {
    var head := SharePrefix + result + " - \"";
    var r := head + Take(text, ExcerptLength) + "...\"";
    assert r[..|head|] == head;
    assert r[|head|..|r| - 4] == Take(text, ExcerptLength);
    r
  }
}
