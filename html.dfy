/** `escapeHtml` of the static script: a chain of five `replaceAll` calls
    that neutralises the characters HTML gives a meaning to. */
module Html {
  import opened Basics

  /** `s.replaceAll(pat, rep)` for a one-character pattern: every occurrence,
      left to right. */
  function ReplaceAll(s: string, pat: char, rep: string): (r: string)
    ensures pat !in rep ==> pat !in r
    ensures pat !in s ==> r == s
  {
    if s == [] then [] else (if s[0] == pat then rep else [s[0]]) + ReplaceAll(s[1..], pat, rep)
  }

  lemma {:induction false} ReplaceAllConcat(a: string, b: string, pat: char, rep: string)
    ensures ReplaceAll(a + b, pat, rep) == ReplaceAll(a, pat, rep) + ReplaceAll(b, pat, rep)
  {
    if a == [] {
      assert a + b == b;
    } else {
      assert (a + b)[0] == a[0];
      assert (a + b)[1..] == a[1..] + b;
      ReplaceAllConcat(a[1..], b, pat, rep);
    }
  }

  /** The five passes, in the order the source applies them: `&` first. */
  function EscapeChain(s: string): string {
    var s1 := ReplaceAll(s, '&', "&amp;");
    var s2 := ReplaceAll(s1, '<', "&lt;");
    var s3 := ReplaceAll(s2, '>', "&gt;");
    var s4 := ReplaceAll(s3, '"', "&quot;");
    ReplaceAll(s4, '\'', "&#039;")
  }

  /** The per-character reference: each character has one fixed replacement. */
  function EscapeChar(c: char): string {
    match c
    case '&' => "&amp;"
    case '<' => "&lt;"
    case '>' => "&gt;"
    case '"' => "&quot;"
    case '\'' => "&#039;"
    case _ => [c]
  }

  function EscapeEach(s: string): string {
    if s == [] then [] else EscapeChar(s[0]) + EscapeEach(s[1..])
  }

  lemma EscapeChainConcat(a: string, b: string)
    ensures EscapeChain(a + b) == EscapeChain(a) + EscapeChain(b)
  {
    var a1, b1 := ReplaceAll(a, '&', "&amp;"), ReplaceAll(b, '&', "&amp;");
    ReplaceAllConcat(a, b, '&', "&amp;");
    var a2, b2 := ReplaceAll(a1, '<', "&lt;"), ReplaceAll(b1, '<', "&lt;");
    ReplaceAllConcat(a1, b1, '<', "&lt;");
    var a3, b3 := ReplaceAll(a2, '>', "&gt;"), ReplaceAll(b2, '>', "&gt;");
    ReplaceAllConcat(a2, b2, '>', "&gt;");
    var a4, b4 := ReplaceAll(a3, '"', "&quot;"), ReplaceAll(b3, '"', "&quot;");
    ReplaceAllConcat(a3, b3, '"', "&quot;");
    ReplaceAllConcat(a4, b4, '\'', "&#039;");
  }

  lemma ReplaceAllSingle(c: char, pat: char, rep: string)
    ensures ReplaceAll([c], pat, rep) == if c == pat then rep else [c]
  {
  }

  /** The chain on each special character, one lemma per character so that
      each proof obligation stays small. */
  lemma EscapeChainSingleAmp(c: char)
    requires c == '&'
    ensures EscapeChain([c]) == EscapeChar(c)
  {
  }

  lemma EscapeChainSingleLt(c: char)
    requires c == '<'
    ensures EscapeChain([c]) == EscapeChar(c)
  {
  }

  lemma EscapeChainSingleGt(c: char)
    requires c == '>'
    ensures EscapeChain([c]) == EscapeChar(c)
  {
  }

  lemma EscapeChainSingleQuot(c: char)
    requires c == '"'
    ensures EscapeChain([c]) == EscapeChar(c)
  {
  }

  lemma EscapeChainSingleApos(c: char)
    requires c == '\''
    ensures EscapeChain([c]) == EscapeChar(c)
  {
  }

  lemma EscapeChainSingle(c: char)
    ensures EscapeChain([c]) == EscapeChar(c)
  {
    match c
    case '&' => EscapeChainSingleAmp(c);
    case '<' => EscapeChainSingleLt(c);
    case '>' => EscapeChainSingleGt(c);
    case '"' => EscapeChainSingleQuot(c);
    case '\'' => EscapeChainSingleApos(c);
    case _ =>
      ReplaceAllSingle(c, '&', "&amp;");
      ReplaceAllSingle(c, '<', "&lt;");
      ReplaceAllSingle(c, '>', "&gt;");
      ReplaceAllSingle(c, '"', "&quot;");
      ReplaceAllSingle(c, '\'', "&#039;");
  }

  /** Because `&` is replaced first, no pass rewrites what an earlier one
      produced: the chain is the per-character escape. */
  lemma {:induction false} EscapeChainIsEscapeEach(s: string)
    ensures EscapeChain(s) == EscapeEach(s)
  {
    if s != [] {
      assert s == [s[0]] + s[1..];
      EscapeChainConcat([s[0]], s[1..]);
      EscapeChainSingle(s[0]);
      EscapeChainIsEscapeEach(s[1..]);
    }
  }

  predicate IsSpecial(c: char) {
    c == '<' || c == '>' || c == '"' || c == '\''
  }

  lemma {:induction false} EscapeEachHasNoSpecials(s: string)
    ensures forall i :: 0 <= i < |EscapeEach(s)| ==> !IsSpecial(EscapeEach(s)[i])
  {
    if s != [] {
      EscapeEachHasNoSpecials(s[1..]);
      var head, tail := EscapeChar(s[0]), EscapeEach(s[1..]);
      assert forall i :: 0 <= i < |head| ==> !IsSpecial(head[i]);
      assert forall i :: |head| <= i < |head + tail| ==> (head + tail)[i] == tail[i - |head|];
    }
  }

  /** Decodes the five entities the escape produces, scanning left to right. */
  function Unescape(s: string): string
    decreases |s|
  {
    if s == [] then []
    else if StartsWith(s, "&amp;") then "&" + Unescape(s[5..])
    else if StartsWith(s, "&lt;") then "<" + Unescape(s[4..])
    else if StartsWith(s, "&gt;") then ">" + Unescape(s[4..])
    else if StartsWith(s, "&quot;") then "\"" + Unescape(s[6..])
    else if StartsWith(s, "&#039;") then "'" + Unescape(s[6..])
    else [s[0]] + Unescape(s[1..])
  }

  lemma UnescapeAfterEntity(c: char, t: string)
    ensures Unescape(EscapeChar(c) + t) == [c] + Unescape(t)
  {
    var e := EscapeChar(c);
    var s := e + t;
    assert s[..|e|] == e && s[|e|..] == t;
    assert s[0] == e[0];
    if c == '&' {
      assert StartsWith(s, "&amp;");
    } else if c == '<' {
      assert s[1] == 'l';
      assert !StartsWith(s, "&amp;");
      assert StartsWith(s, "&lt;");
    } else if c == '>' {
      assert s[1] == 'g';
      assert !StartsWith(s, "&amp;") && !StartsWith(s, "&lt;");
      assert StartsWith(s, "&gt;");
    } else if c == '"' {
      assert s[1] == 'q';
      assert !StartsWith(s, "&amp;") && !StartsWith(s, "&lt;") && !StartsWith(s, "&gt;");
      assert StartsWith(s, "&quot;");
    } else if c == '\'' {
      assert s[1] == '#';
      assert !StartsWith(s, "&amp;") && !StartsWith(s, "&lt;") && !StartsWith(s, "&gt;");
      assert !StartsWith(s, "&quot;");
      assert StartsWith(s, "&#039;");
    } else {
      assert e == [c] && s[0] == c && s[1..] == t;
      assert !StartsWith(s, "&amp;") && !StartsWith(s, "&lt;") && !StartsWith(s, "&gt;");
      assert !StartsWith(s, "&quot;") && !StartsWith(s, "&#039;");
    }
  }

  lemma {:induction false} UnescapeEscapeEach(s: string)
    ensures Unescape(EscapeEach(s)) == s
  {
    if s != [] {
      UnescapeAfterEntity(s[0], EscapeEach(s[1..]));
      UnescapeEscapeEach(s[1..]);
    }
  }

  /** `escapeHtml(unsafe)`: `None` stands for `null` or `undefined`; those and
      the empty string give `''`. */
  function EscapeHtml(unsafe: Option<string>): (r: string)
    ensures unsafe == None || unsafe == Some("") ==> r == ""
    ensures forall i :: 0 <= i < |r| ==> !IsSpecial(r[i])
    ensures unsafe.Some? ==> Unescape(r) == unsafe.value
    ensures unsafe.Some? ==> r == EscapeEach(unsafe.value)
  {
    match unsafe
    case None => ""
    case Some(s) =>
      if s == "" then ""
      else
        EscapeChainIsEscapeEach(s);
        EscapeEachHasNoSpecials(s);
        UnescapeEscapeEach(s);
        EscapeChain(s)
  }
}
