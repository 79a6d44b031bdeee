/** The text commands `App.processChatCommand` of js/app.js recognises: the input is trimmed
    and lower-cased, then matched against `/^(?:oleadas)\s*[:\s]+(\d+)$/i`,
    `/^(?:preguntas)\s*[:\s]+(\d+)$/i` and the words `iniciar` / `start`. */
module ChatCommands {
  import opened Wrappers
  import opened JsText

  /** A character of `[:\s]`. */
  predicate IsSeparator(c: char) {
    c == ':' || IsSpace(c)
  }

  predicate AllSeparators(s: string) {
    forall i :: 0 <= i < |s| ==> IsSeparator(s[i])
  }

  /** The length of the longest prefix of `s` made of separators. */
  function SeparatorRun(s: string): (n: nat)
    ensures n <= |s| && AllSeparators(s[..n])
    ensures n < |s| ==> !IsSeparator(s[n])
  {
    if s != [] && IsSeparator(s[0]) then 1 + SeparatorRun(s[1..]) else 0
  }

  /** The number a configuration pattern with this keyword captures in `t`, or `None` when
      `t` does not match. `\s*[:\s]+` is a non-empty run of separators, and since no
      separator is a digit the run is exactly the longest separator prefix. */
  function ConfigValue(t: string, keyword: string): (r: Option<nat>)
    ensures r.Some? ==> |keyword| <= |t| && t[..|keyword|] == keyword
  {
    if |keyword| <= |t| && t[..|keyword|] == keyword then
      var rest := t[|keyword|..];
      var n := SeparatorRun(rest);
      if 1 <= n < |rest| && AllDigits(rest[n..]) then Some(DecimalValue(rest[n..])) else None
    else None
  }

  /** What the regular expression means: keyword, then separators, then digits, then the end. */
  ghost predicate MatchesPattern(t: string, keyword: string, sep: string, digits: string) {
    t == keyword + sep + digits && |sep| >= 1 && AllSeparators(sep) && |digits| >= 1 && AllDigits(digits)
  }

  lemma {:induction false} SeparatorRunStopsAtDigits(sep: string, digits: string)
    requires AllSeparators(sep) && |digits| >= 1 && AllDigits(digits)
    ensures SeparatorRun(sep + digits) == |sep|
  {
    if sep == [] {
      assert (sep + digits)[0] == digits[0];
    } else {
      assert (sep + digits)[1..] == sep[1..] + digits;
      SeparatorRunStopsAtDigits(sep[1..], digits);
    }
  }

  /** `ConfigValue` agrees with the pattern in both directions: it yields a number exactly
      when the text matches, and the number is the decimal value of the captured digits. */
  lemma ConfigValueMatchesPattern(t: string, keyword: string)
    ensures ConfigValue(t, keyword).Some? <==> exists sep, digits :: MatchesPattern(t, keyword, sep, digits)
    ensures forall sep, digits :: MatchesPattern(t, keyword, sep, digits) ==>
              ConfigValue(t, keyword) == Some(DecimalValue(digits))
  {
    if ConfigValue(t, keyword).Some? {
      var rest := t[|keyword|..];
      var n := SeparatorRun(rest);
      assert t == keyword + rest[..n] + rest[n..];
      assert MatchesPattern(t, keyword, rest[..n], rest[n..]);
    }
    forall sep, digits | MatchesPattern(t, keyword, sep, digits)
      ensures ConfigValue(t, keyword) == Some(DecimalValue(digits))
    {
      assert t[..|keyword|] == keyword;
      var rest := t[|keyword|..];
      assert rest == sep + digits;
      SeparatorRunStopsAtDigits(sep, digits);
      assert rest[|sep|..] == digits;
    }
  }

  /** A command after `text.trim().toLowerCase()`. */
  datatype Command =
    | Waves(n: nat)       // "oleadas: n"
    | Questions(n: nat)   // "preguntas: n"
    | Start               // "iniciar" or "start"
    | Unrecognized

  /** Which command a non-empty text is, in the order the source tests them. */
  function ParseCommand(text: string): (c: Command)
    ensures var t := TrimLower(text);
            (c.Waves? <==> ConfigValue(t, "oleadas").Some?) &&
            (c.Waves? ==> ConfigValue(t, "oleadas") == Some(c.n))
    ensures c.Questions? ==> ConfigValue(TrimLower(text), "preguntas") == Some(c.n)
    ensures var t := TrimLower(text); c.Start? <==> t == "iniciar" || t == "start"
  {
    var t := TrimLower(text);
    assert t == "iniciar" ==> t[..7] != "oleadas" by {
      assert "iniciar"[0] != "oleadas"[0];
    }
    match ConfigValue(t, "oleadas")
    case Some(n) => Waves(n)
    case None =>
      match ConfigValue(t, "preguntas")
      case Some(n) => Questions(n)
      case None => if t == "iniciar" || t == "start" then Start else Unrecognized
  }

  /** No text is both a waves and a questions command, so the order of the two tests does not matter. */
  lemma ConfigKeywordsExclusive(t: string)
    ensures !(ConfigValue(t, "oleadas").Some? && ConfigValue(t, "preguntas").Some?)
  {
    if ConfigValue(t, "oleadas").Some? {
      assert t[0] == t[..7][0] == 'o';
    }
  }
}
