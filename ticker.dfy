/** Ticker symbol normalisation and format validation. */
module Ticker {
  import opened Errors
  import opened PyText

  predicate IsTickerLetter(c: char) {
    'A' <= c <= 'Z'
  }

  predicate AllTickerLetters(s: string) {
    forall k :: 0 <= k < |s| ==> IsTickerLetter(s[k])
  }

  /**
   * The pattern `[A-Z]{1,5}(\.[A-Z]{1,2})?` matching all of `s`: a base of
   * 1 to 5 letters, then optionally a dot and 1 or 2 letters.
   */
  predicate TickerGrammar(s: string) {
    exists n | 1 <= n <= 5 && n <= |s| ::
      && AllTickerLetters(s[..n])
      && (n == |s| || (s[n] == '.' && 2 <= |s| - n <= 3 && AllTickerLetters(s[n + 1..])))
  }

  /**
   * `TICKER_REGEX.match(s)` for `^[A-Z]{1,5}(\.[A-Z]{1,2})?$`. Python's `$`
   * also matches just before a final newline.
   */
  predicate MatchesTickerRegex(s: string) {
    || TickerGrammar(s)
    || (s != [] && s[|s| - 1] == '\n' && TickerGrammar(s[..|s| - 1]))
  }

  const NoneMessage := "Ticker symbol cannot be None."
  const EmptyMessage := "Ticker symbol cannot be empty."

  function FormatMessage(raw: string): string {
    "Invalid ticker symbol format: '" + raw + "'"
  }

  /**
   * `normalise_and_validate_ticker`: `None` for the Python `None` input.
   * Succeeds exactly when the stripped, upper-cased input is in the ticker
   * grammar, and then returns that stripped, upper-cased string.
   */
  function NormaliseAndValidate(raw: Option<string>): (r: Result<string>)
    ensures raw.None? ==> r == Err(InvalidTicker(NoneMessage))
    ensures raw.Some? && Strip(raw.value) == [] ==> r == Err(InvalidTicker(EmptyMessage))
    ensures raw.Some? && Strip(raw.value) != [] && r.Err? ==> r == Err(InvalidTicker(FormatMessage(raw.value)))
    ensures r.Ok? <==> raw.Some? && TickerGrammar(Upper(Strip(raw.value)))
    ensures r.Ok? ==> r.value == Upper(Strip(raw.value))
    ensures r.Err? ==> r.error.InvalidTicker?
  {
    if raw.None? then Err(InvalidTicker(NoneMessage))
    else
      var symbol := Upper(Strip(raw.value));
      UpperKeepsEnds(Strip(raw.value));
      if symbol == [] then Err(InvalidTicker(EmptyMessage))
      else if !MatchesTickerRegex(symbol) then Err(InvalidTicker(FormatMessage(raw.value)))
      else Ok(symbol)
  }

  /** Splits a string in the grammar at its dot, or at its end when it has none. */
  lemma GrammarSplit(s: string) returns (n: nat)
    requires TickerGrammar(s)
    ensures 1 <= n <= 5 && n <= |s|
    ensures forall k :: 0 <= k < |s| && k != n ==> IsTickerLetter(s[k])
    ensures n < |s| ==> s[n] == '.' && 2 <= |s| - n <= 3
  {
    n :| 1 <= n <= 5 && n <= |s| && AllTickerLetters(s[..n])
      && (n == |s| || (s[n] == '.' && 2 <= |s| - n <= 3 && AllTickerLetters(s[n + 1..])));
    forall k | 0 <= k < |s| && k != n ensures IsTickerLetter(s[k]) {
      if k < n {
        assert s[k] == s[..n][k];
      } else {
        assert s[k] == s[n + 1..][k - n - 1];
      }
    }
  }

  /**
   * A successful result is 1 to 8 characters of A-Z and at most one dot,
   * the dot neither first nor last; so it has no whitespace and no
   * lower-case letter.
   */
  lemma NormalisedShape(raw: Option<string>)
    requires NormaliseAndValidate(raw).Ok?
    ensures var v := NormaliseAndValidate(raw).value;
      && 1 <= |v| <= 8
      && v[0] != '.' && v[|v| - 1] != '.'
      && (forall i, j :: 0 <= i < j < |v| && v[i] == '.' ==> v[j] != '.')
      && (forall k :: 0 <= k < |v| ==> IsTickerLetter(v[k]) || v[k] == '.')
      && (forall k :: 0 <= k < |v| ==> !IsSpace(v[k]) && !('a' <= v[k] <= 'z'))
  {
    var v := NormaliseAndValidate(raw).value;
    assert TickerGrammar(v);
    GrammarShape(v);
    TickerCharactersPlain(v);
  }

  /** Letters A-Z and the dot are neither whitespace nor lower case. */
  lemma TickerCharactersPlain(s: string)
    requires forall k :: 0 <= k < |s| ==> IsTickerLetter(s[k]) || s[k] == '.'
    ensures forall k :: 0 <= k < |s| ==> !IsSpace(s[k]) && !('a' <= s[k] <= 'z')
  {
  }

  /** A string in the grammar has 1 to 8 characters, all letters but at most one dot, never at an end. */
  lemma GrammarShape(s: string)
    requires TickerGrammar(s)
    ensures 1 <= |s| <= 8
    ensures s[0] != '.' && s[|s| - 1] != '.'
    ensures forall i, j :: 0 <= i < j < |s| && s[i] == '.' ==> s[j] != '.'
    ensures forall k :: 0 <= k < |s| ==> IsTickerLetter(s[k]) || s[k] == '.'
  {
    var n := GrammarSplit(s);
    assert IsTickerLetter(s[0]);
    assert IsTickerLetter(s[|s| - 1]);
  }

  /**
   * The regex match is the grammar, except that `$` also lets a single
   * final newline through; a string ending in anything but whitespace is
   * matched exactly when it is in the grammar.
   */
  lemma RegexEndAnchor(s: string)
    ensures TickerGrammar(s) ==> MatchesTickerRegex(s)
    ensures MatchesTickerRegex(s + "\n") <==> TickerGrammar(s)
    ensures s != [] && !IsSpace(s[|s| - 1]) ==> (MatchesTickerRegex(s) <==> TickerGrammar(s))
  {
    var t := s + "\n";
    assert t[..|t| - 1] == s;
    if TickerGrammar(t) {
      GrammarShape(t);
    }
  }

  /** Feeding a successful result back in returns it unchanged. */
  lemma NormaliseIdempotent(raw: Option<string>)
    requires NormaliseAndValidate(raw).Ok?
    ensures NormaliseAndValidate(Some(NormaliseAndValidate(raw).value)) == NormaliseAndValidate(raw)
  {
    var v := NormaliseAndValidate(raw).value;
    NormalisedShape(raw);
    StripFixed(v);
    forall k | 0 <= k < |v| ensures UpperFixed(v[k]) {
      assert IsTickerLetter(v[k]) || v[k] == '.';
    }
    UpperOfFixed(v);
  }

  /** `None` and blank input fail with a message containing "cannot be". */
  lemma MissingOrBlankRejected(raw: Option<string>)
    requires raw.None? || Strip(raw.value) == []
    ensures var r := NormaliseAndValidate(raw);
      r.Err? && r.error.InvalidTicker? && Contains(r.error.message, "cannot be")
  {
    assert OccursAt(NoneMessage, "cannot be", 14);
    assert OccursAt(EmptyMessage, "cannot be", 14);
  }

  /** A string in the grammar with no dot is the bare base of at most 5 letters. */
  lemma GrammarWithoutDot(s: string)
    requires TickerGrammar(s)
    ensures (forall k :: 0 <= k < |s| ==> s[k] != '.') ==> |s| <= 5
  {
    var n := GrammarSplit(s);
  }

  /** A string that is its own strip and upper case normalises to itself or fails on format. */
  lemma NormaliseCanonical(raw: string)
    requires raw != [] && !IsSpace(raw[0]) && !IsSpace(raw[|raw| - 1])
    requires forall k :: 0 <= k < |raw| ==> UpperFixed(raw[k])
    ensures NormaliseAndValidate(Some(raw)) == if TickerGrammar(raw) then Ok(raw) else Err(InvalidTicker(FormatMessage(raw)))
  {
    StripFixed(raw);
    UpperOfFixed(raw);
  }

  lemma MsftPadded()
    ensures Strip(" " + "msft" + " ") == "msft"
  {
    StripPadded(" ", "msft", " ");
  }

  lemma MsftUpper()
    ensures Upper("msft") == "MSFT"
  {
  }

  lemma MsftInGrammar()
    ensures TickerGrammar("MSFT")
  {
    assert AllTickerLetters("MSFT"[..4]);
  }

  /** " msft " from the ticker unit tests normalises to "MSFT". */
  lemma MsftAccepted()
    ensures NormaliseAndValidate(Some(" " + "msft" + " ")) == Ok("MSFT")
  {
    MsftPadded();
    MsftUpper();
    MsftInGrammar();
  }

  lemma AaplPadded()
    ensures Strip(" " + "aapl" + " ") == "aapl"
  {
    StripPadded(" ", "aapl", " ");
  }

  lemma AaplInGrammar()
    ensures TickerGrammar("AAPL")
  {
    assert AllTickerLetters("AAPL"[..4]);
  }

  /** "AAPL" is already normal. */
  lemma AaplCanonical()
    ensures NormaliseAndValidate(Some("AAPL")) == Ok("AAPL")
  {
    AaplInGrammar();
    NormaliseCanonical("AAPL");
  }

  /** " aapl " normalises to "AAPL". */
  lemma AaplAccepted()
    ensures NormaliseAndValidate(Some(" " + "aapl" + " ")) == Ok("AAPL")
  {
    AaplPadded();
    AaplUpper();
    AaplInGrammar();
  }

  lemma BrkPadded()
    ensures Strip(" " + "BRK.A" + "") == "BRK.A"
  {
    StripPadded(" ", "BRK.A", "");
  }

  lemma BrkUpper()
    ensures Upper("BRK.A") == "BRK.A"
  {
    UpperOfFixed("BRK.A");
  }

  lemma BrkInGrammar()
    ensures TickerGrammar("BRK.A")
  {
    assert AllTickerLetters("BRK.A"[..3]) && AllTickerLetters("BRK.A"[4..]);
  }

  /** " BRK.A" from the ticker unit tests normalises to "BRK.A". */
  lemma BrkAccepted()
    ensures NormaliseAndValidate(Some(" " + "BRK.A" + "")) == Ok("BRK.A")
  {
    BrkPadded();
    BrkUpper();
    BrkInGrammar();
  }

  /**
   * An input whose stripped, upper-cased form holds a character outside
   * A-Z and the dot is rejected.
   */
  lemma RejectsBadCharacter(raw: string, k: nat)
    requires k < |Upper(Strip(raw))|
    requires !IsTickerLetter(Upper(Strip(raw))[k]) && Upper(Strip(raw))[k] != '.'
    ensures NormaliseAndValidate(Some(raw)).Err?
  {
    var u := Upper(Strip(raw));
    if TickerGrammar(u) {
      GrammarShape(u);
    }
  }

  /** A string with non-space ends and only characters `upper()` keeps is its own normal form before matching. */
  lemma CanonicalForm(raw: string)
    requires raw != [] && !IsSpace(raw[0]) && !IsSpace(raw[|raw| - 1])
    requires forall k :: 0 <= k < |raw| ==> UpperFixed(raw[k])
    ensures Upper(Strip(raw)) == raw
  {
    StripFixed(raw);
    UpperOfFixed(raw);
  }

  /** "AAPL!" from the ticker unit tests is rejected. */
  lemma PunctuationRejected()
    ensures NormaliseAndValidate(Some("AAPL!")).Err?
  {
    CanonicalForm("AAPL!");
    RejectsBadCharacter("AAPL!", 4);
  }

  /** "AAP L" from the ticker unit tests is rejected. */
  lemma InnerSpaceRejected()
    ensures NormaliseAndValidate(Some("AAP L")).Err?
  {
    CanonicalForm("AAP L");
    RejectsBadCharacter("AAP L", 3);
  }

  /**
   * An input whose stripped, upper-cased form is longer than five characters
   * and has no dot is rejected with the format message.
   */
  lemma LongWordRejected(raw: string)
    requires |Upper(Strip(raw))| > 5
    requires forall k :: 0 <= k < |Upper(Strip(raw))| ==> Upper(Strip(raw))[k] != '.'
    ensures NormaliseAndValidate(Some(raw)) == Err(InvalidTicker(FormatMessage(raw)))
  {
    var u := Upper(Strip(raw));
    if TickerGrammar(u) {
      GrammarWithoutDot(u);
    }
  }

  /** A word of more than five characters with no dot that strip and `upper()` leave alone is rejected. */
  lemma CanonicalLongWordRejected(raw: string)
    requires |raw| > 5 && !IsSpace(raw[0]) && !IsSpace(raw[|raw| - 1])
    requires forall k :: 0 <= k < |raw| ==> UpperFixed(raw[k]) && raw[k] != '.'
    ensures NormaliseAndValidate(Some(raw)) == Err(InvalidTicker(FormatMessage(raw)))
  {
    CanonicalForm(raw);
    LongWordRejected(raw);
  }

  /** "AAAAAA" from the ticker unit tests is rejected. */
  lemma SixLettersRejected()
    ensures NormaliseAndValidate(Some("AAAAAA")).Err?
  {
    CanonicalLongWordRejected("AAAAAA");
  }

  /** "A.B.C" from the ticker unit tests is rejected. */
  lemma TwoDotsRejected()
    ensures NormaliseAndValidate(Some("A.B.C")).Err?
  {
    NormaliseCanonical("A.B.C");
    assert !TickerGrammar("A.B.C") by {
      if TickerGrammar("A.B.C") {
        GrammarShape("A.B.C");
      }
    }
  }

  /** "$$$", the malformed input of the service tests, is rejected. */
  lemma DollarsRejected()
    ensures NormaliseAndValidate(Some("$$$")).Err?
  {
    CanonicalForm("$$$");
    RejectsBadCharacter("$$$", 0);
  }
}
