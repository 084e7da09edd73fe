/**
 * Properties of the yal scanner, stated over ScanLoop and ScanAll (the
 * specification that the Scan method is proved to compute).
 */
module ScannerProperties {
  import opened Results
  import opened Scanner

  /** The text of a token sequence: every token's source, in order. */
  function Sources(ts: seq<Token>): string {
    if ts == [] then [] else Sources(ts[..|ts| - 1]) + ts[|ts| - 1].source
  }

  /** The input with every ' ' removed; no other character is dropped. */
  function WithoutSpaces(s: string): string {
    if s == [] then [] else (if s[0] == ' ' then [] else [s[0]]) + WithoutSpaces(s[1..])
  }

  lemma {:induction false} WithoutSpacesAppend(a: string, b: string)
    ensures WithoutSpaces(a + b) == WithoutSpaces(a) + WithoutSpaces(b)
  {
    if a != [] {
      assert (a + b)[1..] == a[1..] + b;
      WithoutSpacesAppend(a[1..], b);
    } else {
      assert a + b == b;
    }
  }

  lemma {:induction false} WithoutSpacesOfSpaces(a: string)
    requires AllIn(a, Space)
    ensures WithoutSpaces(a) == []
  {
    if a != [] {
      WithoutSpacesOfSpaces(a[1..]);
    }
  }

  lemma {:induction false} WithoutSpacesOfTokenText(a: string)
    requires AllTokenChars(a)
    ensures WithoutSpaces(a) == a
  {
    if a != [] {
      WithoutSpacesOfTokenText(a[1..]);
      assert [a[0]] + a[1..] == a;
    }
  }

  /** Removing the spaces from a suffix that starts with skipped spaces. */
  lemma TextAfterSpaces(s: string, pos: nat, n: nat)
    requires pos + n <= |s| && AllIn(s[pos..pos + n], Space)
    ensures WithoutSpaces(s[pos..]) == WithoutSpaces(s[pos + n..])
  {
    assert s[pos..] == s[pos..pos + n] + s[pos + n..];
    WithoutSpacesAppend(s[pos..pos + n], s[pos + n..]);
    WithoutSpacesOfSpaces(s[pos..pos + n]);
  }

  lemma SourcesPush(acc: seq<Token>, t: Token)
    ensures Sources(acc + [t]) == Sources(acc) + t.source
  {
    assert (acc + [t])[..|acc + [t]| - 1] == acc;
  }

  /** An emitted token moves its source from the remaining text to the
      token sequence. */
  lemma TextAfterToken(s: string, pos: nat, acc: seq<Token>, t: Token)
    requires pos + |t.source| <= |s| && t.source == s[pos..pos + |t.source|] && AllTokenChars(t.source)
    ensures Sources(acc) + WithoutSpaces(s[pos..])
         == Sources(acc + [t]) + WithoutSpaces(s[pos + |t.source|..])
  {
    var src := t.source;
    assert s[pos..] == src + s[pos + |src|..];
    WithoutSpacesAppend(src, s[pos + |src|..]);
    WithoutSpacesOfTokenText(src);
    SourcesPush(acc, t);
    assert Sources(acc) + (src + WithoutSpaces(s[pos + |src|..]))
        == (Sources(acc) + src) + WithoutSpaces(s[pos + |src|..]);
  }

  /** The text invariant across one skipped run of spaces. */
  lemma TextAfterSkip(s: string, pos: nat)
    requires pos < |s| && GetSpaces(s, pos).Some?
    ensures WithoutSpaces(s[pos..]) == WithoutSpaces(s[pos + |GetSpaces(s, pos).value|..])
  {
    GetSpacesMeaning(s, pos);
    TextAfterSpaces(s, pos, |GetSpaces(s, pos).value|);
  }

  /** The text invariant across one emitted token. */
  lemma TextAfterEmit(s: string, pos: nat, acc: seq<Token>, t: Token)
    requires pos < |s| && GetToken(s, pos) == Some(t)
    ensures Sources(acc) + WithoutSpaces(s[pos..]) == Sources(acc + [t]) + WithoutSpaces(s[pos + |t.source|..])
  {
    GetTokenText(s, pos);
    GetTokenChars(s, pos);
    TextAfterToken(s, pos, acc, t);
  }

  /** On success the tokens' sources, concatenated, are exactly the scanned
      text with its ' ' characters removed: nothing else is skipped, and
      nothing is invented. */
  lemma {:induction false} ScanLoopPreservesText(s: string, pos: nat, acc: seq<Token>)
    requires pos <= |s|
    requires ScanLoop(s, pos, acc).Ok?
    ensures Sources(ScanLoop(s, pos, acc).value) == Sources(acc) + WithoutSpaces(s[pos..])
    decreases |s| - pos
  {
    if pos >= |s| {
      assert Sources(acc) + WithoutSpaces(s[pos..]) == Sources(acc) + [];
    } else if GetSpaces(s, pos).Some? {
      ScanLoopSkip(s, pos, acc);
      ScanLoopPreservesText(s, pos + |GetSpaces(s, pos).value|, acc);
      TextAfterSkip(s, pos);
    } else {
      ScanLoopEmit(s, pos, acc);
      var t := GetToken(s, pos).value;
      ScanLoopPreservesText(s, pos + |t.source|, acc + [t]);
      TextAfterEmit(s, pos, acc, t);
    }
  }

  lemma ScanPreservesText(s: string)
    requires ScanAll(s).Ok?
    ensures Sources(ScanAll(s).value) == WithoutSpaces(s)
  {
    ScanLoopPreservesText(s, 0, []);
    assert s[0..] == s;
  }

  /** The shape every scanned token has: a non-empty source made of token
      characters (so the scanning position strictly increases), a kind the
      scanner's enum has, a Number is a digit run, and a word token never
      starts with a digit and is classified by WordKind. */
  predicate WellShaped(t: Token) {
    && 0 < |t.source|
    && AllTokenChars(t.source)
    && !ParserOnly(t.kind)
    && (t.kind == Number ==> AllIn(t.source, Digit))
    && (WordToken(t.kind) ==> !IsDigit(t.source[0]) && t.kind == WordKind(t.source))
  }

  lemma GetTokenWellShaped(s: string, pos: nat)
    requires pos < |s| && GetToken(s, pos).Some?
    ensures WellShaped(GetToken(s, pos).value)
  {
    GetTokenChars(s, pos);
    GetTokenNumber(s, pos);
    GetTokenWord(s, pos);
  }

  lemma PushWellShaped(acc: seq<Token>, t: Token)
    requires forall u <- acc :: WellShaped(u)
    requires WellShaped(t)
    ensures forall u <- acc + [t] :: WellShaped(u)
  {
  }

  /** One step of a scan loop that succeeds appends only well-shaped
      tokens. */
  lemma ScanStepTokenShapes(s: string, pos: nat, acc: seq<Token>) returns (next: nat, rest: seq<Token>)
    requires pos < |s| && ScanLoop(s, pos, acc).Ok?
    requires forall t <- acc :: WellShaped(t)
    ensures pos < next <= |s| && ScanLoop(s, next, rest) == ScanLoop(s, pos, acc)
    ensures forall t <- rest :: WellShaped(t)
  {
    next, rest := |s|, acc;
    var spaces := GetSpaces(s, pos);
    if spaces.Some? {
      ScanLoopSkip(s, pos, acc);
      next := pos + |spaces.value|;
    } else {
      var token := GetToken(s, pos);
      if token.Some? {
        ScanLoopEmit(s, pos, acc);
        GetTokenWellShaped(s, pos);
        PushWellShaped(acc, token.value);
        next, rest := pos + |token.value.source|, acc + [token.value];
      } else {
        ScanLoopStuck(s, pos, acc);
      }
    }
  }

  lemma {:induction false} ScanLoopTokenShapes(s: string, pos: nat, acc: seq<Token>)
    requires pos <= |s|
    requires forall t <- acc :: WellShaped(t)
    requires ScanLoop(s, pos, acc).Ok?
    ensures forall t <- ScanLoop(s, pos, acc).value :: WellShaped(t)
    decreases |s| - pos
  {
    if pos < |s| {
      var next, rest := ScanStepTokenShapes(s, pos, acc);
      ScanLoopTokenShapes(s, next, rest);
    }
  }

  lemma ScanTokenShapes(s: string)
    requires ScanAll(s).Ok?
    ensures forall t <- ScanAll(s).value :: WellShaped(t)
  {
    ScanLoopTokenShapes(s, 0, []);
  }

  /** The parser-only kinds never come out of the scanner. */
  lemma ScanNeverProducesParserOnlyKinds(s: string)
    requires ScanAll(s).Ok?
    ensures forall t <- ScanAll(s).value :: t.kind != String && t.kind != KeyImport && t.kind != KeyFrom
  {
    ScanTokenShapes(s);
  }

  /** A failure names a position at or after the start, holding neither a
      ' ' nor the start of any token. */
  lemma {:induction false} ScanLoopFailure(s: string, pos: nat, acc: seq<Token>)
    requires pos <= |s|
    requires ScanLoop(s, pos, acc).Err?
    ensures ScanLoop(s, pos, acc).error.LexError?
    ensures pos <= ScanLoop(s, pos, acc).error.position < |s|
    ensures var q := ScanLoop(s, pos, acc).error.position; s[q] != ' ' && !StartsToken(s, q)
    decreases |s| - pos
  {
    if pos < |s| {
      if GetSpaces(s, pos).Some? {
        ScanLoopSkip(s, pos, acc);
        ScanLoopFailure(s, pos + |GetSpaces(s, pos).value|, acc);
      } else if GetToken(s, pos).Some? {
        var t := GetToken(s, pos).value;
        ScanLoopEmit(s, pos, acc);
        ScanLoopFailure(s, pos + |t.source|, acc + [t]);
      } else {
        ScanLoopStuck(s, pos, acc);
        GetTokenFound(s, pos);
      }
    }
  }

  lemma ScanFailureIsUnrecognisedChar(s: string)
    requires ScanAll(s).Err?
    ensures ScanAll(s).error.LexError? && ScanAll(s).error.position < |s|
    ensures var q := ScanAll(s).error.position; s[q] != ' ' && !StartsToken(s, q)
  {
    ScanLoopFailure(s, 0, []);
  }

  lemma {:induction false} SourcesAreTokenText(ts: seq<Token>)
    requires forall t <- ts :: WellShaped(t)
    ensures AllTokenChars(Sources(ts))
  {
    if ts != [] {
      var init := ts[..|ts| - 1];
      assert forall t <- init :: t in ts;
      SourcesAreTokenText(init);
      assert WellShaped(ts[|ts| - 1]);
      TokenCharsAppend(Sources(init), ts[|ts| - 1].source);
    }
  }

  lemma TokenCharsAppend(a: string, b: string)
    requires AllTokenChars(a) && AllTokenChars(b)
    ensures AllTokenChars(a + b)
  {
    forall i | 0 <= i < |a + b|
      ensures TokenChar((a + b)[i])
    {
      if i < |a| {
        assert (a + b)[i] == a[i];
      } else {
        assert (a + b)[i] == b[i - |a|];
      }
    }
  }

  lemma {:induction false} WithoutSpacesKeeps(s: string, i: nat)
    requires i < |s| && s[i] != ' '
    ensures s[i] in WithoutSpaces(s)
  {
    if i == 0 {
      assert WithoutSpaces(s) == [s[0]] + WithoutSpaces(s[1..]);
    } else {
      WithoutSpacesKeeps(s[1..], i - 1);
      assert WithoutSpaces(s) == (if s[0] == ' ' then [] else [s[0]]) + WithoutSpaces(s[1..]);
    }
  }

  /** Only ' ' is skipped: any other character that cannot be part of a
      token (a tab, a quote, ...) anywhere in the input makes scanning fail. */
  lemma ScanRejectsForeignCharacter(s: string, i: nat)
    requires i < |s| && s[i] != ' ' && !TokenChar(s[i])
    ensures ScanAll(s).Err?
  {
    if ScanAll(s).Ok? {
      ScanPreservesText(s);
      ScanTokenShapes(s);
      SourcesAreTokenText(ScanAll(s).value);
      WithoutSpacesKeeps(s, i);
      assert false;
    }
  }

  /** Inside a token, `!` and `:` occur only as the first character of `!=`
      and `:=`. */
  lemma TokenOperatorChar(s: string, pos: nat, j: nat)
    requires pos < |s| && GetToken(s, pos).Some?
    requires pos <= j < pos + |GetToken(s, pos).value.source|
    requires s[j] == '!' || s[j] == ':'
    ensures j == pos && j + 1 < |s| && s[j + 1] == '='
  {
    var src := GetToken(s, pos).value.source;
    GetTokenText(s, pos);
    GetMatchMeaning(s, pos, OneOrMore(Digit));
    GetMatchMeaning(s, pos, OneOrMore(Word));
    GetMatchMeaning(s, pos, Pair('!', '='));
    GetMatchMeaning(s, pos, Pair('=', '='));
    GetMatchMeaning(s, pos, Pair(':', '='));
    assert src[j - pos] == s[j];
  }

  /** Inside a token, `=` is the first character of `==` or the second of
      `!=`, `==` or `:=`. */
  lemma TokenEqualsChar(s: string, pos: nat, j: nat)
    requires pos < |s| && GetToken(s, pos).Some?
    requires pos <= j < pos + |GetToken(s, pos).value.source|
    requires s[j] == '='
    ensures (j + 1 < |s| && s[j + 1] == '=') || (0 < j && s[j - 1] in {'!', ':', '='})
  {
    var src := GetToken(s, pos).value.source;
    GetTokenText(s, pos);
    GetMatchMeaning(s, pos, OneOrMore(Digit));
    GetMatchMeaning(s, pos, OneOrMore(Word));
    GetMatchMeaning(s, pos, Pair('!', '='));
    GetMatchMeaning(s, pos, Pair('=', '='));
    GetMatchMeaning(s, pos, Pair(':', '='));
    assert src[j - pos] == s[j];
  }

  /** `!` and `:` are followed by `=`, and `=` is followed by `=` or comes
      after `!`, `:` or `=`: the operator characters occur only inside
      `!=`, `==` and `:=`. */
  predicate OperatorCharPaired(s: string, j: nat)
    requires j < |s|
  {
    && ((s[j] == '!' || s[j] == ':') ==> j + 1 < |s| && s[j + 1] == '=')
    && (s[j] == '=' ==> (j + 1 < |s| && s[j + 1] == '=') || (0 < j && s[j - 1] in {'!', ':', '='}))
  }

  /** Every character of a skipped run is ' '. */
  lemma SpacesAreSpaces(s: string, pos: nat)
    requires pos < |s| && GetSpaces(s, pos).Some?
    ensures forall k | pos <= k < pos + |GetSpaces(s, pos).value| :: s[k] == ' '
  {
    var sp := GetSpaces(s, pos).value;
    GetSpacesMeaning(s, pos);
    assert forall k | pos <= k < pos + |sp| :: s[k] == sp[k - pos];
  }

  /** One turn of the scan loop, from a position it reaches: where it
      resumes, and every operator character it passed over is paired. */
  lemma ScanStepOperatorChars(s: string, pos: nat, acc: seq<Token>) returns (next: nat, rest: seq<Token>)
    requires pos < |s| && ScanLoop(s, pos, acc).Ok?
    ensures pos < next <= |s| && ScanLoop(s, next, rest) == ScanLoop(s, pos, acc)
    ensures forall j | pos <= j < next :: OperatorCharPaired(s, j)
  {
    next, rest := |s|, acc;
    var spaces := GetSpaces(s, pos);
    if spaces.Some? {
      SpacesAreSpaces(s, pos);
      ScanLoopSkip(s, pos, acc);
      next, rest := pos + |spaces.value|, acc;
    } else {
      var token := GetToken(s, pos);
      if token.Some? {
        forall j | pos <= j < pos + |token.value.source|
          ensures OperatorCharPaired(s, j)
        {
          if s[j] == '!' || s[j] == ':' {
            TokenOperatorChar(s, pos, j);
          } else if s[j] == '=' {
            TokenEqualsChar(s, pos, j);
          }
        }
        ScanLoopEmit(s, pos, acc);
        next, rest := pos + |token.value.source|, acc + [token.value];
      } else {
        ScanLoopStuck(s, pos, acc);
      }
    }
  }

  lemma {:induction false} ScanLoopOperatorChars(s: string, pos: nat, acc: seq<Token>, j: nat)
    requires pos <= j < |s|
    requires ScanLoop(s, pos, acc).Ok?
    ensures OperatorCharPaired(s, j)
    decreases |s| - pos
  {
    var next, rest := ScanStepOperatorChars(s, pos, acc);
    if next <= j {
      ScanLoopOperatorChars(s, next, rest, j);
    }
  }

  /** `!` and `:` are not tokens on their own: in an input that scans, each
      one is immediately followed by `=`; a lone one makes scanning fail. */
  lemma ScanPairsOperatorChars(s: string, i: nat)
    requires i < |s| && (s[i] == '!' || s[i] == ':')
    requires ScanAll(s).Ok?
    ensures i + 1 < |s| && s[i + 1] == '='
  {
    ScanLoopOperatorChars(s, 0, [], i);
  }

  /** `=` is not a token on its own either: in an input that scans, an `=`
      not followed by `=` is the second character of `!=`, `==` or `:=`. */
  lemma ScanLoneEquals(s: string, i: nat)
    requires i < |s| && s[i] == '='
    requires i + 1 == |s| || s[i + 1] != '='
    requires ScanAll(s).Ok?
    ensures 0 < i && s[i - 1] in {'!', ':', '='}
  {
    ScanLoopOperatorChars(s, 0, [], i);
  }

  /** A digit run followed by letters is a Number and then an Identifier. */
  lemma ExampleNumberToken()
    ensures GetToken("12ab", 0) == Some(Token(Number, "12", 0, 0))
  {
    var s := "12ab";
    assert RunLength(s, 2, Digit) == 0;
    assert RunLength(s, 0, Digit) == 2;
    assert s[0..2] == "12" by {
      assert s[0..2] == [s[0], s[1]];
    }
  }

  lemma ExampleWordToken()
    ensures GetToken("12ab", 2) == Some(Token(Identifier, "ab", 0, 2))
  {
    var s := "12ab";
    assert RunLength(s, 4, Word) == 0;
    assert RunLength(s, 2, Word) == 2;
    assert s[2..4] == "ab" by {
      assert s[2..4] == [s[2], s[3]];
    }
    assert LineCol(s, 2) == (0, 2) by {
      assert LineCol(s, 1) == (0, 1);
    }
  }

  lemma ScanNumberThenIdentifier()
    ensures ScanAll("12ab") == Ok([Token(Number, "12", 0, 0), Token(Identifier, "ab", 0, 2)])
  {
    var s := "12ab";
    var t1, t2 := Token(Number, "12", 0, 0), Token(Identifier, "ab", 0, 2);
    ExampleNumberToken();
    ExampleWordToken();
    assert GetSpaces(s, 0).None? && GetSpaces(s, 2).None?;
    calc {
      ScanAll(s);
      ScanLoop(s, 0, []);
      { ScanLoopEmit(s, 0, []); assert [] + [t1] == [t1]; }
      ScanLoop(s, 2, [t1]);
      { ScanLoopEmit(s, 2, [t1]); assert [t1] + [t2] == [t1, t2]; }
      ScanLoop(s, 4, [t1, t2]);
      Ok([t1, t2]);
    }
  }
}
