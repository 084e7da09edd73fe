/**
 * The yal scanner (src/scanner/index.ts): turns source text into tokens.
 * Runs of ' ' are skipped; at every other position the recognisers are tried
 * in a fixed order: one-character tokens, `!=` and `==`, a digit run, a word
 * run (classified into keywords), and `:=`. Anything else is a lexical error.
 */
module Scanner {
  import opened Results

  /** The token kinds the parser knows. `KeyImport`, `KeyFrom` and `String`
      are tested by the parser but are not in the scanner's own enum, so no
      scanned token ever has them (see ScanNeverProducesParserOnlyKinds). */
  datatype TokenKind =
    | Number | Plus | Minus | Star | Slash | NewLine | Identifier | Declaration
    | OpenParen | CloseParen | Comma | OpenCurly | CloseCurly
    | KeyFunc | KeyReturn | Bool | NotEqual | Equal
    | KeyImport | KeyFrom | String

  datatype Token = Token(kind: TokenKind, source: string, line: nat, col: nat)

  /** Kinds that the scanner's enum lacks. */
  predicate ParserOnly(k: TokenKind) {
    k == KeyImport || k == KeyFrom || k == String
  }

  // ---------------------------------------------------------------------------
  // Character classes of the regular expressions / +/, /\d+/ and /\w+/
  // (JavaScript's \d and \w without the u flag are ASCII only).

  datatype CharClass = Space | Digit | Word

  predicate IsDigit(c: char) { '0' <= c <= '9' }

  predicate IsWordChar(c: char) {
    'a' <= c <= 'z' || 'A' <= c <= 'Z' || IsDigit(c) || c == '_'
  }

  predicate InClass(c: char, cls: CharClass) {
    match cls
    case Space => c == ' '
    case Digit => IsDigit(c)
    case Word => IsWordChar(c)
  }

  /** Every character of `t` is in `cls`. */
  predicate AllIn(t: string, cls: CharClass) {
    forall i :: 0 <= i < |t| ==> InClass(t[i], cls)
  }

  /** Length of the longest run of `cls` characters starting at `pos`. */
  function RunLength(s: string, pos: nat, cls: CharClass): (n: nat)
    requires pos <= |s|
    decreases |s| - pos
    ensures pos + n <= |s|
    ensures n > 0 <==> pos < |s| && InClass(s[pos], cls)
  {
    if pos < |s| && InClass(s[pos], cls) then 1 + RunLength(s, pos + 1, cls) else 0
  }

  /** The run is made of `cls` characters and cannot be extended. */
  lemma {:induction false} RunLengthMaximal(s: string, pos: nat, cls: CharClass)
    requires pos <= |s|
    ensures AllIn(s[pos..pos + RunLength(s, pos, cls)], cls)
    ensures pos + RunLength(s, pos, cls) == |s| || !InClass(s[pos + RunLength(s, pos, cls)], cls)
    decreases |s| - pos
  {
    if pos < |s| && InClass(s[pos], cls) {
      RunLengthMaximal(s, pos + 1, cls);
      var n := RunLength(s, pos, cls);
      assert s[pos..pos + n] == [s[pos]] + s[pos + 1..pos + n];
    }
  }

  /** The regular expressions handed to getMatch, all anchored with ^:
      a fixed two-character text (/^!=/, /^==/, /^:=/) or a run of one class. */
  datatype Pattern = Pair(first: char, second: char) | OneOrMore(cls: CharClass)

  /** The two characters at `pos` are `a` then `b`. */
  predicate PairAt(s: string, pos: nat, a: char, b: char) {
    pos + 1 < |s| && s[pos] == a && s[pos + 1] == b
  }

  /** getMatch: the text the anchored pattern matches at `pos`, if any. */
  function GetMatch(s: string, pos: nat, p: Pattern): (r: Option<string>)
    requires pos <= |s|
    ensures r.Some? ==> 0 < |r.value| && pos + |r.value| <= |s|
  {
    match p
    case Pair(a, b) =>
      if PairAt(s, pos, a, b) then Some(s[pos..pos + 2]) else None
    case OneOrMore(cls) =>
      var n := RunLength(s, pos, cls);
      if n > 0 then Some(s[pos..pos + n]) else None
  }

  /** What a match is: the text at `pos`; for a fixed pair, present exactly
      when the pair is there; for a class run, present exactly when the class
      starts there, and then maximal (quantifiers are greedy). */
  lemma GetMatchMeaning(s: string, pos: nat, p: Pattern)
    requires pos <= |s|
    ensures var r := GetMatch(s, pos, p);
      r.Some? ==> r.value == s[pos..pos + |r.value|]
    ensures var r := GetMatch(s, pos, p);
      p.Pair? ==> (r.Some? <==> PairAt(s, pos, p.first, p.second)) && (r.Some? ==> r.value == [p.first, p.second])
    ensures var r := GetMatch(s, pos, p);
      p.OneOrMore? ==> (r.Some? <==> pos < |s| && InClass(s[pos], p.cls))
    ensures var r := GetMatch(s, pos, p);
      p.OneOrMore? && r.Some? ==>
        AllIn(r.value, p.cls) && (pos + |r.value| == |s| || !InClass(s[pos + |r.value|], p.cls))
  {
    if p.OneOrMore? {
      RunLengthMaximal(s, pos, p.cls);
    }
  }

  /** getSpaces: the maximal run of ' ' at `pos`, if non-empty. */
  function GetSpaces(s: string, pos: nat): (r: Option<string>)
    requires pos <= |s|
    ensures r.Some? <==> pos < |s| && s[pos] == ' '
    ensures r.Some? ==> 0 < |r.value| && pos + |r.value| <= |s|
  {
    GetMatch(s, pos, OneOrMore(Space))
  }

  /** Skipped text is the spaces at `pos`, and all of them. */
  lemma GetSpacesMeaning(s: string, pos: nat)
    requires pos <= |s|
    ensures var r := GetSpaces(s, pos);
      r.Some? ==>
        && r.value == s[pos..pos + |r.value|]
        && AllIn(r.value, Space)
        && (pos + |r.value| == |s| || s[pos + |r.value|] != ' ')
  {
    GetMatchMeaning(s, pos, OneOrMore(Space));
  }

  // ---------------------------------------------------------------------------
  // Line and column of a position (getLineAndColForPosition).

  /** The counters after the source's loop has looked at the first `n`
      characters: a newline bumps the line and resets the column. */
  function LineCol(s: string, n: nat): (lc: (nat, nat))
    requires n <= |s|
  {
    if n == 0 then (0, 0)
    else
      var (line, col) := LineCol(s, n - 1);
      if s[n - 1] == '\n' then (line + 1, 0) else (line, col + 1)
  }

  /** What the counters mean: the line is the number of newlines before `n`,
      the column the number of characters since the last of them (or since
      the start of the input). */
  lemma {:induction false} LineColMeaning(s: string, n: nat)
    requires n <= |s|
    ensures LineCol(s, n).0 == multiset(s[..n])['\n']
    ensures LineCol(s, n).1 <= n
    ensures forall i :: n - LineCol(s, n).1 <= i < n ==> s[i] != '\n'
    ensures LineCol(s, n).1 == n || s[n - LineCol(s, n).1 - 1] == '\n'
  {
    if n > 0 {
      LineColMeaning(s, n - 1);
      assert s[..n] == s[..n - 1] + [s[n - 1]];
    }
  }

  /** The source's counting loop, proved to compute LineCol. */
  method GetLineAndColForPosition(s: string, position: nat) returns (line: nat, col: nat)
    requires position <= |s|
    ensures (line, col) == LineCol(s, position)
    ensures line == multiset(s[..position])['\n']
    ensures col <= position && (col == position || s[position - col - 1] == '\n')
  {
    line, col := 0, 0;
    for i := 0 to position
      invariant (line, col) == LineCol(s, i)
    {
      col := col + 1;
      if s[i] == '\n' {
        line := line + 1;
        col := 0;
      }
    }
    LineColMeaning(s, position);
  }

  // ---------------------------------------------------------------------------
  // Token recognition (getToken).

  /** The one-character tokens of the first switch. */
  function SingleCharKind(c: char): Option<TokenKind> {
    match c
    case '\n' => Some(NewLine)
    case '(' => Some(OpenParen)
    case ')' => Some(CloseParen)
    case '+' => Some(Plus)
    case '-' => Some(Minus)
    case '*' => Some(Star)
    case '/' => Some(Slash)
    case ',' => Some(Comma)
    case '{' => Some(OpenCurly)
    case '}' => Some(CloseCurly)
    case _ => None
  }

  /** Keyword classification of a word run. */
  function WordKind(word: string): (k: TokenKind)
    ensures k == KeyFunc <==> word == "func"
    ensures k == KeyReturn <==> word == "return"
    ensures k == Bool <==> word == "true" || word == "false"
    ensures k != KeyFunc && k != KeyReturn && k != Bool ==> k == Identifier
  {
    if word == "func" then KeyFunc
    else if word == "return" then KeyReturn
    else if word == "true" || word == "false" then Bool
    else Identifier
  }

  /** Some recogniser of getToken applies at `pos`. */
  predicate StartsToken(s: string, pos: nat)
    requires pos < |s|
  {
    SingleCharKind(s[pos]).Some? || IsWordChar(s[pos])
    || PairAt(s, pos, '!', '=') || PairAt(s, pos, '=', '=') || PairAt(s, pos, ':', '=')
  }

  /** The characters that can occur inside some token; ' ' is not one. */
  predicate TokenChar(c: char) {
    SingleCharKind(c).Some? || IsWordChar(c) || c == '!' || c == '=' || c == ':'
  }

  predicate AllTokenChars(t: string) {
    forall i :: 0 <= i < |t| ==> TokenChar(t[i])
  }

  /** A word token: the kinds a /\w+/ match is classified into. */
  predicate WordToken(k: TokenKind) {
    k == Identifier || k == KeyFunc || k == KeyReturn || k == Bool
  }

  function GetToken(s: string, pos: nat): (r: Option<Token>)
    requires pos < |s|
    ensures r.Some? ==> 0 < |r.value.source| && pos + |r.value.source| <= |s|
  {
    var (line, col) := LineCol(s, pos);
    var single := SingleCharKind(s[pos]);
    if single.Some? then Some(Token(single.value, [s[pos]], line, col))
    else
      var notEq := GetMatch(s, pos, Pair('!', '='));
      if notEq.Some? then Some(Token(NotEqual, notEq.value, line, col))
      else
        var eq := GetMatch(s, pos, Pair('=', '='));
        if eq.Some? then Some(Token(Equal, eq.value, line, col))
        else
          var num := GetMatch(s, pos, OneOrMore(Digit));
          if num.Some? then Some(Token(Number, num.value, line, col))
          else
            var id := GetMatch(s, pos, OneOrMore(Word));
            if id.Some? then Some(Token(WordKind(id.value), id.value, line, col))
            else
              var dec := GetMatch(s, pos, Pair(':', '='));
              if dec.Some? then Some(Token(Declaration, dec.value, line, col))
              else None
  }

  /** A token's text is the input at `pos`, and its position is the line
      and column of `pos`. */
  lemma GetTokenText(s: string, pos: nat)
    requires pos < |s|
    ensures var r := GetToken(s, pos);
      r.Some? ==>
        && r.value.source == s[pos..pos + |r.value.source|]
        && (r.value.line, r.value.col) == LineCol(s, pos)
  {
    GetMatchMeaning(s, pos, OneOrMore(Digit));
    GetMatchMeaning(s, pos, OneOrMore(Word));
  }

  /** A token is made of token characters, and its kind is one of the
      scanner's own. */
  lemma GetTokenChars(s: string, pos: nat)
    requires pos < |s|
    ensures var r := GetToken(s, pos);
      r.Some? ==> !ParserOnly(r.value.kind) && AllTokenChars(r.value.source)
  {
    GetMatchMeaning(s, pos, OneOrMore(Digit));
    GetMatchMeaning(s, pos, OneOrMore(Word));
  }

  /** A token is found exactly when one of the recognisers applies. */
  lemma GetTokenFound(s: string, pos: nat)
    requires pos < |s|
    ensures GetToken(s, pos).Some? <==> StartsToken(s, pos)
  {
  }

  /** Priority 1: the one-character tokens win over every other rule. */
  lemma GetTokenSingleChar(s: string, pos: nat)
    requires pos < |s|
    requires SingleCharKind(s[pos]).Some?
    ensures GetToken(s, pos) == Some(Token(SingleCharKind(s[pos]).value, [s[pos]], LineCol(s, pos).0, LineCol(s, pos).1))
  {
  }

  /** Priority 2: otherwise `!=` and `==` are two-character tokens. */
  lemma GetTokenComparison(s: string, pos: nat)
    requires pos < |s|
    requires SingleCharKind(s[pos]).None?
    ensures PairAt(s, pos, '!', '=') ==> GetToken(s, pos).Some? && GetToken(s, pos).value.kind == NotEqual && GetToken(s, pos).value.source == "!="
    ensures PairAt(s, pos, '=', '=') ==> GetToken(s, pos).Some? && GetToken(s, pos).value.kind == Equal && GetToken(s, pos).value.source == "=="
  {
    var m := GetMatch(s, pos, Pair('!', '='));
    var e := GetMatch(s, pos, Pair('=', '='));
  }

  /** Priority 5: `:=` is a Declaration token, and a Declaration token is
      exactly `:=`. */
  lemma GetTokenDeclaration(s: string, pos: nat)
    requires pos < |s|
    ensures PairAt(s, pos, ':', '=') ==>
      GetToken(s, pos) == Some(Token(Declaration, ":=", LineCol(s, pos).0, LineCol(s, pos).1))
    ensures GetToken(s, pos).Some? && GetToken(s, pos).value.kind == Declaration ==>
      PairAt(s, pos, ':', '=') && GetToken(s, pos).value.source == ":="
  {
    GetMatchMeaning(s, pos, Pair(':', '='));
  }

  /** Priority 3: a digit starts a maximal digit run, which is a Number
      token; and every Number token is such a run. */
  lemma GetTokenNumber(s: string, pos: nat)
    requires pos < |s|
    ensures IsDigit(s[pos]) ==> GetToken(s, pos).Some? && GetToken(s, pos).value.kind == Number
    ensures GetToken(s, pos).Some? && GetToken(s, pos).value.kind == Number ==>
      var src := GetToken(s, pos).value.source;
      IsDigit(s[pos]) && AllIn(src, Digit)
      && (pos + |src| == |s| || !IsDigit(s[pos + |src|]))
  {
    GetMatchMeaning(s, pos, OneOrMore(Digit));
  }

  /** Priority 4: any other word character starts a maximal word run,
      classified by WordKind, so no word token starts with a digit. */
  lemma GetTokenWord(s: string, pos: nat)
    requires pos < |s|
    ensures IsWordChar(s[pos]) && !IsDigit(s[pos]) ==> GetToken(s, pos).Some? && WordToken(GetToken(s, pos).value.kind)
    ensures GetToken(s, pos).Some? && WordToken(GetToken(s, pos).value.kind) ==>
      var src := GetToken(s, pos).value.source;
      !IsDigit(s[pos]) && AllIn(src, Word)
      && (pos + |src| == |s| || !IsWordChar(s[pos + |src|]))
      && GetToken(s, pos).value.kind == WordKind(src)
  {
    GetMatchMeaning(s, pos, OneOrMore(Digit));
    GetMatchMeaning(s, pos, OneOrMore(Word));
  }

  // ---------------------------------------------------------------------------
  // The scanning loop (scan).

  /** The scanning loop from `pos`, with `acc` the tokens pushed so far:
      the finished token array, or the offset of the first character no
      rule matches. */
  function ScanLoop(s: string, pos: nat, acc: seq<Token>): (r: Result<seq<Token>>)
    requires pos <= |s|
    decreases |s| - pos
  {
    if pos >= |s| then Ok(acc)
    else
      var spaces := GetSpaces(s, pos);
      if spaces.Some? then ScanLoop(s, pos + |spaces.value|, acc)
      else
        var token := GetToken(s, pos);
        if token.Some? then ScanLoop(s, pos + |token.value.source|, acc + [token.value])
        else Err(LexError(pos))
  }

  /** One turn of the loop over a run of spaces: skip it. */
  lemma ScanLoopSkip(s: string, pos: nat, acc: seq<Token>)
    requires pos < |s| && GetSpaces(s, pos).Some?
    ensures ScanLoop(s, pos, acc) == ScanLoop(s, pos + |GetSpaces(s, pos).value|, acc)
  {
  }

  /** One turn of the loop at a token: push it and move past its text. */
  lemma ScanLoopEmit(s: string, pos: nat, acc: seq<Token>)
    requires pos < |s| && GetSpaces(s, pos).None? && GetToken(s, pos).Some?
    ensures var t := GetToken(s, pos).value;
      ScanLoop(s, pos, acc) == ScanLoop(s, pos + |t.source|, acc + [t])
  {
  }

  /** The loop stops with a lexical error where neither rule applies. */
  lemma ScanLoopStuck(s: string, pos: nat, acc: seq<Token>)
    requires pos < |s| && GetSpaces(s, pos).None? && GetToken(s, pos).None?
    ensures ScanLoop(s, pos, acc) == Err(LexError(pos))
  {
  }

  /** The result of scanning the whole input. */
  function ScanAll(s: string): Result<seq<Token>> {
    ScanLoop(s, 0, [])
  }

  /** scan: the source's loop over a mutable position and token array. */
  method Scan(s: string) returns (r: Result<seq<Token>>)
    ensures r == ScanAll(s)
  {
    var position: nat := 0;
    var tokens: seq<Token> := [];
    while true
      invariant position <= |s|
      invariant ScanLoop(s, position, tokens) == ScanAll(s)
      decreases |s| - position
    {
      if position >= |s| {
        break;
      }
      var spaces := GetSpaces(s, position);
      if spaces.Some? {
        ScanLoopSkip(s, position, tokens);
        position := position + |spaces.value|;
        continue;
      }
      var token := GetToken(s, position);
      if token.Some? {
        ScanLoopEmit(s, position, tokens);
        tokens := tokens + [token.value];
        position := position + |token.value.source|;
        continue;
      }
      return Err(LexError(position));
    }
    return Ok(tokens);
  }
}
