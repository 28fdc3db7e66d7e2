/** The lexer of logback's layout patterns (TokenStream.java): a five-state scanner
    that turns a pattern such as `%-5level %logger{36} - %msg%n` into a flat list of
    typed tokens.

    The pure functions `Step`, `Run` and `Scan` describe one scanning step, the
    whole loop and the loop followed by the end-of-pattern handling; the class
    `TokenStream` is the imperative scanner, whose `Tokenize` is proved to compute
    `Scan`.  The lemmas at the end state what the lexer promises about its output. */
module TokenStream {
  import opened Wrappers

  datatype TokenizerState =
    | LiteralState
    | FormatModifierState
    | KeywordState
    | OptionState
    | RightParenthesisState

  /** A token; PERCENT, BARE_COMPOSITE_KEYWORD and RIGHT_PARENTHESIS are the
      source's shared constant tokens, OPTION carries the option list. */
  datatype Token =
    | Literal(value: string)
    | Percent
    | FormatModifier(value: string)
    | SimpleKeyword(value: string)
    | CompositeKeyword(value: string)
    | BareCompositeKeyword
    | Options(values: seq<string>)
    | RightParenthesis

  /** The token types that `addValuedToken` is called with. */
  datatype ValuedKind = LiteralKind | FormatModifierKind | SimpleKeywordKind | CompositeKeywordKind

  function ValuedToken(kind: ValuedKind, value: string): Token
  {
    match kind
    case LiteralKind => Literal(value)
    case FormatModifierKind => FormatModifier(value)
    case SimpleKeywordKind => SimpleKeyword(value)
    case CompositeKeywordKind => CompositeKeyword(value)
  }

  /** The two ways tokenizing throws a ScanException. */
  datatype ScanError = UnexpectedEndOfPattern | OptionScanFailure

  /** What the option sub-tokenizer (OptionTokenizer) reports: the option list
      between `{` and `}` together with the pointer just after the `}`, or a failure. */
  datatype OptionScan = OptionsRead(options: seq<string>, next: nat) | OptionsFailed

  /** The collaborators whose code is not part of this model:
      Character.isJavaIdentifierStart/Part, the escape utility (the text that
      `escapeUtil.escape(escapeChars, buf, next, pointer)` appends to the buffer)
      and the option sub-tokenizer, given the pattern, the pointer just after the
      first option character and that character. */
  datatype Collaborators = Collaborators(
    isIdentifierStart: char -> bool,
    isIdentifierPart: char -> bool,
    escape: (string, char) -> string,
    scanOptions: (string, nat, char) -> OptionScan)

  const LITERAL_ESCAPE_CHARS: string := "%()"
  const RIGHT_PARENTHESIS_ESCAPE_CHARS: string := "%{}"

  /** The option sub-tokenizer never moves the pointer backwards nor past the end. */
  ghost predicate OptionScannerAdvances(co: Collaborators, pattern: string)
  {
    forall i: nat, c: char :: i <= |pattern| && co.scanOptions(pattern, i, c).OptionsRead? ==>
      i <= co.scanOptions(pattern, i, c).next <= |pattern|
  }

  /** The scanner's state between two characters: the `state` and `pointer` fields
      and the `buf` and `tokenList` locals of `tokenize`. */
  datatype Scanner = Scanner(state: TokenizerState, pointer: nat, buf: string, tokens: seq<Token>)

  const Initial: Scanner := Scanner(LiteralState, 0, "", [])

  /** addValuedToken: emit the buffer as a token only when it is non-empty, and
      leave the buffer empty in every case. */
  function Flush(kind: ValuedKind, s: Scanner): (r: Scanner)
    ensures r.buf == "" && r.state == s.state && r.pointer == s.pointer
    ensures |s.buf| > 0 ==> r.tokens == s.tokens + [ValuedToken(kind, s.buf)]
    ensures |s.buf| == 0 ==> r.tokens == s.tokens
  {
    if |s.buf| > 0 then s.(buf := "", tokens := s.tokens + [ValuedToken(kind, s.buf)])
    else s.(buf := "")
  }

  /** escape: the character after a `\` (if there is one) is consumed and the escape
      utility's translation of it appended; a `\` at the very end is dropped. */
  function EscapeNext(co: Collaborators, pattern: string, escapeChars: string, s: Scanner): Scanner
  {
    if s.pointer < |pattern| then
      s.(pointer := s.pointer + 1, buf := s.buf + co.escape(escapeChars, pattern[s.pointer]))
    else s
  }

  function LiteralStep(co: Collaborators, pattern: string, s: Scanner, c: char): Scanner
  {
    match c
    case '\\' => EscapeNext(co, pattern, LITERAL_ESCAPE_CHARS, s)
    case '%' =>
      var f := Flush(LiteralKind, s);
      f.(tokens := f.tokens + [Percent], state := FormatModifierState)
    case ')' => Flush(LiteralKind, s).(state := RightParenthesisState)
    case _ => s.(buf := s.buf + [c])
  }

  function FormatModifierStep(co: Collaborators, s: Scanner, c: char): Scanner
  {
    if c == '(' then
      var f := Flush(FormatModifierKind, s);
      f.(tokens := f.tokens + [BareCompositeKeyword], state := LiteralState)
    else if co.isIdentifierStart(c) then
      Flush(FormatModifierKind, s).(state := KeywordState, buf := [c])
    else
      s.(buf := s.buf + [c])
  }

  function KeywordStep(co: Collaborators, pattern: string, s: Scanner, c: char): Scanner
  {
    if co.isIdentifierPart(c) then s.(buf := s.buf + [c])
    else if c == '{' then Flush(SimpleKeywordKind, s).(state := OptionState)
    else if c == '(' then Flush(CompositeKeywordKind, s).(state := LiteralState)
    else if c == '%' then
      var f := Flush(SimpleKeywordKind, s);
      f.(tokens := f.tokens + [Percent], state := FormatModifierState)
    else if c == ')' then Flush(SimpleKeywordKind, s).(state := RightParenthesisState)
    else
      var f := Flush(SimpleKeywordKind, s);
      var g := if c == '\\' then EscapeNext(co, pattern, LITERAL_ESCAPE_CHARS, f) else f.(buf := [c]);
      g.(state := LiteralState)
  }

  function RightParenthesisStep(co: Collaborators, pattern: string, s: Scanner, c: char): Scanner
  {
    var t := s.(tokens := s.tokens + [RightParenthesis]);
    match c
    case ')' => t
    case '{' => t.(state := OptionState)
    case '\\' => EscapeNext(co, pattern, RIGHT_PARENTHESIS_ESCAPE_CHARS, t).(state := LiteralState)
    case _ => t.(buf := t.buf + [c], state := LiteralState)
  }

  /** processOption: the sub-tokenizer reads the whole option list; on success it
      has emitted one OPTION token and put the scanner back in LITERAL state. */
  function OptionStep(co: Collaborators, pattern: string, s: Scanner, c: char): Result<Scanner, ScanError>
  {
    match co.scanOptions(pattern, s.pointer, c)
    case OptionsFailed => Err(OptionScanFailure)
    case OptionsRead(options, next) =>
      Ok(s.(pointer := next, tokens := s.tokens + [Options(options)], state := LiteralState))
  }

  /** One iteration of the `while (pointer < patternLength)` loop. */
  function Step(co: Collaborators, pattern: string, s: Scanner): (r: Result<Scanner, ScanError>)
    requires OptionScannerAdvances(co, pattern)
    requires s.pointer < |pattern|
    ensures r.Ok? ==> s.pointer < r.value.pointer <= |pattern|
  {
    var c := pattern[s.pointer];
    var s1 := s.(pointer := s.pointer + 1);
    match s.state
    case LiteralState => Ok(LiteralStep(co, pattern, s1, c))
    case FormatModifierState => Ok(FormatModifierStep(co, s1, c))
    case OptionState => OptionStep(co, pattern, s1, c)
    case KeywordState => Ok(KeywordStep(co, pattern, s1, c))
    case RightParenthesisState => Ok(RightParenthesisStep(co, pattern, s1, c))
  }

  /** The whole loop: step until the pointer reaches the end of the pattern. */
  function Run(co: Collaborators, pattern: string, s: Scanner): (r: Result<Scanner, ScanError>)
    requires OptionScannerAdvances(co, pattern)
    requires s.pointer <= |pattern|
    ensures r.Ok? ==> r.value.pointer == |pattern|
    decreases |pattern| - s.pointer
  {
    if s.pointer == |pattern| then Ok(s)
    else
      match Step(co, pattern, s)
      case Err(e) => Err(e)
      case Ok(s') => Run(co, pattern, s')
  }

  /** The end-of-pattern switch: an open format modifier or option list is the
      "unexpected end of pattern" ScanException; every other state succeeds and
      only appends to the tokens already emitted. */
  function EndOfPattern(s: Scanner): (r: Result<seq<Token>, ScanError>)
    ensures r.Err? <==> s.state == FormatModifierState || s.state == OptionState
    ensures r.Err? ==> r.error == UnexpectedEndOfPattern
    ensures r.Ok? ==> s.tokens <= r.value
  {
    match s.state
    case LiteralState => Ok(Flush(LiteralKind, s).tokens)
    case KeywordState => Ok(s.tokens + [SimpleKeyword(s.buf)])
    case RightParenthesisState => Ok(s.tokens + [RightParenthesis])
    case FormatModifierState => Err(UnexpectedEndOfPattern)
    case OptionState => Err(UnexpectedEndOfPattern)
  }

  /** `tokenize` started from scanner state `s` with an empty buffer and token list. */
  function Scan(co: Collaborators, pattern: string, s: Scanner): Result<seq<Token>, ScanError>
    requires OptionScannerAdvances(co, pattern)
    requires s.pointer <= |pattern|
  {
    match Run(co, pattern, s)
    case Err(e) => Err(e)
    case Ok(f) => EndOfPattern(f)
  }

  /** `tokenize` on a freshly constructed token stream. */
  function Tokenize(co: Collaborators, pattern: string): Result<seq<Token>, ScanError>
    requires OptionScannerAdvances(co, pattern)
  {
    Scan(co, pattern, Initial)
  }

  // ---------------------------------------------------------------------------
  // What the lexer promises about its output
  // ---------------------------------------------------------------------------

  /** The token types built by `addValuedToken` never carry an empty value. */
  predicate ValueNonEmpty(t: Token)
  {
    (t.Literal? || t.FormatModifier? || t.SimpleKeyword? || t.CompositeKeyword?) ==> |t.value| > 0
  }

  predicate NonEmptyValues(tokens: seq<Token>)
  {
    forall i :: 0 <= i < |tokens| ==> ValueNonEmpty(tokens[i])
  }

  /** The scanner invariant behind `NonEmptyValues`: a keyword being read has at
      least its first character, and the buffer is empty while a right parenthesis
      is pending or an option list is open. */
  ghost predicate WellFormed(s: Scanner)
  {
    && NonEmptyValues(s.tokens)
    && (s.state == KeywordState ==> |s.buf| > 0)
    && (s.state == RightParenthesisState || s.state == OptionState ==> s.buf == "")
  }

  lemma AppendKeepsNonEmptyValues(tokens: seq<Token>, t: Token)
    requires NonEmptyValues(tokens) && ValueNonEmpty(t)
    ensures NonEmptyValues(tokens + [t])
  {
    forall i | 0 <= i < |tokens| + 1 ensures ValueNonEmpty((tokens + [t])[i]) {
      if i < |tokens| {
        assert (tokens + [t])[i] == tokens[i];
      }
    }
  }

  lemma FlushKeepsNonEmptyValues(kind: ValuedKind, s: Scanner)
    requires NonEmptyValues(s.tokens)
    ensures NonEmptyValues(Flush(kind, s).tokens)
  {
    if |s.buf| > 0 {
      AppendKeepsNonEmptyValues(s.tokens, ValuedToken(kind, s.buf));
    }
  }

  lemma StepKeepsWellFormed(co: Collaborators, pattern: string, s: Scanner)
    requires OptionScannerAdvances(co, pattern)
    requires s.pointer < |pattern| && WellFormed(s)
    ensures Step(co, pattern, s).Ok? ==> WellFormed(Step(co, pattern, s).value)
  {
    var c := pattern[s.pointer];
    var s1 := s.(pointer := s.pointer + 1);
    match s.state
    case LiteralState =>
      var f := Flush(LiteralKind, s1);
      FlushKeepsNonEmptyValues(LiteralKind, s1);
      AppendKeepsNonEmptyValues(f.tokens, Percent);
    case FormatModifierState =>
      var f := Flush(FormatModifierKind, s1);
      FlushKeepsNonEmptyValues(FormatModifierKind, s1);
      AppendKeepsNonEmptyValues(f.tokens, BareCompositeKeyword);
    case OptionState =>
      match co.scanOptions(pattern, s1.pointer, c) {
        case OptionsFailed =>
        case OptionsRead(options, next) =>
          AppendKeepsNonEmptyValues(s.tokens, Options(options));
      }
    case KeywordState =>
      var f := Flush(SimpleKeywordKind, s1);
      FlushKeepsNonEmptyValues(SimpleKeywordKind, s1);
      FlushKeepsNonEmptyValues(CompositeKeywordKind, s1);
      AppendKeepsNonEmptyValues(f.tokens, Percent);
    case RightParenthesisState =>
      AppendKeepsNonEmptyValues(s.tokens, RightParenthesis);
  }

  lemma {:induction false} RunKeepsWellFormed(co: Collaborators, pattern: string, s: Scanner)
    requires OptionScannerAdvances(co, pattern)
    requires s.pointer <= |pattern| && WellFormed(s)
    ensures Run(co, pattern, s).Ok? ==> WellFormed(Run(co, pattern, s).value)
    decreases |pattern| - s.pointer
  {
    if s.pointer < |pattern| {
      StepKeepsWellFormed(co, pattern, s);
      match Step(co, pattern, s)
      case Err(_) =>
      case Ok(s') => RunKeepsWellFormed(co, pattern, s');
    }
  }

  /** No LITERAL, FORMAT_MODIFIER, SIMPLE_KEYWORD or COMPOSITE_KEYWORD token of a
      successful tokenization has an empty value. */
  lemma TokenValuesNonEmpty(co: Collaborators, pattern: string)
    requires OptionScannerAdvances(co, pattern)
    ensures Tokenize(co, pattern).Ok? ==> NonEmptyValues(Tokenize(co, pattern).value)
  {
    RunKeepsWellFormed(co, pattern, Initial);
  }

  /** Each character read in RIGHT_PARENTHESIS state, and the end of the pattern
      in that state, emits exactly one RIGHT_PARENTHESIS token; `)` stays in the
      state, `{` opens an option list, anything else returns to LITERAL. */
  lemma RightParenthesisEmitsOne(co: Collaborators, pattern: string, s: Scanner)
    requires OptionScannerAdvances(co, pattern)
    requires s.pointer <= |pattern| && s.state == RightParenthesisState
    ensures s.pointer == |pattern| ==> EndOfPattern(s) == Ok(s.tokens + [RightParenthesis])
    ensures s.pointer < |pattern| ==>
      var c := pattern[s.pointer];
      var r := Step(co, pattern, s);
      && r.Ok? && r.value.tokens == s.tokens + [RightParenthesis]
      && r.value.state == (if c == ')' then RightParenthesisState else if c == '{' then OptionState else LiteralState)
  {
  }

  /** The characters that a state only appends to the buffer: anything but `\`,
      `%` and `)` in LITERAL state; anything but `(` and an identifier start in
      FORMAT_MODIFIER state; identifier parts in KEYWORD state. */
  ghost predicate Absorbs(co: Collaborators, state: TokenizerState, c: char)
  {
    match state
    case LiteralState => c != '\\' && c != '%' && c != ')'
    case FormatModifierState => c != '(' && !co.isIdentifierStart(c)
    case KeywordState => co.isIdentifierPart(c)
    case _ => false
  }

  /** Scanning a run of absorbed characters only moves them into the buffer. */
  lemma {:induction false} RunAbsorbing(co: Collaborators, pattern: string, s: Scanner, j: nat)
    requires OptionScannerAdvances(co, pattern)
    requires s.pointer <= j <= |pattern|
    requires forall i :: s.pointer <= i < j ==> Absorbs(co, s.state, pattern[i])
    ensures Run(co, pattern, s) == Run(co, pattern, s.(pointer := j, buf := s.buf + pattern[s.pointer..j]))
    decreases j - s.pointer
  {
    if s.pointer == j {
      assert s.buf + pattern[s.pointer..j] == s.buf;
    } else {
      var c := pattern[s.pointer];
      var s1 := s.(pointer := s.pointer + 1, buf := s.buf + [c]);
      assert Absorbs(co, s.state, c);
      assert Step(co, pattern, s) == Ok(s1);
      RunAbsorbing(co, pattern, s1, j);
      assert s1.buf + pattern[s1.pointer..j] == s.buf + pattern[s.pointer..j];
    }
  }

  /** Text that LITERAL state keeps as it is: no `\`, `%` or `)`. */
  predicate PlainText(s: string)
  {
    forall i :: 0 <= i < |s| ==> s[i] != '\\' && s[i] != '%' && s[i] != ')'
  }

  /** A non-empty pattern with none of `\`, `%`, `)` is exactly one LITERAL token
      holding the whole pattern. */
  lemma PlainPatternIsOneLiteral(co: Collaborators, pattern: string)
    requires OptionScannerAdvances(co, pattern)
    requires |pattern| > 0 && PlainText(pattern)
    ensures Tokenize(co, pattern) == Ok([Literal(pattern)])
  {
    RunAbsorbing(co, pattern, Initial, |pattern|);
    assert pattern[0..|pattern|] == pattern;
    var f := Scanner(LiteralState, |pattern|, pattern, []);
    assert Initial.(pointer := |pattern|, buf := Initial.buf + pattern[0..|pattern|]) == f;
    assert Run(co, pattern, Initial) == Run(co, pattern, f) == Ok(f);
    assert Flush(LiteralKind, f).tokens == [Literal(pattern)];
  }

  /** A `\` at the very end of the pattern is dropped, not an error. */
  lemma TrailingEscapeDropped(co: Collaborators, text: string)
    requires OptionScannerAdvances(co, text + "\\")
    requires PlainText(text)
    ensures Tokenize(co, text + "\\") == Ok(if text == "" then [] else [Literal(text)])
  {
    var p := text + "\\";
    RunAbsorbing(co, p, Initial, |text|);
    assert p[0..|text|] == text;
    var s := Scanner(LiteralState, |text|, text, []);
    assert Initial.(pointer := |text|, buf := Initial.buf + p[0..|text|]) == s;
    assert p[|text|] == '\\';
    assert LiteralStep(co, p, s.(pointer := |p|), '\\') == s.(pointer := |p|);
    assert Step(co, p, s) == Ok(s.(pointer := |p|));
    assert Run(co, p, Initial) == Run(co, p, s) == Run(co, p, s.(pointer := |p|)) == Ok(s.(pointer := |p|));
    assert Flush(LiteralKind, s).tokens == if text == "" then [] else [Literal(text)];
  }

  /** A `\` that is the last character of the pattern is dropped wherever it is
      read outside a format modifier or option list: in LITERAL state the pending
      text is kept as it is, in RIGHT_PARENTHESIS state the parenthesis is emitted,
      and in KEYWORD state the keyword is closed; scanning then ends without error. */
  lemma TrailingEscapeDroppedAnywhere(co: Collaborators, pattern: string, s: Scanner)
    requires OptionScannerAdvances(co, pattern)
    requires s.pointer + 1 == |pattern| && pattern[s.pointer] == '\\'
    requires s.state == LiteralState || s.state == RightParenthesisState
          || (s.state == KeywordState && !co.isIdentifierPart('\\'))
    ensures s.state == LiteralState ==>
      && Run(co, pattern, s) == Ok(s.(pointer := |pattern|))
      && Scan(co, pattern, s) == Ok(s.tokens + (if s.buf == "" then [] else [Literal(s.buf)]))
    ensures s.state == RightParenthesisState ==>
      && Run(co, pattern, s) == Ok(s.(pointer := |pattern|, tokens := s.tokens + [RightParenthesis], state := LiteralState))
      && Scan(co, pattern, s) == Ok(s.tokens + [RightParenthesis] + (if s.buf == "" then [] else [Literal(s.buf)]))
    ensures s.state == KeywordState ==>
      && Run(co, pattern, s) == Ok(Scanner(LiteralState, |pattern|, "", Flush(SimpleKeywordKind, s).tokens))
      && Scan(co, pattern, s) == Ok(Flush(SimpleKeywordKind, s).tokens)
  {
    var n := |pattern|;
    var s1 := s.(pointer := n);
    var pending := if s.buf == "" then [] else [Literal(s.buf)];
    if s.state == LiteralState {
      assert LiteralStep(co, pattern, s1, '\\') == s1;
      assert Run(co, pattern, s) == Run(co, pattern, s1) == Ok(s1);
      assert Flush(LiteralKind, s1).tokens == s.tokens + pending;
    } else if s.state == RightParenthesisState {
      var t := s1.(tokens := s.tokens + [RightParenthesis], state := LiteralState);
      assert RightParenthesisStep(co, pattern, s1, '\\') == t;
      assert Run(co, pattern, s) == Run(co, pattern, t) == Ok(t);
      assert Flush(LiteralKind, t).tokens == s.tokens + [RightParenthesis] + pending;
    } else {
      var t := Scanner(LiteralState, n, "", Flush(SimpleKeywordKind, s).tokens);
      assert KeywordStep(co, pattern, s1, '\\') == t;
      assert Run(co, pattern, s) == Run(co, pattern, t) == Ok(t);
    }
  }

  /** A `%` at the very end leaves FORMAT_MODIFIER state open: a ScanException. */
  lemma TrailingPercentFails(co: Collaborators, text: string)
    requires OptionScannerAdvances(co, text + "%")
    requires PlainText(text)
    ensures Tokenize(co, text + "%") == Err(UnexpectedEndOfPattern)
  {
    var p := text + "%";
    RunAbsorbing(co, p, Initial, |text|);
    assert p[0..|text|] == text;
    var s := Scanner(LiteralState, |text|, text, []);
    assert Initial.(pointer := |text|, buf := Initial.buf + p[0..|text|]) == s;
    assert p[|text|] == '%';
    var f := Flush(LiteralKind, s.(pointer := |p|));
    var s' := f.(tokens := f.tokens + [Percent], state := FormatModifierState);
    assert LiteralStep(co, p, s.(pointer := |p|), '%') == s';
    assert Step(co, p, s) == Ok(s');
    assert Run(co, p, Initial) == Run(co, p, s) == Run(co, p, s') == Ok(s');
  }

  /** A keyword: an identifier start (which `(` is not) followed by identifier parts. */
  ghost predicate IsKeyword(co: Collaborators, k: string)
  {
    && |k| > 0
    && k[0] != '('
    && co.isIdentifierStart(k[0])
    && forall i :: 1 <= i < |k| ==> co.isIdentifierPart(k[i])
  }

  /** A format modifier such as `-5` or `.10`: no `(` and no identifier start. */
  ghost predicate IsModifier(co: Collaborators, m: string)
  {
    forall i :: 0 <= i < |m| ==> m[i] != '(' && !co.isIdentifierStart(m[i])
  }

  /** The FORMAT_MODIFIER token emitted for modifier text `m`: none when it is empty. */
  function ModifierTokens(m: string): seq<Token>
  {
    if m == "" then [] else [FormatModifier(m)]
  }

  /** In LITERAL state, `%` flushes the pending literal text (when there is
      any), emits PERCENT and opens a format modifier. */
  lemma LiteralPercentFlushes(co: Collaborators, pattern: string, s: Scanner)
    requires OptionScannerAdvances(co, pattern)
    requires s.state == LiteralState && s.pointer < |pattern| && pattern[s.pointer] == '%'
    ensures Step(co, pattern, s)
         == Ok(Scanner(FormatModifierState, s.pointer + 1, "",
                       s.tokens + (if s.buf == "" then [] else [Literal(s.buf)]) + [Percent]))
  {
    var s1 := s.(pointer := s.pointer + 1);
    assert Step(co, pattern, s) == Ok(LiteralStep(co, pattern, s1, '%'));
    var f := Flush(LiteralKind, s1);
    assert f.tokens == s.tokens + (if s.buf == "" then [] else [Literal(s.buf)]);
  }

  /** In FORMAT_MODIFIER state, modifier text only moves into the buffer. */
  lemma ReadModifier(co: Collaborators, pattern: string, s: Scanner, m: string)
    requires OptionScannerAdvances(co, pattern)
    requires IsModifier(co, m) && s.state == FormatModifierState
    requires s.pointer + |m| <= |pattern| && pattern[s.pointer..s.pointer + |m|] == m
    ensures Run(co, pattern, s) == Run(co, pattern, s.(pointer := s.pointer + |m|, buf := s.buf + m))
  {
    forall j | s.pointer <= j < s.pointer + |m| ensures Absorbs(co, FormatModifierState, pattern[j]) {
      assert pattern[j] == pattern[s.pointer..s.pointer + |m|][j - s.pointer];
    }
    RunAbsorbing(co, pattern, s, s.pointer + |m|);
  }

  /** In FORMAT_MODIFIER state, a keyword emits the buffered modifier (when
      non-empty) and is left in the buffer in KEYWORD state. */
  lemma StartKeyword(co: Collaborators, pattern: string, s: Scanner, k: string)
    requires OptionScannerAdvances(co, pattern)
    requires IsKeyword(co, k)
    requires s.state == FormatModifierState
    requires s.pointer + |k| <= |pattern| && pattern[s.pointer..s.pointer + |k|] == k
    ensures Run(co, pattern, s)
         == Run(co, pattern, Scanner(KeywordState, s.pointer + |k|, k, s.tokens + ModifierTokens(s.buf)))
  {
    var i := s.pointer;
    var n := i + |k|;
    assert pattern[i] == k[0];
    var s1 := Scanner(KeywordState, i + 1, [k[0]], s.tokens + ModifierTokens(s.buf));
    assert FormatModifierStep(co, s.(pointer := i + 1), k[0]) == s1;
    assert Step(co, pattern, s) == Ok(s1);
    forall j | i + 1 <= j < n ensures Absorbs(co, KeywordState, pattern[j]) {
      assert pattern[j] == pattern[i..n][j - i] == k[j - i];
    }
    RunAbsorbing(co, pattern, s1, n);
    assert [k[0]] + pattern[i + 1..n] == k by {
      assert pattern[i + 1..n] == pattern[i..n][1..] == k[1..];
    }
  }

  lemma SliceOfConcat(pattern: string, i: nat, m: string, k: string)
    requires i + |m| + |k| <= |pattern| && pattern[i..i + |m| + |k|] == m + k
    ensures pattern[i..i + |m|] == m && pattern[i + |m|..i + |m| + |k|] == k
  {
    var w := m + k;
    assert pattern[i..i + |m|] == w[..|m|] == m;
    assert pattern[i + |m|..i + |m| + |k|] == w[|m|..] == k;
  }

  /** In FORMAT_MODIFIER state with nothing buffered, a modifier followed by a
      keyword emits the modifier (when non-empty) and leaves the keyword in the
      buffer in KEYWORD state. */
  lemma ReadModifiedKeyword(co: Collaborators, pattern: string, s: Scanner, m: string, k: string)
    requires OptionScannerAdvances(co, pattern)
    requires IsModifier(co, m) && IsKeyword(co, k)
    requires s.state == FormatModifierState && s.buf == ""
    requires s.pointer + |m| + |k| <= |pattern| && pattern[s.pointer..s.pointer + |m| + |k|] == m + k
    ensures Run(co, pattern, s)
         == Run(co, pattern, Scanner(KeywordState, s.pointer + |m| + |k|, k, s.tokens + ModifierTokens(m)))
  {
    var i := s.pointer;
    SliceOfConcat(pattern, i, m, k);
    ReadModifier(co, pattern, s, m);
    assert s.(pointer := i + |m|, buf := s.buf + m) == Scanner(FormatModifierState, i + |m|, m, s.tokens);
    StartKeyword(co, pattern, Scanner(FormatModifierState, i + |m|, m, s.tokens), k);
  }

  /** Scanning `%` + modifier + keyword from LITERAL state flushes the pending
      text and ends in KEYWORD state with the keyword in the buffer, after
      PERCENT and the (non-empty) modifier. */
  lemma ReadKeyword(co: Collaborators, pattern: string, s: Scanner, m: string, k: string)
    requires OptionScannerAdvances(co, pattern)
    requires IsModifier(co, m) && IsKeyword(co, k)
    requires s.state == LiteralState
    requires s.pointer + 1 + |m| + |k| <= |pattern| && pattern[s.pointer..s.pointer + 1 + |m| + |k|] == "%" + m + k
    ensures Run(co, pattern, s)
         == Run(co, pattern, Scanner(KeywordState, s.pointer + 1 + |m| + |k|, k,
                                     s.tokens + (if s.buf == "" then [] else [Literal(s.buf)]) + [Percent] + ModifierTokens(m)))
  {
    var i := s.pointer;
    var w := "%" + m + k;
    assert pattern[i] == w[0] == '%';
    LiteralPercentFlushes(co, pattern, s);
    var s1 := Scanner(FormatModifierState, i + 1, "", s.tokens + (if s.buf == "" then [] else [Literal(s.buf)]) + [Percent]);
    assert pattern[i + 1..i + 1 + |m| + |k|] == w[1..] == m + k;
    ReadModifiedKeyword(co, pattern, s1, m, k);
  }

  /** `%` + modifier + keyword as a whole pattern, such as `%-5level` or `%d`:
      PERCENT, the modifier only when it is non-empty, then SIMPLE_KEYWORD. */
  lemma ModifiedKeyword(co: Collaborators, m: string, k: string)
    requires OptionScannerAdvances(co, "%" + m + k)
    requires IsModifier(co, m) && IsKeyword(co, k)
    ensures Tokenize(co, "%" + m + k) == Ok([Percent] + ModifierTokens(m) + [SimpleKeyword(k)])
  {
    var p := "%" + m + k;
    assert p[0..1 + |m| + |k|] == p;
    ReadKeyword(co, p, Initial, m, k);
    var f := Scanner(KeywordState, |p|, k, [Percent] + ModifierTokens(m));
    assert [] + [] + [Percent] + ModifierTokens(m) == [Percent] + ModifierTokens(m);
    assert Run(co, p, Initial) == Run(co, p, f) == Ok(f);
  }

  /** Plain text at the start of the pattern is only buffered. */
  lemma ReadPlainPrefix(co: Collaborators, pattern: string, text: string)
    requires OptionScannerAdvances(co, pattern)
    requires |text| <= |pattern| && pattern[..|text|] == text && PlainText(text)
    ensures Run(co, pattern, Initial) == Run(co, pattern, Scanner(LiteralState, |text|, text, []))
  {
    forall i | 0 <= i < |text| ensures Absorbs(co, LiteralState, pattern[i]) {
      assert pattern[i] == text[i];
    }
    RunAbsorbing(co, pattern, Initial, |text|);
    assert pattern[0..|text|] == text;
    assert Initial.(pointer := |text|, buf := Initial.buf + pattern[0..|text|]) == Scanner(LiteralState, |text|, text, []);
  }

  /** Literal text followed by `%` + modifier + keyword, such as `ab%d`: the text
      is flushed as one LITERAL before PERCENT, the modifier and SIMPLE_KEYWORD. */
  lemma TextThenModifiedKeyword(co: Collaborators, text: string, m: string, k: string)
    requires OptionScannerAdvances(co, text + "%" + m + k)
    requires |text| > 0 && PlainText(text)
    requires IsModifier(co, m) && IsKeyword(co, k)
    ensures Tokenize(co, text + "%" + m + k)
         == Ok([Literal(text), Percent] + ModifierTokens(m) + [SimpleKeyword(k)])
  {
    var p := text + "%" + m + k;
    assert p[..|text|] == text;
    ReadPlainPrefix(co, p, text);
    var s := Scanner(LiteralState, |text|, text, []);
    assert p[|text|..|p|] == "%" + m + k;
    ReadKeyword(co, p, s, m, k);
    var before := [] + [Literal(text)] + [Percent] + ModifierTokens(m);
    assert before == [Literal(text), Percent] + ModifierTokens(m);
    var f := Scanner(KeywordState, |p|, k, before);
    assert Run(co, p, Initial) == Run(co, p, s) == Run(co, p, f) == Ok(f);
  }

  /** How each character that is not an identifier part closes the keyword held
      in KEYWORD state, wherever in the pattern it is read. */
  lemma KeywordClosedBy(co: Collaborators, pattern: string, s: Scanner)
    requires OptionScannerAdvances(co, pattern)
    requires s.state == KeywordState && |s.buf| > 0
    requires s.pointer < |pattern| && !co.isIdentifierPart(pattern[s.pointer])
    ensures var d := pattern[s.pointer];
      var n := s.pointer + 1;
      var closed := s.tokens + [SimpleKeyword(s.buf)];
      Step(co, pattern, s) == Ok(
        if d == '{' then Scanner(OptionState, n, "", closed)
        else if d == '(' then Scanner(LiteralState, n, "", s.tokens + [CompositeKeyword(s.buf)])
        else if d == '%' then Scanner(FormatModifierState, n, "", closed + [Percent])
        else if d == ')' then Scanner(RightParenthesisState, n, "", closed)
        else if d == '\\' then
          (if n == |pattern| then Scanner(LiteralState, n, "", closed)
           else Scanner(LiteralState, n + 1, co.escape(LITERAL_ESCAPE_CHARS, pattern[n]), closed))
        else Scanner(LiteralState, n, [d], closed))
  {
    var d := pattern[s.pointer];
    var n := s.pointer + 1;
    var closed := s.tokens + [SimpleKeyword(s.buf)];
    var next := KeywordStep(co, pattern, s.(pointer := n), d);
    assert Step(co, pattern, s) == Ok(next);
    if d == '{' {
      assert next == Scanner(OptionState, n, "", closed);
    } else if d == '(' {
      assert next == Scanner(LiteralState, n, "", s.tokens + [CompositeKeyword(s.buf)]);
    } else if d == '%' {
      assert next == Scanner(FormatModifierState, n, "", closed + [Percent]);
    } else if d == ')' {
      assert next == Scanner(RightParenthesisState, n, "", closed);
    } else if d == '\\' {
      if n == |pattern| {
        assert next == Scanner(LiteralState, n, "", closed);
      } else {
        assert next == Scanner(LiteralState, n + 1, co.escape(LITERAL_ESCAPE_CHARS, pattern[n]), closed);
      }
    } else {
      assert next == Scanner(LiteralState, n, [d], closed);
    }
  }

  /** In FORMAT_MODIFIER state, modifier text followed by `(` opens an unnamed
      composite: the whole modifier (when non-empty), BARE_COMPOSITE_KEYWORD,
      and scanning goes on in LITERAL state. */
  lemma BareComposite(co: Collaborators, pattern: string, s: Scanner, m: string)
    requires OptionScannerAdvances(co, pattern)
    requires s.state == FormatModifierState && IsModifier(co, m)
    requires s.pointer + |m| < |pattern| && pattern[s.pointer..s.pointer + |m|] == m && pattern[s.pointer + |m|] == '('
    ensures Run(co, pattern, s)
         == Run(co, pattern, Scanner(LiteralState, s.pointer + |m| + 1, "",
                                     s.tokens + ModifierTokens(s.buf + m) + [BareCompositeKeyword]))
  {
    var i := s.pointer;
    ReadModifier(co, pattern, s, m);
    var s2 := s.(pointer := i + |m|, buf := s.buf + m);
    var s3 := Scanner(LiteralState, i + |m| + 1, "", s.tokens + ModifierTokens(s.buf + m) + [BareCompositeKeyword]);
    assert FormatModifierStep(co, s2.(pointer := i + |m| + 1), '(') == s3;
    assert Step(co, pattern, s2) == Ok(s3);
    assert Run(co, pattern, s) == Run(co, pattern, s2) == Run(co, pattern, s3);
  }

  /** Pattern text without `%`, `\` and `{`: only literal text and parentheses. */
  predicate ParenthesizedText(s: string)
  {
    forall i :: 0 <= i < |s| ==> s[i] != '\\' && s[i] != '%' && s[i] != '{'
  }

  /** The pattern text a LITERAL or RIGHT_PARENTHESIS token stands for. */
  function TokenText(t: Token): string
  {
    match t
    case Literal(v) => v
    case RightParenthesis => ")"
    case _ => ""
  }

  function Detokenize(tokens: seq<Token>): string
  {
    if tokens == [] then "" else Detokenize(tokens[..|tokens| - 1]) + TokenText(tokens[|tokens| - 1])
  }

  lemma DetokenizeAppend(tokens: seq<Token>, t: Token)
    ensures Detokenize(tokens + [t]) == Detokenize(tokens) + TokenText(t)
  {
    assert (tokens + [t])[..|tokens|] == tokens;
  }

  /** Every token is a RIGHT_PARENTHESIS or a non-empty LITERAL without `)`. */
  predicate LiteralsAndParentheses(tokens: seq<Token>)
  {
    forall i :: 0 <= i < |tokens| ==>
      tokens[i] == RightParenthesis || (tokens[i].Literal? && |tokens[i].value| > 0 && ')' !in tokens[i].value)
  }

  /** The scanner invariant over parenthesized text: the tokens, a pending right
      parenthesis and the buffer together spell the text read so far. */
  ghost predicate SpellsPrefix(pattern: string, s: Scanner)
  {
    && s.pointer <= |pattern|
    && (s.state == LiteralState || s.state == RightParenthesisState)
    && (s.state == RightParenthesisState ==> s.buf == "")
    && ')' !in s.buf
    && LiteralsAndParentheses(s.tokens)
    && Detokenize(s.tokens) + (if s.state == RightParenthesisState then ")" else "") + s.buf == pattern[..s.pointer]
  }

  lemma AppendKeepsLiteralsAndParentheses(tokens: seq<Token>, t: Token)
    requires LiteralsAndParentheses(tokens)
    requires t == RightParenthesis || (t.Literal? && |t.value| > 0 && ')' !in t.value)
    ensures LiteralsAndParentheses(tokens + [t])
  {
  }

  /** LITERAL state reading `)`: the pending text becomes a LITERAL token and the
      parenthesis is pending. */
  lemma LiteralParenthesisSpellsPrefix(co: Collaborators, pattern: string, s: Scanner)
    requires OptionScannerAdvances(co, pattern)
    requires s.pointer < |pattern| && pattern[s.pointer] == ')'
    requires s.state == LiteralState && SpellsPrefix(pattern, s)
    ensures Step(co, pattern, s).Ok? && SpellsPrefix(pattern, Step(co, pattern, s).value)
  {
    var n := s.pointer + 1;
    var tokens := if |s.buf| > 0 then s.tokens + [Literal(s.buf)] else s.tokens;
    var s' := Scanner(RightParenthesisState, n, "", tokens);
    assert LiteralStep(co, pattern, s.(pointer := n), ')') == s';
    assert Step(co, pattern, s) == Ok(s');
    if |s.buf| > 0 {
      DetokenizeAppend(s.tokens, Literal(s.buf));
      AppendKeepsLiteralsAndParentheses(s.tokens, Literal(s.buf));
    }
    assert Detokenize(tokens) == Detokenize(s.tokens) + s.buf;
    assert pattern[..n] == pattern[..s.pointer] + ")";
    assert Detokenize(tokens) + ")" + "" == pattern[..n];
  }

  /** LITERAL state reading a plain character: it joins the pending text. */
  lemma LiteralPlainSpellsPrefix(co: Collaborators, pattern: string, s: Scanner)
    requires OptionScannerAdvances(co, pattern)
    requires s.pointer < |pattern|
    requires pattern[s.pointer] != '\\' && pattern[s.pointer] != '%' && pattern[s.pointer] != ')'
    requires s.state == LiteralState && SpellsPrefix(pattern, s)
    ensures Step(co, pattern, s).Ok? && SpellsPrefix(pattern, Step(co, pattern, s).value)
  {
    var c := pattern[s.pointer];
    var n := s.pointer + 1;
    var s' := s.(pointer := n, buf := s.buf + [c]);
    assert Step(co, pattern, s) == Ok(s');
    assert pattern[..n] == pattern[..s.pointer] + [c];
    assert Detokenize(s'.tokens) + s'.buf == (Detokenize(s.tokens) + s.buf) + [c];
  }

  /** RIGHT_PARENTHESIS state: the pending parenthesis becomes a token; a further
      `)` is pending in its turn, a plain character starts literal text. */
  lemma RightParenthesisSpellsPrefix(co: Collaborators, pattern: string, s: Scanner)
    requires OptionScannerAdvances(co, pattern)
    requires s.pointer < |pattern|
    requires pattern[s.pointer] != '\\' && pattern[s.pointer] != '%' && pattern[s.pointer] != '{'
    requires s.state == RightParenthesisState && SpellsPrefix(pattern, s)
    ensures Step(co, pattern, s).Ok? && SpellsPrefix(pattern, Step(co, pattern, s).value)
  {
    var c := pattern[s.pointer];
    var n := s.pointer + 1;
    var tokens := s.tokens + [RightParenthesis];
    var s' := if c == ')' then Scanner(RightParenthesisState, n, "", tokens) else Scanner(LiteralState, n, [c], tokens);
    assert RightParenthesisStep(co, pattern, s.(pointer := n), c) == s';
    PendingParenthesisSpellsPrefix(pattern, s, s');
  }

  /** The scanner after a character read in RIGHT_PARENTHESIS state, with the
      pending `)` emitted, still spells the text read so far. */
  lemma PendingParenthesisSpellsPrefix(pattern: string, s: Scanner, s': Scanner)
    requires s.pointer < |pattern| && s.state == RightParenthesisState && SpellsPrefix(pattern, s)
    requires pattern[s.pointer] != '\\' && pattern[s.pointer] != '%' && pattern[s.pointer] != '{'
    requires s'.pointer == s.pointer + 1 && s'.tokens == s.tokens + [RightParenthesis]
    requires pattern[s.pointer] == ')' ==> s'.state == RightParenthesisState && s'.buf == ""
    requires pattern[s.pointer] != ')' ==> s'.state == LiteralState && s'.buf == [pattern[s.pointer]]
    ensures SpellsPrefix(pattern, s')
  {
    DetokenizeAppend(s.tokens, RightParenthesis);
    AppendKeepsLiteralsAndParentheses(s.tokens, RightParenthesis);
    assert pattern[..s'.pointer] == pattern[..s.pointer] + [pattern[s.pointer]];
    assert Detokenize(s'.tokens) == pattern[..s.pointer];
  }

  /** On parenthesized text, one step keeps the tokens, the pending parenthesis
      and the buffer spelling the text read so far. */
  lemma StepSpellsPrefix(co: Collaborators, pattern: string, s: Scanner)
    requires OptionScannerAdvances(co, pattern)
    requires ParenthesizedText(pattern)
    requires s.pointer < |pattern| && SpellsPrefix(pattern, s)
    ensures Step(co, pattern, s).Ok? && SpellsPrefix(pattern, Step(co, pattern, s).value)
  {
    var c := pattern[s.pointer];
    assert c != '\\' && c != '%' && c != '{';
    if s.state == RightParenthesisState {
      RightParenthesisSpellsPrefix(co, pattern, s);
    } else if c == ')' {
      LiteralParenthesisSpellsPrefix(co, pattern, s);
    } else {
      LiteralPlainSpellsPrefix(co, pattern, s);
    }
  }

  lemma {:induction false} RunSpellsPattern(co: Collaborators, pattern: string, s: Scanner)
    requires OptionScannerAdvances(co, pattern)
    requires ParenthesizedText(pattern)
    requires SpellsPrefix(pattern, s)
    ensures Run(co, pattern, s).Ok? && SpellsPrefix(pattern, Run(co, pattern, s).value)
    decreases |pattern| - s.pointer
  {
    if s.pointer < |pattern| {
      StepSpellsPrefix(co, pattern, s);
      RunSpellsPattern(co, pattern, Step(co, pattern, s).value);
    }
  }

  lemma EndSpellsPattern(pattern: string, f: Scanner)
    requires SpellsPrefix(pattern, f) && f.pointer == |pattern|
    ensures EndOfPattern(f).Ok?
    ensures LiteralsAndParentheses(EndOfPattern(f).value)
    ensures Detokenize(EndOfPattern(f).value) == pattern
  {
    assert pattern[..f.pointer] == pattern;
    if f.state == LiteralState {
      if |f.buf| > 0 {
        assert EndOfPattern(f) == Ok(f.tokens + [Literal(f.buf)]);
        DetokenizeAppend(f.tokens, Literal(f.buf));
        AppendKeepsLiteralsAndParentheses(f.tokens, Literal(f.buf));
      } else {
        assert EndOfPattern(f) == Ok(f.tokens);
      }
    } else {
      assert EndOfPattern(f) == Ok(f.tokens + [RightParenthesis]);
      DetokenizeAppend(f.tokens, RightParenthesis);
      AppendKeepsLiteralsAndParentheses(f.tokens, RightParenthesis);
    }
  }

  /** Lexing text made of literal characters and parentheses loses nothing: it
      never fails, every `)` becomes exactly one RIGHT_PARENTHESIS token, the text
      between them becomes non-empty LITERAL tokens, and together they spell the
      pattern again. */
  lemma ParenthesizedRoundTrip(co: Collaborators, pattern: string)
    requires OptionScannerAdvances(co, pattern)
    requires ParenthesizedText(pattern)
    ensures Tokenize(co, pattern).Ok?
    ensures LiteralsAndParentheses(Tokenize(co, pattern).value)
    ensures Detokenize(Tokenize(co, pattern).value) == pattern
  {
    assert SpellsPrefix(pattern, Initial) by {
      assert pattern[..0] == "";
    }
    RunSpellsPattern(co, pattern, Initial);
    EndSpellsPattern(pattern, Run(co, pattern, Initial).value);
  }

  /** The constructor's guard: a null (None) or empty pattern is an
      IllegalArgumentException. */
  datatype IllegalArgument = NullOrEmptyPattern

  class TokenStream {
    const pattern: string
    const patternLength: nat
    const co: Collaborators
    var state: TokenizerState
    var pointer: nat

    ghost predicate Valid()
      reads this
    {
      patternLength == |pattern| > 0 && pointer <= patternLength
    }

    /** The constructor once its guard has passed. */
    constructor (pattern: string, co: Collaborators)
      requires |pattern| > 0
      ensures Valid()
      ensures this.pattern == pattern && this.co == co
      ensures state == LiteralState && pointer == 0
    {
      this.pattern := pattern;
      this.patternLength := |pattern|;
      this.co := co;
      this.state := LiteralState;
      this.pointer := 0;
    }

    /** `new TokenStream(pattern, escapeUtil)`: refuses a null or empty pattern. */
    static method Create(pattern: Option<string>, co: Collaborators) returns (r: Result<TokenStream, IllegalArgument>)
      ensures r.Err? <==> pattern == None || pattern == Some("")
      ensures r.Ok? ==> fresh(r.value) && r.value.Valid() && r.value.pattern == pattern.value
      ensures r.Ok? ==> r.value.co == co && r.value.state == LiteralState && r.value.pointer == 0
    {
      if pattern.None? || |pattern.value| == 0 {
        return Err(NullOrEmptyPattern);
      }
      var ts := new TokenStream(pattern.value, co);
      return Ok(ts);
    }

    method AddValuedToken(kind: ValuedKind, buf: string, tokenList: seq<Token>) returns (buf': string, tokenList': seq<Token>)
      ensures Scanner(state, pointer, buf', tokenList') == Flush(kind, Scanner(state, pointer, buf, tokenList))
    {
      tokenList' := tokenList;
      if |buf| > 0 {
        tokenList' := tokenList' + [ValuedToken(kind, buf)];
      }
      buf' := "";
    }

    method Escape(escapeChars: string, buf: string) returns (buf': string)
      requires Valid()
      modifies this`pointer
      ensures Valid()
      ensures var e := EscapeNext(co, pattern, escapeChars, Scanner(state, old(pointer), buf, []));
        pointer == e.pointer && buf' == e.buf
    {
      buf' := buf;
      if pointer < patternLength {
        var next := pattern[pointer];
        pointer := pointer + 1;
        buf' := buf' + co.escape(escapeChars, next);
      }
    }

    method HandleLiteralState(c: char, tokenList: seq<Token>, buf: string) returns (tokenList': seq<Token>, buf': string)
      requires Valid()
      modifies this
      ensures Valid()
      ensures Scanner(state, pointer, buf', tokenList')
           == LiteralStep(co, pattern, Scanner(old(state), old(pointer), buf, tokenList), c)
    {
      tokenList', buf' := tokenList, buf;
      match c
      case '\\' =>
        buf' := Escape(LITERAL_ESCAPE_CHARS, buf');
      case '%' =>
        buf', tokenList' := AddValuedToken(LiteralKind, buf', tokenList');
        tokenList' := tokenList' + [Percent];
        state := FormatModifierState;
      case ')' =>
        buf', tokenList' := AddValuedToken(LiteralKind, buf', tokenList');
        state := RightParenthesisState;
      case _ =>
        buf' := buf' + [c];
    }

    method HandleFormatModifierState(c: char, tokenList: seq<Token>, buf: string) returns (tokenList': seq<Token>, buf': string)
      requires Valid()
      modifies this`state
      ensures Valid()
      ensures Scanner(state, pointer, buf', tokenList')
           == FormatModifierStep(co, Scanner(old(state), pointer, buf, tokenList), c)
    {
      tokenList', buf' := tokenList, buf;
      if c == '(' {
        buf', tokenList' := AddValuedToken(FormatModifierKind, buf', tokenList');
        tokenList' := tokenList' + [BareCompositeKeyword];
        state := LiteralState;
      } else if co.isIdentifierStart(c) {
        buf', tokenList' := AddValuedToken(FormatModifierKind, buf', tokenList');
        state := KeywordState;
        buf' := buf' + [c];
      } else {
        buf' := buf' + [c];
      }
    }

    method HandleKeywordState(c: char, tokenList: seq<Token>, buf: string) returns (tokenList': seq<Token>, buf': string)
      requires Valid()
      modifies this
      ensures Valid()
      ensures Scanner(state, pointer, buf', tokenList')
           == KeywordStep(co, pattern, Scanner(old(state), old(pointer), buf, tokenList), c)
    {
      tokenList', buf' := tokenList, buf;
      if co.isIdentifierPart(c) {
        buf' := buf' + [c];
      } else if c == '{' {
        buf', tokenList' := AddValuedToken(SimpleKeywordKind, buf', tokenList');
        state := OptionState;
      } else if c == '(' {
        buf', tokenList' := AddValuedToken(CompositeKeywordKind, buf', tokenList');
        state := LiteralState;
      } else if c == '%' {
        buf', tokenList' := AddValuedToken(SimpleKeywordKind, buf', tokenList');
        tokenList' := tokenList' + [Percent];
        state := FormatModifierState;
      } else if c == ')' {
        buf', tokenList' := AddValuedToken(SimpleKeywordKind, buf', tokenList');
        state := RightParenthesisState;
      } else {
        buf', tokenList' := AddValuedToken(SimpleKeywordKind, buf', tokenList');
        if c == '\\' {
          if pointer < patternLength {
            var next := pattern[pointer];
            pointer := pointer + 1;
            buf' := buf' + co.escape(LITERAL_ESCAPE_CHARS, next);
          }
        } else {
          buf' := buf' + [c];
        }
        state := LiteralState;
      }
    }

    method HandleRightParenthesisState(c: char, tokenList: seq<Token>, buf: string) returns (tokenList': seq<Token>, buf': string)
      requires Valid()
      modifies this
      ensures Valid()
      ensures Scanner(state, pointer, buf', tokenList')
           == RightParenthesisStep(co, pattern, Scanner(old(state), old(pointer), buf, tokenList), c)
    {
      tokenList', buf' := tokenList + [RightParenthesis], buf;
      match c
      case ')' =>
      case '{' =>
        state := OptionState;
      case '\\' =>
        buf' := Escape(RIGHT_PARENTHESIS_ESCAPE_CHARS, buf');
        state := LiteralState;
      case _ =>
        buf' := buf' + [c];
        state := LiteralState;
    }

    method ProcessOption(c: char, tokenList: seq<Token>) returns (r: Result<seq<Token>, ScanError>)
      requires Valid() && OptionScannerAdvances(co, pattern)
      modifies this
      ensures Valid()
      ensures var o := OptionStep(co, pattern, Scanner(old(state), old(pointer), "", tokenList), c);
        r.Err? == o.Err? &&
        (r.Err? ==> r.error == o.error) &&
        (r.Ok? ==> r.value == o.value.tokens && state == o.value.state && pointer == o.value.pointer)
    {
      var o := co.scanOptions(pattern, pointer, c);
      match o
      case OptionsFailed =>
        r := Err(OptionScanFailure);
      case OptionsRead(options, next) =>
        pointer := next;
        state := LiteralState;
        r := Ok(tokenList + [Options(options)]);
    }

    /** tokenize: the scanning loop, then the end-of-pattern switch. */
    method Tokenize() returns (r: Result<seq<Token>, ScanError>)
      requires Valid() && OptionScannerAdvances(co, pattern)
      modifies this
      ensures r == Scan(co, pattern, Scanner(old(state), old(pointer), "", []))
    {
      var tokenList: seq<Token> := [];
      var buf: string := "";
      ghost var start := Scanner(state, pointer, buf, tokenList);
      while pointer < patternLength
        invariant Valid()
        invariant Scan(co, pattern, Scanner(state, pointer, buf, tokenList)) == Scan(co, pattern, start)
        decreases patternLength - pointer
      {
        ghost var before := Scanner(state, pointer, buf, tokenList);
        var c := pattern[pointer];
        pointer := pointer + 1;
        match state {
          case LiteralState =>
            tokenList, buf := HandleLiteralState(c, tokenList, buf);
          case FormatModifierState =>
            tokenList, buf := HandleFormatModifierState(c, tokenList, buf);
          case OptionState =>
            var o := ProcessOption(c, tokenList);
            if o.Err? {
              assert Step(co, pattern, before) == Err(o.error);
              return Err(o.error);
            }
            tokenList := o.value;
          case KeywordState =>
            tokenList, buf := HandleKeywordState(c, tokenList, buf);
          case RightParenthesisState =>
            tokenList, buf := HandleRightParenthesisState(c, tokenList, buf);
        }
        assert Step(co, pattern, before) == Ok(Scanner(state, pointer, buf, tokenList));
      }
      assert Run(co, pattern, Scanner(state, pointer, buf, tokenList)) == Ok(Scanner(state, pointer, buf, tokenList));
      match state
      case LiteralState =>
        buf, tokenList := AddValuedToken(LiteralKind, buf, tokenList);
        r := Ok(tokenList);
      case KeywordState =>
        r := Ok(tokenList + [SimpleKeyword(buf)]);
      case RightParenthesisState =>
        r := Ok(tokenList + [RightParenthesis]);
      case FormatModifierState =>
        r := Err(UnexpectedEndOfPattern);
      case OptionState =>
        r := Err(UnexpectedEndOfPattern);
    }
  }
}
