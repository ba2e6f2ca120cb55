/** The warm-up tokenizer: a left-to-right scan of a string that turns runs of
    digits into NUM tokens, runs of letters into NAME tokens, `=` into an
    ASSIGN token and each of `+ - * /` into an OP token, skipping whitespace
    and reporting (then skipping) any other character. */
module Lexer {
  import opened Chars

  /** The token tags NUM, NAME, ASSIGN and OP. */
  datatype Kind = Num | Name | Assign | Op

  /** A `(kind, text)` pair as the tokenizer returns it. */
  datatype Token = Token(kind: Kind, text: string)

  /** A token together with the offset in the input where its text starts. */
  datatype Lexeme = Lexeme(token: Token, start: nat) {
    function End(): nat { start + |token.text| }
  }

  /** The characters that the inner loop for a kind keeps consuming. */
  predicate RunChar(k: Kind, c: char) {
    match k
    case Num => IsDigit(c)
    case Name => IsAlpha(c)
    case _ => false
  }

  /** The end of the longest run of `k`-characters that starts at `n`. */
  function RunEnd(text: string, n: nat, k: Kind): (m: nat)
    requires n <= |text|
    ensures n <= m <= |text|
    ensures forall j :: n <= j < m ==> RunChar(k, text[j])
    ensures m == |text| || !RunChar(k, text[m])
    decreases |text| - n
  {
    if n < |text| && RunChar(k, text[n]) then RunEnd(text, n + 1, k) else n
  }

  /** The reference scan from offset `n`: the lexemes the tokenizer produces
      from `text[n..]`, one step of its outer loop per case. */
  function Scan(text: string, n: nat): seq<Lexeme>
    requires n <= |text|
    decreases |text| - n
  {
    if n == |text| then []
    else
      match Classify(text[n])
      case Space => Scan(text, n + 1)
      case Digit =>
        var m := RunEnd(text, n, Num);
        [Lexeme(Token(Num, text[n..m]), n)] + Scan(text, m)
      case Letter =>
        var m := RunEnd(text, n, Name);
        [Lexeme(Token(Name, text[n..m]), n)] + Scan(text, m)
      case Equals => [Lexeme(Token(Assign, "="), n)] + Scan(text, n + 1)
      case Operator => [Lexeme(Token(Op, [text[n]]), n)] + Scan(text, n + 1)
      case Bad => Scan(text, n + 1)
  }

  /** The kind of token a character of a kept class starts. */
  function KindOf(c: CharClass): Kind
    requires c in Kept
  {
    match c
    case Digit => Num
    case Letter => Name
    case Equals => Assign
    case Operator => Op
  }

  /** Where one step of the outer loop, taken at `n`, leaves the index: past
      the whole run for a digit or a letter, past the one character otherwise. */
  function StepEnd(text: string, n: nat): (m: nat)
    requires n < |text|
    ensures n < m <= |text|
    ensures Classify(text[n]) !in {Digit, Letter} ==> m == n + 1
  {
    match Classify(text[n])
    case Digit => RunEnd(text, n, Num)
    case Letter => RunEnd(text, n, Name)
    case _ => n + 1
  }

  /** One step of the scan in a uniform shape: a kept character starts a
      lexeme that spans the step, any other character yields nothing. */
  lemma ScanStep(text: string, n: nat)
    requires n < |text|
    ensures Scan(text, n) ==
      (if Classify(text[n]) in Kept
       then [Lexeme(Token(KindOf(Classify(text[n])), text[n..StepEnd(text, n)]), n)]
       else [])
      + Scan(text, StepEnd(text, n))
  {
    if Classify(text[n]) == Equals {
      assert text[n..n + 1] == "=";
    } else if Classify(text[n]) == Operator {
      assert text[n..n + 1] == [text[n]];
    }
  }

  /** The tokens of a sequence of lexemes, in order. */
  function TokensOf(ls: seq<Lexeme>): (ts: seq<Token>)
    ensures |ts| == |ls|
    ensures forall i :: 0 <= i < |ls| ==> ts[i] == ls[i].token
  {
    if ls == [] then [] else [ls[0].token] + TokensOf(ls[1..])
  }

  /** What `tokenize(text)` returns. */
  function Tokenization(text: string): seq<Token> {
    TokensOf(Scan(text, 0))
  }

  /** The texts of the tokens joined in order. */
  function Concat(ts: seq<Token>): string {
    if ts == [] then [] else ts[0].text + Concat(ts[1..])
  }

  /** The tokenizer as written: an index `n` moves left to right, inner loops
      extend digit and letter runs, and tokens are only ever appended. The
      diagnostic printed for a bad character is returned as `reported`, one
      character per diagnostic, in order. Every input is accepted. */
  method Tokenize(text: string) returns (tokens: seq<Token>, reported: string)
    ensures tokens == Tokenization(text)
    ensures reported == Select(text, {Bad})
  {
    tokens := [];
    reported := [];
    var n := 0;
    while n < |text|
      invariant 0 <= n <= |text|
      invariant Progress(tokens, reported, text, n)
      decreases |text| - n
    {
      if IsSpace(text[n]) {
        SkipStep(tokens, reported, text, n);
        n := n + 1;
      } else if IsDigit(text[n]) {
        var start := n;
        while n < |text| && IsDigit(text[n])
          invariant start <= n <= |text|
          invariant RunEnd(text, n, Num) == RunEnd(text, start, Num)
          decreases |text| - n
        {
          n := n + 1;
        }
        RunStep(tokens, reported, text, start, Num);
        tokens := tokens + [Token(Num, text[start..n])];
      } else if IsAlpha(text[n]) {
        var start := n;
        while n < |text| && IsAlpha(text[n])
          invariant start <= n <= |text|
          invariant RunEnd(text, n, Name) == RunEnd(text, start, Name)
          decreases |text| - n
        {
          n := n + 1;
        }
        RunStep(tokens, reported, text, start, Name);
        tokens := tokens + [Token(Name, text[start..n])];
      } else if text[n] == '=' {
        SingleStep(tokens, reported, text, n, Token(Assign, "="));
        tokens := tokens + [Token(Assign, "=")];
        n := n + 1;
      } else if IsOperator(text[n]) {
        SingleStep(tokens, reported, text, n, Token(Op, [text[n]]));
        tokens := tokens + [Token(Op, [text[n]])];
        n := n + 1;
      } else {
        SkipStep(tokens, reported, text, n);
        reported := reported + [text[n]];
        n := n + 1;
      }
    }
    assert text[..n] == text;
  }

  /** The invariant of the outer loop of `Tokenize` at offset `n`: the
      tokens so far followed by those of the rest of the scan are the whole
      result, and the report holds the bad characters before `n`. */
  ghost predicate Progress(tokens: seq<Token>, reported: string, text: string, n: nat)
    requires n <= |text|
  {
    tokens + TokensOf(Scan(text, n)) == Tokenization(text)
    && reported == Select(text[..n], {Bad})
  }

  /** Skipping whitespace or a bad character keeps the invariant, the bad
      character being reported. */
  lemma SkipStep(tokens: seq<Token>, reported: string, text: string, n: nat)
    requires n < |text| && Classify(text[n]) in {Space, Bad}
    requires Progress(tokens, reported, text, n)
    ensures Progress(tokens, if Classify(text[n]) == Bad then reported + [text[n]] else reported, text, n + 1)
  {
    assert Scan(text, n) == Scan(text, n + 1);
    ReportOne(text, n);
  }

  /** Consuming a maximal digit or letter run and appending its token keeps
      the invariant. The conjunct `!IsSpace(text[n])` follows from
      `RunChar(k, text[n])`; it is stated so that the caller's branch
      condition hands it over directly, which keeps `Tokenize` within the
      solver's budget. */
  lemma RunStep(tokens: seq<Token>, reported: string, text: string, n: nat, k: Kind)
    requires n < |text| && RunChar(k, text[n]) && !IsSpace(text[n])
    requires Progress(tokens, reported, text, n)
    ensures Progress(tokens + [Token(k, text[n..RunEnd(text, n, k)])], reported, text, RunEnd(text, n, k))
  {
    var m := RunEnd(text, n, k);
    assert Scan(text, n) == [Lexeme(Token(k, text[n..m]), n)] + Scan(text, m);
    AppendLexeme(tokens, text, n, Token(k, text[n..m]), m);
    ReportRun(text, n, k);
  }

  /** Appending the token of `=` or of an operator keeps the invariant. */
  lemma SingleStep(tokens: seq<Token>, reported: string, text: string, n: nat, t: Token)
    requires n < |text| && Classify(text[n]) in {Equals, Operator}
    requires t == if text[n] == '=' then Token(Assign, "=") else Token(Op, [text[n]])
    requires Progress(tokens, reported, text, n)
    ensures Progress(tokens + [t], reported, text, n + 1)
  {
    assert Scan(text, n) == [Lexeme(t, n)] + Scan(text, n + 1);
    AppendLexeme(tokens, text, n, t, n + 1);
    ReportOne(text, n);
  }

  /** When the scan at `n` yields `t` and moves on to `m`, appending `t` to
      the tokens already produced keeps them a prefix of the whole result. */
  lemma AppendLexeme(tokens: seq<Token>, text: string, n: nat, t: Token, m: nat)
    requires n <= m <= |text|
    requires Scan(text, n) == [Lexeme(t, n)] + Scan(text, m)
    ensures tokens + TokensOf(Scan(text, n)) == (tokens + [t]) + TokensOf(Scan(text, m))
  {
  }

  /** Skipping the one character at `n` adds it to the report exactly when
      it is bad. */
  lemma ReportOne(text: string, n: nat)
    requires n < |text|
    ensures Select(text[..n + 1], {Bad}) ==
      Select(text[..n], {Bad}) + (if Classify(text[n]) == Bad then [text[n]] else [])
  {
    assert text[..n + 1] == text[..n] + [text[n]];
    SelectAppend(text[..n], [text[n]], {Bad});
    assert [text[n]][1..] == [];
  }

  /** Consuming a run adds nothing to the report. */
  lemma ReportRun(text: string, n: nat, k: Kind)
    requires n <= |text|
    ensures Select(text[..RunEnd(text, n, k)], {Bad}) == Select(text[..n], {Bad})
  {
    var m := RunEnd(text, n, k);
    assert text[..m] == text[..n] + text[n..m];
    SelectAppend(text[..n], text[n..m], {Bad});
    SelectNone(text[n..m], {Bad});
  }
}
