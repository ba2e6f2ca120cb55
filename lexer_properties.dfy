/** What the tokenizer promises about its output, proved of the reference
    scan that `Lexer.Tokenize` is shown to compute. */
module LexerProperties {
  import opened Chars
  import opened Lexer

  /** The shape a token of each kind has. */
  predicate WellFormed(t: Token) {
    match t.kind
    case Num => |t.text| > 0 && forall i :: 0 <= i < |t.text| ==> IsDigit(t.text[i])
    case Name => |t.text| > 0 && forall i :: 0 <= i < |t.text| ==> IsAlpha(t.text[i])
    case Assign => t.text == "="
    case Op => |t.text| == 1 && IsOperator(t.text[0])
  }

  /** The lexeme's text is non-empty and is the input's slice at its offset. */
  predicate Occurs(text: string, l: Lexeme) {
    l.End() <= |text| && 0 < |l.token.text| && text[l.start..l.End()] == l.token.text
  }

  /** A run token is neither preceded nor followed by a character that its
      run could have taken (vacuous for ASSIGN and OP). */
  predicate Maximal(text: string, l: Lexeme)
    requires l.End() <= |text|
  {
    (l.start == 0 || !RunChar(l.token.kind, text[l.start - 1]))
    && (l.End() == |text| || !RunChar(l.token.kind, text[l.End()]))
  }

  /** The outer loop never stops between two characters of the same run. */
  predicate AtBoundary(text: string, n: nat) {
    0 < n < |text| ==>
      !(IsDigit(text[n - 1]) && IsDigit(text[n])) && !(IsAlpha(text[n - 1]) && IsAlpha(text[n]))
  }

  /** Each lexeme of the scan is a non-empty slice of the input at its
      offset; the lexemes come in input order without overlapping; and there
      are at most as many as characters scanned. */
  lemma {:induction false} ScanLayout(text: string, n: nat)
    requires n <= |text|
    ensures |Scan(text, n)| <= |text| - n
    ensures forall i :: 0 <= i < |Scan(text, n)| ==>
      n <= Scan(text, n)[i].start && Occurs(text, Scan(text, n)[i])
    ensures forall i, j :: 0 <= i < j < |Scan(text, n)| ==>
      Scan(text, n)[i].End() <= Scan(text, n)[j].start
    decreases |text| - n
  {
    if n < |text| {
      var m := StepEnd(text, n);
      ScanStep(text, n);
      ScanLayout(text, m);
      if Classify(text[n]) in Kept {
        var rest := Scan(text, m);
        var l := Scan(text, n)[0];
        assert l.End() == m;
        assert Scan(text, n) == [l] + rest;
        forall i | 0 < i < |Scan(text, n)|
          ensures Scan(text, n)[i] == rest[i - 1]
        {
        }
      }
    }
  }

  /** Every token the scan produces has the shape of its kind. */
  lemma {:induction false} ScanWellFormed(text: string, n: nat)
    requires n <= |text|
    ensures forall i :: 0 <= i < |Scan(text, n)| ==> WellFormed(Scan(text, n)[i].token)
    decreases |text| - n
  {
    if n < |text| {
      var m := StepEnd(text, n);
      ScanStep(text, n);
      ScanWellFormed(text, m);
    }
  }

  /** Longest match: started at a boundary, every run token of the scan is
      maximal on both sides. */
  lemma {:induction false} ScanMaximal(text: string, n: nat)
    requires n <= |text| && AtBoundary(text, n)
    ensures forall i :: 0 <= i < |Scan(text, n)| ==>
      Scan(text, n)[i].End() <= |text| && Maximal(text, Scan(text, n)[i])
    decreases |text| - n
  {
    if n < |text| {
      var m := StepEnd(text, n);
      ScanStep(text, n);
      assert AtBoundary(text, m) by {
        if 0 < m < |text| {
          assert m - 1 == n || RunChar(KindOf(Classify(text[n])), text[m - 1]);
        }
      }
      ScanMaximal(text, m);
    }
  }

  /** The token texts of the scan, joined, are the scanned text with
      whitespace and bad characters deleted. */
  lemma {:induction false} ScanConcat(text: string, n: nat)
    requires n <= |text|
    ensures Concat(TokensOf(Scan(text, n))) == Select(text[n..], Kept)
    decreases |text| - n
  {
    if n == |text| {
      assert text[n..] == [];
    } else {
      var m := StepEnd(text, n);
      ScanStep(text, n);
      ScanConcat(text, m);
      assert text[n..] == text[n..m] + text[m..];
      SelectAppend(text[n..m], text[m..], Kept);
      var rest := TokensOf(Scan(text, m));
      if Classify(text[n]) in Kept {
        SelectAll(text[n..m], Kept);
        var t := Scan(text, n)[0].token;
        assert TokensOf(Scan(text, n)) == [t] + rest;
        assert ([t] + rest)[1..] == rest;
        assert Concat([t] + rest) == t.text + Concat(rest);
      } else {
        SelectNone(text[n..m], Kept);
      }
    }
  }

  /** Every token of `tokenize(text)` has the shape of its kind: NUM a
      non-empty run of digits, NAME a non-empty run of letters, ASSIGN exactly
      `=`, OP exactly one of `+ - * /`. */
  lemma TokensWellFormed(text: string)
    ensures forall i :: 0 <= i < |Tokenization(text)| ==> WellFormed(Tokenization(text)[i])
  {
    ScanWellFormed(text, 0);
  }

  /** Each token is the input's text at its offset, the offsets increase, no
      two tokens overlap, and there are no more tokens than characters. */
  lemma TokensInInputOrder(text: string)
    ensures |Tokenization(text)| <= |text|
    ensures forall i :: 0 <= i < |Scan(text, 0)| ==>
      Occurs(text, Scan(text, 0)[i]) && Scan(text, 0)[i].token == Tokenization(text)[i]
    ensures forall i, j :: 0 <= i < j < |Scan(text, 0)| ==>
      Scan(text, 0)[i].start < Scan(text, 0)[i].End() <= Scan(text, 0)[j].start
  {
    ScanLayout(text, 0);
  }

  /** Every NUM and NAME token is a longest run: the character before it and
      the one after it (when there is one) are not of its run's class. */
  lemma TokensMaximal(text: string)
    ensures forall i :: 0 <= i < |Scan(text, 0)| ==>
      Scan(text, 0)[i].End() <= |text| && Maximal(text, Scan(text, 0)[i])
  {
    ScanMaximal(text, 0);
  }

  /** Joining the token texts gives back the input with every character that
      is not a digit, a letter, `=`, `+`, `-`, `*` or `/` deleted: nothing is
      duplicated, dropped or reordered. */
  lemma TokensSpellInput(text: string)
    ensures Concat(Tokenization(text)) == Select(text, Kept)
  {
    ScanConcat(text, 0);
    assert text[0..] == text;
  }

  /** Every character of the input is accounted for exactly once: it is in a
      token's text, or it is whitespace, or it is bad (and so reported). */
  lemma EveryCharacterAccounted(text: string)
    ensures |Concat(Tokenization(text))| + |Select(text, {Space})| + |Select(text, {Bad})| == |text|
  {
    TokensSpellInput(text);
    SelectPartition(text);
  }

  /** A text that is a single run of digits is a single NUM token. */
  lemma DigitsAreOneNumber(text: string)
    requires |text| > 0 && forall i :: 0 <= i < |text| ==> IsDigit(text[i])
    ensures Tokenization(text) == [Token(Num, text)]
  {
    var m := RunEnd(text, 0, Num);
    assert m == |text|;
    assert text[0..m] == text;
    assert Scan(text, 0) == [Lexeme(Token(Num, text), 0)];
  }

  /** The example input of the tokenizer. */
  const ExampleText: string := "spam = x + 34 * 567"

  /** The lexemes of the example from offset 9 on. */
  lemma ExampleTail()
    ensures Scan(ExampleText, 9)
      == [Lexeme(Token(Op, "+"), 9), Lexeme(Token(Num, "34"), 11),
          Lexeme(Token(Op, "*"), 14), Lexeme(Token(Num, "567"), 16)]
  {
    var s := ExampleText;
    assert Scan(s, 16) == [Lexeme(Token(Num, "567"), 16)] by {
      assert RunEnd(s, 16, Num) == 19;
      assert s[16..19] == "567";
    }
    assert Scan(s, 11) == [Lexeme(Token(Num, "34"), 11)] + Scan(s, 13) by {
      assert RunEnd(s, 11, Num) == 13;
      assert s[11..13] == "34";
    }
  }

  /** The first lexeme of the example, `spam`, and where the scan goes on. */
  lemma ExampleHead()
    ensures Scan(ExampleText, 0) == [Lexeme(Token(Name, "spam"), 0)] + Scan(ExampleText, 4)
  {
    assert RunEnd(ExampleText, 0, Name) == 4;
    assert ExampleText[0..4] == "spam";
  }

  /** The lexemes of the example from offset 4 up to offset 9. */
  lemma ExampleMiddle()
    ensures Scan(ExampleText, 4)
      == [Lexeme(Token(Assign, "="), 5), Lexeme(Token(Name, "x"), 7)] + Scan(ExampleText, 9)
  {
    var s := ExampleText;
    assert Scan(s, 8) == Scan(s, 9);
    assert Scan(s, 7) == [Lexeme(Token(Name, "x"), 7)] + Scan(s, 8) by {
      assert RunEnd(s, 7, Name) == 8 && s[7..8] == "x";
    }
    assert Scan(s, 6) == Scan(s, 7);
    assert Scan(s, 5) == [Lexeme(Token(Assign, "="), 5)] + Scan(s, 6);
  }

  /** The lexemes of the example. */
  lemma ExampleScan()
    ensures Scan(ExampleText, 0)
      == [Lexeme(Token(Name, "spam"), 0), Lexeme(Token(Assign, "="), 5),
          Lexeme(Token(Name, "x"), 7), Lexeme(Token(Op, "+"), 9),
          Lexeme(Token(Num, "34"), 11), Lexeme(Token(Op, "*"), 14),
          Lexeme(Token(Num, "567"), 16)]
  {
    ExampleHead();
    ExampleMiddle();
    ExampleTail();
  }

  /** The assertion that accompanies the tokenizer: the tokens of
      "spam = x + 34 * 567". */
  lemma Example()
    ensures Tokenization(ExampleText)
      == [Token(Name, "spam"), Token(Assign, "="), Token(Name, "x"),
          Token(Op, "+"), Token(Num, "34"), Token(Op, "*"), Token(Num, "567")]
  {
    ExampleScan();
  }
}
