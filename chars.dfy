/** Character classes used by the tokenizer, and the order in which the
    tokenizer tries them. */
module Chars {

  /** Python's `str.isspace`: the code points whose bidirectional class is
      WS, B or S, or whose general category is Zs. */
  predicate IsSpace(c: char) {
    var u := c as int;
    (0x09 <= u <= 0x0D) || (0x1C <= u <= 0x20) || u == 0x85 || u == 0xA0
    || u == 0x1680 || (0x2000 <= u <= 0x200A) || u == 0x2028 || u == 0x2029
    || u == 0x202F || u == 0x205F || u == 0x3000
  }

  /** `str.isdigit`, restricted to the ASCII digits. */
  predicate IsDigit(c: char) {
    '0' <= c <= '9'
  }

  /** `str.isalpha`, restricted to the ASCII letters. */
  predicate IsAlpha(c: char) {
    ('a' <= c <= 'z') || ('A' <= c <= 'Z')
  }

  /** The one-character arithmetic operators. */
  predicate IsOperator(c: char) {
    c == '+' || c == '-' || c == '*' || c == '/'
  }

  /** Which branch of the tokenizer's if/elif chain a character takes. */
  datatype CharClass = Space | Digit | Letter | Equals | Operator | Bad

  /** The classes whose characters end up in some token's text. */
  const Kept: set<CharClass> := {Digit, Letter, Equals, Operator}

  /** Tries the tests in the tokenizer's order, so that every character lands
      in exactly one class; the earlier tests never shadow a digit or a letter. */
  function Classify(c: char): (k: CharClass)
    ensures k == Digit <==> IsDigit(c)
    ensures k == Letter <==> IsAlpha(c)
    ensures k == Equals <==> c == '='
    ensures k == Operator <==> IsOperator(c)
    ensures k == Space <==> IsSpace(c)
  {
    if IsSpace(c) then Space
    else if IsDigit(c) then Digit
    else if IsAlpha(c) then Letter
    else if c == '=' then Equals
    else if IsOperator(c) then Operator
    else Bad
  }

  /** The characters of `s` whose class is one of `classes`, in their order in `s`. */
  function Select(s: string, classes: set<CharClass>): (r: string)
    ensures |r| <= |s|
    ensures forall i :: 0 <= i < |r| ==> Classify(r[i]) in classes
  {
    if s == [] then []
    else if Classify(s[0]) in classes then [s[0]] + Select(s[1..], classes)
    else Select(s[1..], classes)
  }

  /** Selecting from a concatenation selects from each part. */
  lemma {:induction false} SelectAppend(s: string, t: string, classes: set<CharClass>)
    ensures Select(s + t, classes) == Select(s, classes) + Select(t, classes)
  {
    if s == [] {
      assert s + t == t;
    } else {
      assert (s + t)[1..] == s[1..] + t;
      SelectAppend(s[1..], t, classes);
    }
  }

  /** A string all of whose characters are selected is its own selection. */
  lemma {:induction false} SelectAll(s: string, classes: set<CharClass>)
    requires forall i :: 0 <= i < |s| ==> Classify(s[i]) in classes
    ensures Select(s, classes) == s
  {
    if s != [] {
      SelectAll(s[1..], classes);
    }
  }

  /** A string none of whose characters is selected selects nothing. */
  lemma {:induction false} SelectNone(s: string, classes: set<CharClass>)
    requires forall i :: 0 <= i < |s| ==> Classify(s[i]) !in classes
    ensures Select(s, classes) == []
  {
    if s != [] {
      SelectNone(s[1..], classes);
    }
  }

  /** Every character is kept, whitespace or bad: the three selections
      together are as long as the string. */
  lemma {:induction false} SelectPartition(s: string)
    ensures |Select(s, Kept)| + |Select(s, {Space})| + |Select(s, {Bad})| == |s|
  {
    if s != [] {
      SelectPartition(s[1..]);
    }
  }
}
