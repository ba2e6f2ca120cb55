# Warm-up tokenizer, modelled in Dafny

The repository's one piece of algorithmic code is the warm-up tokenizer
`tokenize(text)` in `warmup/soln/ex1.py`. It scans a string from left to right
with an index `n` and appends `(kind, text)` pairs to a list:

- NUM for a maximal run of digits;
- NAME for a maximal run of letters;
- ASSIGN for `=`;
- OP for one of `+ - * /`.

Whitespace is skipped. Any other character is reported on the console and
skipped as well, so tokenizing never fails.

The project has three modules:

- `Chars` (chars.dfy): the character tests and `Classify`, which tries them in
  the tokenizer's if/elif order so that every character takes exactly one
  branch. It also holds `Select`, the characters of a string whose class is in
  a given set, in order.
- `Lexer` (lexer.dfy): the `Kind`, `Token` and `Lexeme` datatypes, the reference
  scan `Scan` and the method `Tokenize`. `Scan` is a recursive function with
  one case per branch of the outer loop. It also records where each token
  starts in the input. `Tokenization(text)` is the list of tokens it yields.
  `Tokenize` keeps the Python loop structure: one outer `while` over `n`, one
  inner `while` per run kind, and appends only. Its contract says that it
  returns exactly `Tokenization(text)`. The loop invariant `Progress` says that
  the tokens appended so far, followed by the tokens `Scan` yields from `n`
  on, are the whole result.
- `LexerProperties` (lexer_properties.dfy): what the tokenizer promises about
  its output, proved of `Scan` and `Tokenization`.

The kinds `'NUM'`, `'NAME'`, `'ASSIGN'` and `'OP'` are the constructors `Num`,
`Name`, `Assign` and `Op`. A Python token pair `(kind, text)` is `Token(kind, text)`.

## Model

| member | source | states |
|---|---|---|
| `Chars.Classify` | warmup/soln/ex1.py:7-25 | Every character takes exactly one branch of the if/elif chain. It takes the digit branch exactly when it is a digit and the letter branch exactly when it is a letter. It takes the `=` and operator branches exactly for those characters and the whitespace branch exactly for whitespace. The earlier tests never shadow a later class. |
| `Lexer.Scan` | warmup/soln/ex1.py:6-27 | The outer loop as a recursive reference definition: one case per branch of the if/elif chain, each yielding the token that branch appends (with its start offset) and continuing from where the branch leaves `n`. It has no contract of its own; its properties are the `LexerProperties.Scan*` and `LexerProperties.Tokens*` lemmas below. |
| `Lexer.Tokenization` | warmup/soln/ex1.py:3-28 | What `tokenize(text)` returns: the tokens of `Scan` from offset 0, in order. It has no contract of its own; `Lexer.Tokenize` is proved to compute it, and the `LexerProperties.Tokens*` lemmas state what it promises. |
| `Lexer.RunEnd` | warmup/soln/ex1.py:11-17 | The inner loop for a digit (or letter) run stops at the end of the longest run starting at `n`: every character passed over is in the class, and the loop stops at end of text or at a character outside it. |
| `Lexer.StepEnd` | warmup/soln/ex1.py:6-27 | Each step of the outer loop strictly increases `n` and never passes the end of the text, so the loop terminates. A step that is not a run consumes exactly one character. |
| `Lexer.Tokenize` | warmup/soln/ex1.py:3-28 | For every input (no precondition), the method returns exactly the reference tokenization. It also returns, in order, exactly the characters that are neither whitespace nor recognised, which are the ones the source reports as bad. |
| `Lexer.SkipStep` | warmup/soln/ex1.py:7-8 | Skipping a whitespace or bad character appends no token and keeps the loop invariant. A bad character is added to the report. |
| `Lexer.RunStep` | warmup/soln/ex1.py:9-18 | Consuming a maximal digit or letter run and appending `(kind, text[start:n])` keeps the loop invariant and adds nothing to the report. |
| `Lexer.SingleStep` | warmup/soln/ex1.py:19-24 | Appending `('ASSIGN', '=')` or `('OP', text[n])` and advancing by one keeps the loop invariant. |
| `LexerProperties.ScanLayout` | warmup/soln/ex1.py:6-27 | Every token produced from offset `n` on has non-empty text, starts at or after `n`, and equals the input slice at its start. The tokens are ordered by start and do not overlap. There are at most `len(text) - n` of them. |
| `LexerProperties.ScanWellFormed` | warmup/soln/ex1.py:9-24 | Every token produced from any offset has the shape of its kind. |
| `LexerProperties.ScanMaximal` | warmup/soln/ex1.py:9-18 | From any offset that is not inside a run, every NUM and NAME token is a longest run on both sides. |
| `LexerProperties.ScanConcat` | warmup/soln/ex1.py:6-27 | The token texts produced from offset `n`, joined in order, are `text[n:]` with whitespace and bad characters deleted. |
| `LexerProperties.TokensWellFormed` | warmup/soln/ex1.py:9-24 | Every NUM token's text is a non-empty run of digits and every NAME token's a non-empty run of letters. An ASSIGN token's text is exactly `=`. An OP token's text is exactly one of `+ - * /`. |
| `LexerProperties.TokensInInputOrder` | warmup/soln/ex1.py:4-27 | Each token of `tokenize(text)` is the input's text at a start offset. The start offsets strictly increase along the list, no two tokens overlap, and there are no more tokens than characters. |
| `LexerProperties.TokensMaximal` | warmup/soln/ex1.py:9-18 | Longest match: every NUM (NAME) token has neither a digit (letter) just before it nor one just after it. |
| `LexerProperties.TokensSpellInput` | warmup/soln/ex1.py:6-27 | Joining the token texts gives exactly the input with every character other than a digit, a letter, `=`, `+`, `-`, `*` or `/` deleted. Nothing is duplicated, dropped or reordered, so whitespace and bad characters never produce a token. |
| `LexerProperties.EveryCharacterAccounted` | warmup/soln/ex1.py:7-27 | Every input character falls in exactly one of three groups: part of a token's text, whitespace, or bad (the characters `Tokenize` reports). The joined token texts, the whitespace and the bad characters together are exactly as long as the input. |
| `LexerProperties.DigitsAreOneNumber` | warmup/soln/ex1.py:9-13 | A non-empty text made only of digits tokenizes to the single NUM token whose text is the whole input. |
| `LexerProperties.Example` | warmup/soln/ex1.py:30-32 | `tokenize("spam = x + 34 * 567")` is `[NAME spam, ASSIGN =, NAME x, OP +, NUM 34, OP *, NUM 567]`. |

## Left out

- The diagnostic `print` for a bad character is console output. `Tokenize` returns the offending characters, in order, as its second result instead of printing the message `Bad character: '<c>'`; the formatting of that message (Python's `repr`) is not modelled.
- Chars.IsDigit and Chars.IsAlpha cover only ASCII digits and letters, whereas Python's `str.isdigit` and `str.isalpha` accept every Unicode digit and letter; a non-ASCII digit or letter is a bad character in the model. `Chars.IsSpace` is Python's `str.isspace` exactly.
- Python returns tuples tagged by the strings `'NUM'`, `'NAME'`, `'ASSIGN'`, `'OP'`; the model tags tokens with the constructors of `Kind`.
- metal/hello.c: command-line parsing, `atoi` and `printf` are I/O, and `square` is a bare `n*n`; not modelled.
- metal/main.js: loading and instantiating a WebAssembly module is I/O against a foreign runtime; not modelled.
- wabbit/misc/runtime.c and wab/misc/runtime.c: the `_print_int`, `_print_float` and `_print_char` shims only print (one of them formats floating point); not modelled.
