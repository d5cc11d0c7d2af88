# Lexer model

A Dafny model of the scanner of a small scripting language (`src/lexer.rs`):
the token kinds, the `Lexer` object that walks a character vector with a
cursor, `scan`, and `get_next_token` with every arm of its dispatch
(comments, single-character symbols, quotes, numbers, the two-character
operators, words and the reserved-word table).

The model follows the Rust code as written and proves what that code does:

- `scan` emits every token but the `None` marker. No character produces a
  line-break or statement-end token: blanks, tabs, line breaks and any
  character that starts nothing are passed over.
- A `#` anywhere in the input makes the scan panic. The comment loop's test
  is `c != '\n' || !is_file_end()`, which holds at every position inside the
  input, so the loop reads past the end.
- A quote never starts a string. The string loop runs only while
  `string_end` holds, and `string_end` starts out false. Each quote is an
  empty `String` literal, and the characters between two quotes are scanned
  as ordinary tokens.
- A number or word run that reaches the end of the input panics, because the
  run loops read the character after the run before testing for the end.
  Input that ends in an ASCII letter or digit therefore always fails.
- A number run holding a point is a float whose text must hold at most one
  point. A run without a point is an integer that must fit in 64 bits.
  Either parse failure is a panic.
- Two-character operators are matched greedily: `++`, `+=`, `==`, `&&` and
  the rest are one token, never two.

In short: no token marks a line break, a quote never collects text, and `#`
never skips a comment.

Structure:

- `tokens.dfy`: the token kinds (`Tokens.Token`) and the signed 64-bit range.
- `chars.dfy`: the character classes the dispatch tests, and the greedy runs
  (`Chars.RunLength`).
- `numbers.dfy`: `str::parse::<i64>` on decimal text, and when
  `str::parse::<f64>` accepts a run of digits and points.
- `lexspec.dfy`: what one `get_next_token` call (`LexSpec.NextToken`) and
  the whole `scan` loop (`LexSpec.Lex`) compute. Both are functions of the
  input that remains from the cursor on. A panic is an `Err` naming its
  cause.
- `lexer.dfy`: the `Lexer` class with its fields, `scry`, `is_file_end`,
  `scan` and `get_next_token`. The operator, number and word arms are written
  as methods of their own. Each method is proved to compute what `LexSpec`
  says.
- `properties.dfy`: what the scanner does on each kind of input, the inputs
  on which it always fails, and worked examples.

## Model

| member | source | states |
|---|---|---|
| Scanner.Lexer.constructor | src/lexer.rs:82-88 | A new scanner holds the input, its cursor at 0 and no tokens. |
| Scanner.Lexer.Scry | src/lexer.rs:90-96 | Looking `offset` ahead yields a character exactly when cursor plus offset is inside the input, and then it is the input's character there. |
| Scanner.Lexer.IsFileEnd | src/lexer.rs:98-100 | The end is reached exactly when there is no character at the cursor. |
| Scanner.Lexer.Scan | src/lexer.rs:102-112 | The loop appends what `Lex` gives for the input that remained, or fails with `Lex`'s failure. On success the cursor ends at the end of the input and the token list is the old list followed by the new tokens. |
| Scanner.Lexer.GetNextToken | src/lexer.rs:114-362 | One dispatch succeeds exactly when `NextToken` does on the remaining input. It returns that step's token, fails with its failure, and leaves the cursor on the last character consumed. |
| Scanner.Lexer.ScanOperator | src/lexer.rs:173-317 | The eleven operator arms agree with `OperatorStep`: they never fail, return that step's token, and leave the cursor on the operator's last character. |
| Scanner.Lexer.ScanNumber | src/lexer.rs:151-171 | The number arm agrees with `NumberStep`: the same token or failure, and the cursor on the last character of the run. |
| Scanner.Lexer.ScanWord | src/lexer.rs:321-358 | The identifier arm agrees with `WordStep`: the same token or failure, and the cursor on the last character of the word. |
| Scanner.ScanAll | src/main.rs:15-16 | A new scanner run over the whole input returns exactly `Lex` of that input. |
| Chars.RunLength | src/lexer.rs:154-162 | A run's length stays within the input. Every character before it continues the run, and the character at it, if any, does not. |
| Numbers.ParseI64 | src/lexer.rs:169 | Nonempty decimal text parses exactly when its value is at most 2^63 - 1, and then to that value. Empty text does not parse. |
| Numbers.DecimalString | src/lexer.rs:169 | Every natural number has nonempty decimal text, with no leading zero unless it is 0, that reads back as that number. |
| Numbers.ParsesAsF64 | src/lexer.rs:167 | A run of digits and points that starts with a digit parses as f64 exactly when it holds at most one point; whatever parses holds a digit. |
| Numbers.DigitAmongPoints | src/lexer.rs:167 | A run of digits and points with fewer points than characters holds a digit. |
| Numbers.PointFreeRun | src/lexer.rs:158-160 | A run of digits and points has no point exactly when it is all digits. This is what makes `is_float` choose the f64 parse. |
| LexSpec.SingleCharToken | src/lexer.rs:123-132 | A single-character token is never the `None` marker, and its character is no operator lead, quote, `#`, digit or letter, so no other arm competes for it. |
| LexSpec.SingleCharacters | src/lexer.rs:123-132 | The single-character tokens are exactly those of `:`, `(`, `)`, `[`, `]`, `{`, `}` and `¬`. |
| LexSpec.ShortForm | src/lexer.rs:173-317 | A one-character operator is never the `None` marker, and its lead is no quote, `#`, digit or letter. |
| LexSpec.OperatorLeads | src/lexer.rs:173-317 | The operator leads are exactly `+ - / * % > < = ! & \|`. |
| LexSpec.LongForm | src/lexer.rs:173-317 | A two-character operator has an operator lead and a second character that is `=` or the lead again, and it is a different token from the lead's one-character operator. |
| LexSpec.LongForms | src/lexer.rs:173-317 | The long operators are exactly a lead other than `&` and `\|` followed by `=`, and `+`, `-`, `/`, `*`, `&` or `\|` doubled. |
| LexSpec.OperatorStep | src/lexer.rs:173-317 | An operator step never fails. It consumes two characters exactly when the lead and the next character form a long operator, and one character exactly when it gives the lead's one-character operator. |
| LexSpec.NumberStep | src/lexer.rs:151-171 | A number run that reaches the end of the input fails with an out-of-bounds read. A successful step stops before a character that cannot continue the run and gives an `Int` or a `Float`. |
| LexSpec.Keyword | src/lexer.rs:332-355 | A word has a reserved token exactly when it is in the reserved-word table, and that token is neither an identifier nor the `None` marker. |
| LexSpec.WordStep | src/lexer.rs:321-358 | A word run fails exactly when it reaches the end of the input, with an out-of-bounds read. Otherwise it stops before a non-word character and gives the classification of the whole word. |
| LexSpec.ClassifyWord | src/lexer.rs:332-356 | A word is an identifier with that name exactly when it is not reserved; a reserved word is its table entry. The result is never the `None` marker. |
| LexSpec.NumberToken | src/lexer.rs:163-170 | Text with a point is `Float` with that text. Text without one is `Int` with its decimal value. It fails exactly on two or more points (`MalformedFloat`) or a value above the i64 range (`IntOutOfRange`). |
| LexSpec.NextToken | src/lexer.rs:114-362 | A successful step consumes between one character and what remains. Only a digit, a letter or an operator lead starts a longer step. A `#`, or no input at all, fails with an out-of-bounds read. |
| LexSpec.Lex | src/lexer.rs:102-112 | The tokens of a successful scan never include the `None` marker and number at most one per input character. |
| LexProperties.LexAfter | src/lexer.rs:102-112 | When the first step consumes exactly a given lexeme, the tokens are that step's token followed by the tokens of the rest, scanned alone. |
| LexProperties.OperatorLongForm | src/lexer.rs:173-317 | An operator lead followed by a character that completes a two-character operator is that one long token. |
| LexProperties.OperatorShortForm | src/lexer.rs:173-317 | An operator lead at the end of the input, or followed by a character that completes nothing, is its one-character operator. |
| LexProperties.SingleCharacter | src/lexer.rs:123-132 | A bracket, brace, parenthesis, colon or `¬` is one token and consumes one character. |
| LexProperties.Quote | src/lexer.rs:134-149 | A quote is an empty `String` literal, and scanning goes on with the very next character. |
| LexProperties.SkippedCharacter | src/lexer.rs:360 | A character that starts no token adds nothing to the result. |
| LexProperties.OnlySkipped | src/lexer.rs:360 | Input made only of such characters gives no tokens. |
| LexProperties.WhiteSpaceOnly | src/lexer.rs:360 | Blanks, tabs and line breaks alone give no tokens, not even a statement end. |
| LexProperties.DigitDispatch | src/lexer.rs:151 | A digit at the cursor always goes to the number arm. |
| LexProperties.LetterDispatch | src/lexer.rs:321-322 | A letter at the cursor always goes to the identifier arm. |
| LexProperties.NumberLiteral | src/lexer.rs:151-171 | A number run followed by a character that cannot continue it is the number token of its text, or that text's parse failure. |
| LexProperties.IntegerLiteral | src/lexer.rs:169 | The decimal text of `n`, followed by a non-run character, is `Int(n)` when `n` fits in i64 and an `IntOutOfRange` failure otherwise. |
| LexProperties.IntegerLine | src/lexer.rs:169 | The decimal text of an i64 value ended by a line break is exactly one `Int` token with that value. |
| LexProperties.FloatText | src/lexer.rs:167 | Digits, one point and digits form a number run that parses as a `Float` with exactly that text. |
| LexProperties.FloatLiteral | src/lexer.rs:167 | Such text, followed by a non-run character, is one `Float` token. |
| LexProperties.TwoPointsFail | src/lexer.rs:167 | A number run with two or more points fails with `MalformedFloat`. |
| LexProperties.WordLiteral | src/lexer.rs:321-358 | A word followed by a non-word character is one token: its reserved token, or an identifier named by the whole word. |
| LexProperties.ReservedWordsAreWords | src/lexer.rs:333-353 | Every reserved word is spelled as a word, so the identifier arm can produce it. |
| LexProperties.ReservedWord | src/lexer.rs:333-353 | A reserved word followed by a non-word character is always its reserved token, never an identifier. |
| LexProperties.StepCovers | src/lexer.rs:114-362 | Whenever a step succeeds, every character it consumes past the first continues a run or completes a long operator. |
| LexProperties.StepReachesEnd | src/lexer.rs:154-157 | Whenever a step succeeds and uses up all of at least two remaining characters, they form a long operator. |
| LexProperties.FailureAhead | src/lexer.rs:102-112 | The scan fails whenever the step at some offset fails and every step starting earlier that succeeds ends at or before that offset. |
| LexProperties.StopsAfter | src/lexer.rs:102-112 | That every step from an offset stops by a point carries over to the input left after a first step. |
| LexProperties.CommentFails | src/lexer.rs:117-121 | Any input containing `#` makes the scan fail. |
| LexProperties.HashNotCovered | src/lexer.rs:117-121 | A step that starts before a `#` ends at or before it. |
| LexProperties.StopsBeforeLast | src/lexer.rs:154-157 | A step that starts before a final letter or digit ends at or before it. |
| LexProperties.LongFormSecond | src/lexer.rs:173-317 | Whenever two characters form a long operator, the second is no letter or digit. |
| LexProperties.LastRunFails | src/lexer.rs:157 | A letter or digit with nothing after it fails with an out-of-bounds read. |
| LexProperties.RunAtEndFails | src/lexer.rs:157 | Any input ending in a letter or digit makes the scan fail. |
| LexProperties.LoneDigit | src/lexer.rs:151-171 | A digit alone fails; the same digit followed by a line break is exactly one `Int` token. |
| LexProperties.ClosingQuote | src/lexer.rs:134-149 | A quote ended by a line break is exactly one empty `String` token. |
| LexProperties.QuoteThen | src/lexer.rs:134-149 | A quote put before input that scans to some tokens scans to an empty `String` followed by those tokens. |
| LexProperties.WordBeforeQuote | src/lexer.rs:134-149 | A word followed by a quote and a line break gives the word's own token and one empty `String`. |
| LexProperties.QuotedWord | src/lexer.rs:134-149 | A word between quotes gives an empty string, the word's own token, and another empty string. |
| LexProperties.HyphenatedWord | src/lexer.rs:324 | A hyphen between two letters belongs to the word, so one word token results. |

## Left out

- Reading the file, the command-line argument and printing in `src/main.rs` are not modelled. The input is the character sequence those steps produce.
- Scanner.Lexer.GetNextToken: a panic ends the run, so the cursor after a failure is left unspecified.
- Scanner.Lexer.Scan: on a failure the ensures say nothing of `tokens` or `pos`; a panic ends the run, so what the fields hold by then is not observable.
- The `Float` payload is the text of the number, not the f64 value. Floating-point conversion and rounding are not modelled.
- `str::parse::<f64>` is modelled only on text made of digits and points, the only text the number arm passes to it.
- Numbers.ParseI64: models `str::parse::<i64>` on an optional sign and decimal digits, and gives no error kind beyond failure.
- `char::is_alphabetic` and `char::is_alphanumeric` are Unicode properties. The model uses ASCII letters and digits, so non-ASCII letters and numerals (such as `é`, `²` or `٣`) are passed over instead of starting or continuing a word.
- The identifier's boxed placeholder value is always `None` at this stage and is not stored.
- The string arm's loop cannot run, because its guard starts false, so the arm is written without it. The arm's effect is the same: the cursor is stepped up and back, and the token is an empty `String`.
- The `trim` of the collected number and word text is not modelled. Run characters are never white space, so it changes nothing.
- Overflow of the `usize` cursor is not modelled: the cursor is a natural number.
