// Properties of the scanner as the source writes it: composition of steps,
// greedy operators, literals, reserved words, skipped input and the inputs
// on which the scan always fails.

module LexProperties {
  import opened Options
  import opened Tokens
  import opened Chars
  import opened Numbers
  import opened LexSpec

  /**
   * Scanning is compositional: when the first step consumes exactly
   * `lexeme`, the tokens are that step's token followed by the tokens of
   * what comes after it, scanned on its own.
   */
  lemma LexAfter(lexeme: seq<char>, rest: seq<char>, token: Token)
    requires NextToken(lexeme + rest) == Ok(Step(token, |lexeme|))
    ensures Lex(lexeme + rest) == Prepend(token, Lex(rest))
  {
    assert (lexeme + rest)[|lexeme|..] == rest;
  }

  /** An operator lead followed by the character that completes it is one long token. */
  lemma OperatorLongForm(lead: char, second: char, rest: seq<char>)
    requires LongForm(lead, second).Some?
    ensures Lex([lead, second] + rest) == Prepend(LongForm(lead, second).value, Lex(rest))
  {
    var s := [lead, second] + rest;
    assert s[0] == lead && s[1] == second;
    LexAfter([lead, second], rest, LongForm(lead, second).value);
  }

  /**
   * An operator lead not followed by a character that completes it, or at
   * the end of the input, is its one-character token.
   */
  lemma OperatorShortForm(lead: char, rest: seq<char>)
    requires ShortForm(lead).Some?
    requires rest == [] || LongForm(lead, rest[0]).None?
    ensures Lex([lead] + rest) == Prepend(ShortForm(lead).value, Lex(rest))
  {
    var s := [lead] + rest;
    assert s[0] == lead && (rest != [] ==> s[1] == rest[0]);
    LexAfter([lead], rest, ShortForm(lead).value);
  }

  /** A bracket, a colon or `¬` is one token and consumes one character. */
  lemma SingleCharacter(c: char, rest: seq<char>)
    requires SingleCharToken(c).Some?
    ensures Lex([c] + rest) == Prepend(SingleCharToken(c).value, Lex(rest))
  {
    assert ([c] + rest)[0] == c;
    LexAfter([c], rest, SingleCharToken(c).value);
  }

  /**
   * A quote is an empty string literal: nothing after it is read as part of
   * the string, and scanning goes on with the very next character.
   */
  lemma Quote(rest: seq<char>)
    ensures Lex(['"'] + rest) == Prepend(String(Some("")), Lex(rest))
  {
    assert (['"'] + rest)[0] == '"';
    LexAfter(['"'], rest, String(Some("")));
  }

  /** Characters that start no token. */
  predicate IsSkipped(c: char) {
    c != '#' && c != '"' && !IsDigit(c) && !IsAlphabetic(c)
    && SingleCharToken(c).None? && ShortForm(c).None?
  }

  /** A character that starts no token is passed over. */
  lemma SkippedCharacter(c: char, rest: seq<char>)
    requires IsSkipped(c)
    ensures Lex([c] + rest) == Lex(rest)
  {
    assert ([c] + rest)[0] == c;
    LexAfter([c], rest, NoToken);
  }

  /**
   * Input made only of characters that start no token (blanks, tabs and
   * line breaks among them) gives no tokens at all.
   */
  lemma {:induction false} OnlySkipped(s: seq<char>)
    requires forall i :: 0 <= i < |s| ==> IsSkipped(s[i])
    ensures Lex(s) == Ok([])
  {
    if s != [] {
      assert s == [s[0]] + s[1..];
      SkippedCharacter(s[0], s[1..]);
      OnlySkipped(s[1..]);
    }
  }

  /** White space and line breaks yield no token, not even a statement end. */
  lemma {:induction false} WhiteSpaceOnly(s: seq<char>)
    requires forall i :: 0 <= i < |s| ==> s[i] in {' ', '\t', '\n', '\r'}
    ensures Lex(s) == Ok([])
  {
    forall i | 0 <= i < |s| ensures IsSkipped(s[i]) {
      assert s[i] in {' ', '\t', '\n', '\r'};
    }
    OnlySkipped(s);
  }

  /** A digit at the front starts the number arm. */
  lemma DigitDispatch(s: seq<char>)
    requires |s| > 0 && IsDigit(s[0])
    ensures NextToken(s) == NumberStep(s)
  {
  }

  /** A letter at the front starts the identifier arm. */
  lemma LetterDispatch(s: seq<char>)
    requires |s| > 0 && IsAlphabetic(s[0])
    ensures NextToken(s) == WordStep(s)
  {
  }

  /**
   * A number run followed by a character that cannot continue it: the
   * token for its text (an integer, or a float if it holds a point), or
   * the parse failure.
   */
  lemma NumberLiteral(run: seq<char>, rest: seq<char>)
    requires |run| > 0 && IsDigit(run[0])
    requires forall i :: 0 <= i < |run| ==> Continues(NumberRun, run[i])
    requires |rest| > 0 && !Continues(NumberRun, rest[0])
    ensures NumberToken(run).Ok? ==> Lex(run + rest) == Prepend(NumberToken(run).value, Lex(rest))
    ensures NumberToken(run).Err? ==> Lex(run + rest) == Err(NumberToken(run).failure)
  {
    var s := run + rest;
    assert s[0] == run[0];
    DigitDispatch(s);
    assert forall i :: 0 <= i < |run| ==> s[i] == run[i];
    assert s[|run|] == rest[0];
    RunLengthIs(NumberRun, s, |run|);
    assert s[..|run|] == run;
    if NumberToken(run).Ok? {
      assert NextToken(s) == Ok(Step(NumberToken(run).value, |run|));
      LexAfter(run, rest, NumberToken(run).value);
    } else {
      assert NextToken(s) == Err(NumberToken(run).failure);
    }
  }

  /**
   * The decimal text of a natural number, followed by a character that
   * cannot continue it, is one integer token with that value when it fits
   * in 64 bits, and an integer parse failure otherwise.
   */
  lemma IntegerLiteral(n: nat, rest: seq<char>)
    requires |rest| > 0 && !Continues(NumberRun, rest[0])
    ensures Lex(DecimalString(n) + rest)
         == if n <= I64Max then Prepend(Int(Some(n as i64)), Lex(rest)) else Err(IntOutOfRange)
  {
    var run := DecimalString(n);
    NumberLiteral(run, rest);
    PointFreeRun(run);
  }

  /**
   * Digits, one point and digits, followed by a character that cannot
   * continue them, are one float token whose text is exactly those
   * characters.
   */
  lemma FloatLiteral(whole: seq<char>, fraction: seq<char>, rest: seq<char>)
    requires |whole| > 0 && AllDigits(whole) && AllDigits(fraction)
    requires |rest| > 0 && !Continues(NumberRun, rest[0])
    ensures Lex(whole + ['.'] + fraction + rest)
         == Prepend(Float(Some(whole + ['.'] + fraction)), Lex(rest))
  {
    var run := whole + ['.'] + fraction;
    FloatText(whole, fraction);
    NumberLiteral(run, rest);
  }

  /** Digits, one point and digits make a number run that parses as a float. */
  lemma FloatText(whole: seq<char>, fraction: seq<char>)
    requires |whole| > 0 && AllDigits(whole) && AllDigits(fraction)
    ensures var run := whole + ['.'] + fraction;
            && run[0] == whole[0]
            && (forall i :: 0 <= i < |run| ==> Continues(NumberRun, run[i]))
            && NumberToken(run) == Ok(Float(Some(run)))
  {
    var run := whole + ['.'] + fraction;
    assert run[|whole|] == '.';
    forall i | 0 <= i < |run| ensures Continues(NumberRun, run[i]) {
      if i < |whole| {
        assert run[i] == whole[i];
      } else if i > |whole| {
        assert run[i] == fraction[i - |whole| - 1];
      }
    }
    assert DotCount(run) == 1 by {
      PointFreeRun(whole);
      PointFreeRun(fraction);
      assert run == whole + (['.'] + fraction);
      DotCountSplit(whole, ['.'] + fraction);
      DotCountSplit(['.'], fraction);
    }
    assert '.' in run;
  }

  /** Points are counted piece by piece. */
  lemma {:induction false} DotCountSplit(a: seq<char>, b: seq<char>)
    ensures DotCount(a + b) == DotCount(a) + DotCount(b)
  {
    if a != [] {
      assert (a + b)[1..] == a[1..] + b;
      DotCountSplit(a[1..], b);
    } else {
      assert a + b == b;
    }
  }

  /** A number run holding two or more points is a float parse failure. */
  lemma TwoPointsFail(run: seq<char>, rest: seq<char>)
    requires |run| > 0 && IsDigit(run[0])
    requires forall i :: 0 <= i < |run| ==> Continues(NumberRun, run[i])
    requires DotCount(run) >= 2
    requires |rest| > 0 && !Continues(NumberRun, rest[0])
    ensures Lex(run + rest) == Err(MalformedFloat)
  {
    NumberLiteral(run, rest);
  }

  /**
   * A word (a letter, then letters, digits, `_` or `-`) followed by a
   * character that cannot continue it is one token: its reserved token if
   * it is a reserved word, and an identifier named by the whole word
   * otherwise.
   */
  lemma WordLiteral(word: seq<char>, rest: seq<char>)
    requires |word| > 0 && IsAlphabetic(word[0])
    requires forall i :: 0 <= i < |word| ==> Continues(WordRun, word[i])
    requires |rest| > 0 && !Continues(WordRun, rest[0])
    ensures Lex(word + rest) == Prepend(ClassifyWord(word), Lex(rest))
  {
    var s := word + rest;
    assert s[0] == word[0];
    LetterDispatch(s);
    assert s[|word|] == rest[0];
    assert forall i :: 0 <= i < |word| ==> s[i] == word[i];
    RunLengthIs(WordRun, s, |word|);
    assert s[..|word|] == word;
    assert NextToken(s) == Ok(Step(ClassifyWord(word), |word|));
    LexAfter(word, rest, ClassifyWord(word));
  }

  /** Every reserved word is spelled as a word. */
  lemma ReservedWordsAreWords(word: string)
    requires word in Keywords
    ensures |word| > 0 && IsAlphabetic(word[0])
    ensures forall i :: 0 <= i < |word| ==> Continues(WordRun, word[i])
  {
  }

  /**
   * A reserved word followed by a character that cannot continue it is
   * always its reserved token, never an identifier.
   */
  lemma ReservedWord(word: string, rest: seq<char>)
    requires word in Keywords
    requires |rest| > 0 && !Continues(WordRun, rest[0])
    ensures Lex(word + rest) == Prepend(Keywords[word], Lex(rest))
    ensures !Keywords[word].Identifier? && Keywords[word] != NoToken
  {
    ReservedWordsAreWords(word);
    WordLiteral(word, rest);
  }

  /**
   * What a step can consume after its first character: a character that
   * continues a run, or the second character of a long operator.
   */
  lemma StepCovers(s: seq<char>, i: nat)
    requires NextToken(s).Ok?
    ensures 0 < i < NextToken(s).value.length ==>
              Continues(WordRun, s[i]) || Continues(NumberRun, s[i]) || LongForm(s[0], s[i]).Some?
  {
  }

  /**
   * A step of more than one character uses up all that remains only by
   * completing a long operator: runs stop before the end of the input.
   */
  lemma StepReachesEnd(s: seq<char>)
    requires NextToken(s).Ok?
    ensures NextToken(s).value.length == |s| > 1 ==> LongForm(s[0], s[1]).Some? && |s| == 2
  {
  }

  /** The step at offset `q`, if it succeeds, stops at or before offset `k`. */
  predicate StopsBy(s: seq<char>, q: nat, k: nat)
    requires q <= |s|
  {
    NextToken(s[q..]).Ok? ==> q + NextToken(s[q..]).value.length <= k
  }

  /**
   * The scan fails when the step at offset `k` fails and no step that
   * starts before `k` can consume the character at `k`.
   */
  lemma {:induction false} FailureAhead(s: seq<char>, k: nat)
    requires k < |s|
    requires NextToken(s[k..]).Err?
    requires forall q :: 0 <= q < k ==> StopsBy(s, q, k)
    ensures Lex(s).Err?
    decreases k
  {
    assert s[0..] == s;
    if k > 0 && NextToken(s).Ok? {
      assert StopsBy(s, 0, k);
      var n := NextToken(s).value.length;
      var t, m := s[n..], k - n;
      assert t[m..] == s[k..];
      forall q | 0 <= q < m
        ensures StopsBy(t, q, m)
      {
        StopsAfter(s, n, q, k);
      }
      FailureAhead(t, m);
      LexUnfold(s);
    }
  }

  /** Step bounds carry over to the input after the first `n` characters. */
  lemma StopsAfter(s: seq<char>, n: nat, q: nat, k: nat)
    requires n + q <= k < |s| && StopsBy(s, n + q, k)
    ensures StopsBy(s[n..], q, k - n)
  {
    assert s[n..][q..] == s[n + q..];
  }

  /**
   * Any `#` in the input makes the scan fail: the comment loop always runs
   * off the end of the input, and no earlier step can consume a `#`.
   */
  lemma CommentFails(s: seq<char>, k: nat)
    requires k < |s| && s[k] == '#'
    ensures Lex(s).Err?
  {
    forall q | 0 <= q < k
      ensures StopsBy(s, q, k)
    {
      HashNotCovered(s, q, k);
    }
    FailureAhead(s, k);
  }

  /** A step that starts before a `#` stops before it. */
  lemma HashNotCovered(s: seq<char>, q: nat, k: nat)
    requires q < k < |s| && s[k] == '#'
    ensures StopsBy(s, q, k)
  {
    var u := s[q..];
    if NextToken(u).Ok? {
      assert u[k - q] == '#';
      StepCovers(u, k - q);
    }
  }

  /**
   * Input that ends in a letter or digit makes the scan fail: the run that
   * holds the last character reads past the end of the input.
   */
  lemma RunAtEndFails(s: seq<char>)
    requires |s| > 0 && IsAlphanumeric(s[|s| - 1])
    ensures Lex(s).Err?
  {
    var k := |s| - 1;
    forall q | 0 <= q < k
      ensures StopsBy(s, q, k)
    {
      StopsBeforeLast(s, q);
    }
    LastRunFails(s[k..]);
    FailureAhead(s, k);
  }

  /** A step that starts before a final letter or digit stops before it. */
  lemma StopsBeforeLast(s: seq<char>, q: nat)
    requires q < |s| - 1 && IsAlphanumeric(s[|s| - 1])
    ensures StopsBy(s, q, |s| - 1)
  {
    var u := s[q..];
    if NextToken(u).Ok? {
      assert u[|u| - 1] == s[|s| - 1];
      StepReachesEnd(u);
      LongFormSecond(u[0], u[1]);
    }
  }

  /** No long operator ends in a letter or digit. */
  lemma LongFormSecond(lead: char, second: char)
    ensures LongForm(lead, second).Some? ==> !IsAlphanumeric(second)
  {
  }

  /** A letter or digit with nothing after it: the run reads past the end. */
  lemma LastRunFails(s: seq<char>)
    requires |s| == 1 && IsAlphanumeric(s[0])
    ensures NextToken(s) == Err(OutOfBounds)
  {
    if IsDigit(s[0]) {
      DigitDispatch(s);
      assert RunLength(NumberRun, s) == 1;
    } else {
      LetterDispatch(s);
      assert RunLength(WordRun, s) == 1;
    }
  }

  /**
   * A digit at the very end of the input fails; the same digit followed by
   * a line break is one integer token.
   */
  lemma LoneDigit(d: char)
    requires IsDigit(d)
    ensures Lex([d]).Err?
    ensures Lex([d, '\n']) == Ok([Int(Some(DigitValue(d) as i64))])
  {
    RunAtEndFails([d]);
    var tail: seq<char> := ['\n'];
    WhiteSpaceOnly(tail);
    assert DecimalValue([d]) == DigitValue(d) by {
      assert [d][..0] == [];
    }
    NumberLiteral([d], tail);
    var t := Int(Some(DigitValue(d) as i64));
    assert NumberToken([d]) == Ok(t);
    assert [t] + [] == [t];
    assert [d, '\n'] == [d] + tail;
  }

  /** A quote ended by a line break is one empty string literal. */
  lemma ClosingQuote()
    ensures Lex(['"', '\n']) == Ok([String(Some(""))])
  {
    var tail: seq<char> := ['\n'];
    WhiteSpaceOnly(tail);
    Quote(tail);
    assert [String(Some(""))] + [] == [String(Some(""))];
    assert ['"', '\n'] == ['"'] + tail;
  }

  /** A word, then a quote ended by a line break: the word's token and an empty string. */
  lemma WordBeforeQuote(word: seq<char>)
    requires |word| > 0 && IsAlphabetic(word[0])
    requires forall i :: 0 <= i < |word| ==> Continues(WordRun, word[i])
    ensures Lex(word + ['"', '\n']) == Ok([ClassifyWord(word), String(Some(""))])
  {
    ClosingQuote();
    WordLiteral(word, ['"', '\n']);
    var w := ClassifyWord(word);
    assert [w] + [String(Some(""))] == [w, String(Some(""))];
  }

  /**
   * A word between quotes: each quote is an empty string literal and the
   * word between them is scanned on its own.
   */
  lemma QuotedWord(word: seq<char>)
    requires |word| > 0 && IsAlphabetic(word[0])
    requires forall i :: 0 <= i < |word| ==> Continues(WordRun, word[i])
    ensures Lex(['"'] + (word + ['"', '\n']))
         == Ok([String(Some("")), ClassifyWord(word), String(Some(""))])
  {
    var empty := String(Some(""));
    var w := ClassifyWord(word);
    WordBeforeQuote(word);
    QuoteThen(word + ['"', '\n'], [w, empty]);
    assert [empty] + [w, empty] == [empty, w, empty];
  }

  /** A quote in front of input that scans to `ts` adds one empty string literal. */
  lemma QuoteThen(rest: seq<char>, ts: seq<Token>)
    requires Lex(rest) == Ok(ts)
    ensures Lex(['"'] + rest) == Ok([String(Some(""))] + ts)
  {
    Quote(rest);
  }

  /** A hyphen between letters is part of the word, not a minus sign. */
  lemma HyphenatedWord(a: char, b: char)
    requires IsAlphabetic(a) && IsAlphabetic(b)
    ensures Lex([a, '-', b, ' ']) == Ok([ClassifyWord([a, '-', b])])
  {
    var word := [a, '-', b];
    var tail: seq<char> := [' '];
    WhiteSpaceOnly(tail);
    WordLiteral(word, tail);
    assert [ClassifyWord(word)] + [] == [ClassifyWord(word)];
    assert [a, '-', b, ' '] == word + tail;
  }

  /** The decimal text of a 64-bit value ended by a line break is one integer token. */
  lemma IntegerLine(n: nat)
    requires n <= I64Max
    ensures Lex(DecimalString(n) + "\n") == Ok([Int(Some(n as i64))])
  {
    var tail: seq<char> := "\n";
    WhiteSpaceOnly(tail);
    IntegerLiteral(n, tail);
    assert [Int(Some(n as i64))] + [] == [Int(Some(n as i64))];
  }
}
