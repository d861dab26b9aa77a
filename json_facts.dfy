/**
 * Properties of the reading steps of json.c: what next_c, skip_ws, expect_c,
 * next_number, parse_string and next_vector accept and consume, and the ways
 * they reject their input.
 */
module JsonFacts {
  import opened JsonSyntax

  /** The text `t` occurs in `s` starting at position `p`. */
  ghost predicate At(s: seq<char>, p: nat, t: seq<char>)
    decreases |t|
  {
    p + |t| <= |s| && (t == [] || (s[p] == t[0] && At(s, p + 1, t[1..])))
  }

  predicate AllSpace(w: seq<char>) {
    forall i :: 0 <= i < |w| ==> IsSpace(w[i])
  }

  /** Text that parse_string's copy loop takes in: no quotes, no whitespace. */
  predicate Plain(w: seq<char>) {
    forall i :: 0 <= i < |w| ==> IsPlain(w[i])
  }

  function Quote(w: string): string {
    "\"" + w + "\""
  }

  /** The number of newline characters in `t`. */
  function Newlines(t: seq<char>): nat {
    if t == [] then 0 else (if t[0] == '\n' then 1 else 0) + Newlines(t[1..])
  }

  /** The step ends in `exit(1)` for the reason `why`. */
  predicate ExitsWith<T>(st: Step<T>, why: Reason) {
    st.Halted? && st.halt.Exit? && st.halt.reason == why
  }

  // ---------------------------------------------------------------------
  // Locating texts inside the input

  lemma {:induction false} AtSplit(s: seq<char>, p: nat, t: seq<char>, u: seq<char>)
    requires At(s, p, t + u)
    ensures At(s, p, t) && At(s, p + |t|, u)
    decreases |t|
  {
    if t == [] {
      assert t + u == u;
    } else {
      assert (t + u)[1..] == t[1..] + u;
      AtSplit(s, p + 1, t[1..], u);
    }
  }

  lemma {:induction false} AtIndex(s: seq<char>, p: nat, t: seq<char>, i: nat)
    requires At(s, p, t) && i < |t|
    ensures s[p + i] == t[i]
    decreases i
  {
    if i > 0 {
      AtIndex(s, p + 1, t[1..], i - 1);
    }
  }

  lemma AtSlice(s: seq<char>, p: nat, t: seq<char>, i: nat, j: nat)
    requires At(s, p, t) && i <= j <= |t|
    ensures s[p + i..p + j] == t[i..j]
  {
    forall m | 0 <= m < j - i
      ensures s[p + i..p + j][m] == t[i..j][m]
    {
      AtIndex(s, p, t, i + m);
    }
  }

  lemma {:induction false} AtWhole(s: seq<char>, p: nat, t: seq<char>)
    requires At(s, p, t)
    ensures s[p..p + |t|] == t
  {
    forall m | 0 <= m < |t|
      ensures s[p + m] == t[m]
    {
      AtIndex(s, p, t, m);
    }
    assert forall m :: 0 <= m < |t| ==> s[p..p + |t|][m] == t[m];
  }

  lemma {:induction false} AtOfSlice(s: seq<char>, p: nat, t: seq<char>)
    requires p + |t| <= |s| && s[p..p + |t|] == t
    ensures At(s, p, t)
    decreases |t|
  {
    if t != [] {
      assert s[p] == s[p..p + |t|][0];
      assert s[p + 1..p + 1 + |t[1..]|] == s[p..p + |t|][1..];
      AtOfSlice(s, p + 1, t[1..]);
    }
  }

  // ---------------------------------------------------------------------
  // next_c, skip_ws and expect_c

  /**
   * next_c consumes exactly one character and returns it, adds one to the
   * line counter exactly for a newline, and is fatal at end of input.
   */
  lemma NextCharIff(s: seq<char>, k: Cursor)
    requires k.pos <= |s|
    ensures NextCharStep(s, k).Halted? <==> k.pos == |s|
    ensures NextCharStep(s, k).Halted? ==> NextCharStep(s, k).halt == Exit(UnexpectedEof, k.line)
    ensures NextCharStep(s, k).Next? ==>
              NextCharStep(s, k).value == s[k.pos] && NextCharStep(s, k).at.pos == k.pos + 1 &&
              NextCharStep(s, k).at.line == k.line + Newlines([s[k.pos]])
  {
  }

  /**
   * skip_ws in closed form: it stops at the first non-whitespace character,
   * with the line counter advanced by the newlines it passed, and is fatal
   * when there is none.
   */
  lemma {:induction false} SkipWsClosedForm(s: seq<char>, k: Cursor)
    requires k.pos <= |s|
    ensures var j := FirstNonSpace(s, k.pos);
            SkipWsStep(s, k) == if j == |s| then Halted(Exit(UnexpectedEof, k.line + Newlines(s[k.pos..])))
                                else Next((), Cursor(j, k.line + Newlines(s[k.pos..j])))
    decreases |s| - k.pos
  {
    var j := FirstNonSpace(s, k.pos);
    if k.pos < |s| && IsSpace(s[k.pos]) {
      SkipWsClosedForm(s, Cursor(k.pos + 1, k.line + if s[k.pos] == '\n' then 1 else 0));
      assert s[k.pos..j][1..] == s[k.pos + 1..j];
      assert s[k.pos..][1..] == s[k.pos + 1..];
    } else {
      assert s[k.pos..k.pos] == [];
    }
  }

  /**
   * skip_ws consumes the maximal run of whitespace and leaves the first
   * other character unread; it is fatal exactly when none is left.
   */
  lemma SkipWsMaximal(s: seq<char>, k: Cursor)
    requires k.pos <= |s|
    ensures SkipWsStep(s, k).Halted? <==> forall m :: k.pos <= m < |s| ==> IsSpace(s[m])
    ensures SkipWsStep(s, k).Next? ==>
              var j := SkipWsStep(s, k).at.pos;
              !IsSpace(s[j]) && (forall m :: k.pos <= m < j ==> IsSpace(s[m])) &&
              SkipWsStep(s, k).at.line == k.line + Newlines(s[k.pos..j])
  {
    SkipWsClosedForm(s, k);
    FirstNonSpaceSpans(s, k.pos);
  }

  /** skip_ws passes a run `w` of whitespace and counts its newlines. */
  lemma {:induction false} SkipRunAt(s: seq<char>, p: nat, l: int, w: seq<char>)
    requires At(s, p, w) && AllSpace(w)
    requires p + |w| < |s| && !IsSpace(s[p + |w|])
    ensures SkipWsStep(s, Cursor(p, l)) == Next((), Cursor(p + |w|, l + Newlines(w)))
    decreases |w|
  {
    if w != [] {
      assert IsSpace(w[0]);
      assert AllSpace(w[1..]) by {
        assert forall i :: 0 <= i < |w[1..]| ==> w[1..][i] == w[i + 1];
      }
      SkipRunAt(s, p + 1, l + if w[0] == '\n' then 1 else 0, w[1..]);
    }
  }

  /** A second skip_ws right after the first changes nothing. */
  lemma SkipWsIdempotent(s: seq<char>, k: Cursor)
    requires k.pos <= |s| && SkipWsStep(s, k).Next?
    ensures SkipWsStep(s, SkipWsStep(s, k).at) == SkipWsStep(s, k)
  {
    var k2 := SkipWsStep(s, k).at;
    var u: () := SkipWsStep(s, k).value;
    assert u == ();
    assert NextCharStep(s, k2).value == s[k2.pos];
  }

  /** expect_c(d) succeeds, consuming one character, iff that character is d. */
  lemma ExpectCharIff(s: seq<char>, k: Cursor, d: char)
    requires k.pos <= |s|
    ensures ExpectCharStep(s, k, d).Next? <==> k.pos < |s| && s[k.pos] == d
    ensures ExpectCharStep(s, k, d).Next? ==> ExpectCharStep(s, k, d).at == Cursor(k.pos + 1, k.line + Newlines([d]))
    ensures k.pos < |s| && s[k.pos] != d ==> ExitsWith(ExpectCharStep(s, k, d), ExpectedChar(d))
  {
  }

  // ---------------------------------------------------------------------
  // parse_string

  /** At an opening quote, parse_string goes straight to its copy loop. */
  lemma StringOpens(s: seq<char>, p: nat, l: int)
    requires p < |s| && s[p] == '"'
    ensures StringStep(s, Cursor(p, l)) == StringBodyStep(s, p + 1, l)
  {
    assert SkipWsStep(s, Cursor(p, l)) == Next((), Cursor(p, l));
  }

  /** The plain characters of `w` where it occurs. */
  lemma PlainAt(s: seq<char>, b: nat, w: string)
    requires At(s, b, w) && Plain(w)
    ensures forall m :: b <= m < b + |w| ==> IsPlain(s[m])
  {
    forall m | b <= m < b + |w|
      ensures IsPlain(s[m])
    {
      AtIndex(s, b, w, m - b);
    }
  }

  /**
   * The copy loop, started at `b`, copies the text `t` and stops at `k2`: the
   * input holds `t`, plain and shorter than the buffer, then a closing quote,
   * and `k2` is just past that quote.
   */
  ghost predicate Copied(s: seq<char>, b: nat, line: int, t: string, k2: Cursor) {
    |t| < BufferSize && Plain(t) && At(s, b, t + "\"") && k2 == Cursor(b + |t| + 1, line)
  }

  /** The copy loop from `b` copies some text whose C string is `w`, and stops at `k2`. */
  ghost predicate CopiedString(s: seq<char>, b: nat, line: int, w: string, k2: Cursor) {
    exists t {:trigger Copied(s, b, line, t, k2)} :: Terminated(t) == w && Copied(s, b, line, t, k2)
  }

  /** parse_string's copy loop copies `t` and stops at `k2` exactly when Copied says so. */
  lemma CopyIff(s: seq<char>, b: nat, line: int, t: string, k2: Cursor)
    requires 0 < b <= |s|
    ensures CopyStep(s, b, line) == Next(t, k2) <==> Copied(s, b, line, t, k2)
  {
    var e := PlainEnd(s, b);
    if CopyStep(s, b, line) == Next(t, k2) {
      PlainEndSpans(s, b);
      assert t == s[b..e] && s[e] == '"';
      assert s[b..e + 1] == t + "\"";
      AtOfSlice(s, b, t + "\"");
    }
    if Copied(s, b, line, t, k2) {
      AtSplit(s, b, t, "\"");
      AtIndex(s, b, t + "\"", |t|);
      PlainEndExactly(s, b, t);
      AtWhole(s, b, t);
    }
  }

  /**
   * After the opening quote, parse_string returns `w` and stops at `k2`
   * exactly when its loop copies some text whose C string is `w`.
   */
  lemma StringBodyIff(s: seq<char>, b: nat, line: int, w: string, k2: Cursor)
    requires 0 < b <= |s|
    ensures StringBodyStep(s, b, line) == Next(w, k2) <==>
              CopiedString(s, b, line, w, k2)
  {
    var c := CopyStep(s, b, line);
    if StringBodyStep(s, b, line) == Next(w, k2) {
      CopyIff(s, b, line, c.value, k2);
      assert Terminated(c.value) == w;
    }
    if CopiedString(s, b, line, w, k2) {
      var t :| Terminated(t) == w && Copied(s, b, line, t, k2);
      CopyIff(s, b, line, t, k2);
    }
  }

  /**
   * A quoted plain word shorter than the buffer is read up to its first
   * '\0', and whole when it has none; the closing quote is consumed.
   */
  lemma StringAt(s: seq<char>, p: nat, l: int, w: string)
    requires At(s, p, Quote(w)) && Plain(w) && |w| < BufferSize
    ensures StringStep(s, Cursor(p, l)) == Next(Terminated(w), Cursor(p + |w| + 2, l))
    ensures '\0' !in w ==> StringStep(s, Cursor(p, l)) == Next(w, Cursor(p + |w| + 2, l))
  {
    QuotedCopy(s, p, l, w);
    StringOpens(s, p, l);
    assert StringBodyStep(s, p + 1, l) == Next(Terminated(w), Cursor(p + |w| + 2, l));
    if '\0' !in w {
      TerminatedAt(w, |w|);
      assert w[..|w|] == w;
    }
  }

  /** The copy loop after the opening quote of a quoted plain word copies the word. */
  lemma QuotedCopy(s: seq<char>, p: nat, l: int, w: string)
    requires At(s, p, Quote(w)) && Plain(w) && |w| < BufferSize
    ensures p < |s| && s[p] == '"' && p + 1 <= |s|
    ensures CopyStep(s, p + 1, l) == Next(w, Cursor(p + |w| + 2, l))
  {
    assert Quote(w) == "\"" + (w + "\"");
    AtSplit(s, p, "\"", w + "\"");
    AtIndex(s, p, "\"", 0);
    CopyIff(s, p + 1, l, w, Cursor(p + |w| + 2, l));
  }

  /**
   * A '\0' inside a quoted word ends the string that strdup returns: what
   * follows it up to the closing quote is skipped.
   */
  lemma StringStopsAtNul(s: seq<char>, p: nat, l: int, w: string, j: nat)
    requires At(s, p, Quote(w)) && Plain(w) && |w| < BufferSize
    requires j < |w| && w[j] == '\0' && forall m :: 0 <= m < j ==> w[m] != '\0'
    ensures StringStep(s, Cursor(p, l)) == Next(w[..j], Cursor(p + |w| + 2, l))
  {
    StringAt(s, p, l, w);
    TerminatedAt(w, j);
  }

  /**
   * parse_string after its skip_ws has stopped at `k1`: it exits unless a
   * quote is there, and otherwise enters its copy loop just after it.
   */
  lemma StringAfterSpace(s: seq<char>, k: Cursor, k1: Cursor)
    requires k.pos <= |s| && SkipWsStep(s, k) == Next((), k1)
    ensures s[k1.pos] != '"' ==> ExitsWith(StringStep(s, k), ExpectedString)
    ensures s[k1.pos] == '"' ==> StringStep(s, k) == StringBodyStep(s, k1.pos + 1, k1.line)
  {
  }

  /**
   * parse_string returns `w` and stops at `k2` exactly when, after
   * whitespace, the input holds a quote and its copy loop copies some text
   * whose C string is `w` (Copied: plain, fewer than 128 characters, then a
   * closing quote, with `k2` just past it).
   */
  lemma StringIff(s: seq<char>, k: Cursor, q: nat, w: string, k2: Cursor)
    requires k.pos <= |s| && q == FirstNonSpace(s, k.pos)
    ensures StringStep(s, k) == Next(w, k2) <==>
              q < |s| && s[q] == '"' && CopiedString(s, q + 1, k.line + Newlines(s[k.pos..q]), w, k2)
  {
    if q < |s| && s[q] == '"' {
      StringIffAtQuote(s, k, q, w, k2);
    } else {
      StringNeedsQuote(s, k);
      assert StringStep(s, k).Halted?;
    }
  }

  /** StringIff when a quote follows the whitespace. */
  lemma StringIffAtQuote(s: seq<char>, k: Cursor, q: nat, w: string, k2: Cursor)
    requires k.pos <= |s| && q == FirstNonSpace(s, k.pos) && q < |s| && s[q] == '"'
    ensures StringStep(s, k) == Next(w, k2) <==> CopiedString(s, q + 1, k.line + Newlines(s[k.pos..q]), w, k2)
  {
    var line := k.line + Newlines(s[k.pos..q]);
    assert SkipWsStep(s, k) == Next((), Cursor(q, line)) by {
      SkipWsStops(s, k);
    }
    StringIffAfterSpace(s, k, q, line, w, k2);
  }

  /** Where skip_ws stops when a character other than whitespace follows. */
  lemma SkipWsStops(s: seq<char>, k: Cursor)
    requires k.pos <= |s| && FirstNonSpace(s, k.pos) < |s|
    ensures var q := FirstNonSpace(s, k.pos);
            SkipWsStep(s, k) == Next((), Cursor(q, k.line + Newlines(s[k.pos..q])))
  {
    SkipWsClosedForm(s, k);
  }

  /** StringIff, with the place where skip_ws stops given. */
  lemma StringIffAfterSpace(s: seq<char>, k: Cursor, q: nat, line: int, w: string, k2: Cursor)
    requires k.pos <= |s| && SkipWsStep(s, k) == Next((), Cursor(q, line)) && s[q] == '"'
    ensures StringStep(s, k) == Next(w, k2) <==> CopiedString(s, q + 1, line, w, k2)
  {
    StringAfterSpace(s, k, Cursor(q, line));
    StringBodyIff(s, q + 1, line, w, k2);
    if StringStep(s, k) == Next(w, k2) {
      assert StringBodyStep(s, q + 1, line) == Next(w, k2);
    }
    if CopiedString(s, q + 1, line, w, k2) {
      assert StringBodyStep(s, q + 1, line) == Next(w, k2);
    }
  }

  /** Without a quote after the whitespace, parse_string halts. */
  lemma StringNeedsQuote(s: seq<char>, k: Cursor)
    requires k.pos <= |s|
    requires FirstNonSpace(s, k.pos) == |s| || s[FirstNonSpace(s, k.pos)] != '"'
    ensures FirstNonSpace(s, k.pos) == |s| ==> ExitsWith(StringStep(s, k), UnexpectedEof)
    ensures FirstNonSpace(s, k.pos) < |s| ==> ExitsWith(StringStep(s, k), ExpectedString)
  {
    SkipWsClosedForm(s, k);
    var q := FirstNonSpace(s, k.pos);
    if q < |s| {
      StringAfterSpace(s, k, Cursor(q, k.line + Newlines(s[k.pos..q])));
    }
  }

  /** The copy loop stops at the first character after `w` that is not plain. */
  lemma PlainEndExactly(s: seq<char>, b: nat, w: string)
    requires At(s, b, w) && Plain(w) && b + |w| < |s| && !IsPlain(s[b + |w|])
    ensures PlainEnd(s, b) == b + |w|
  {
    PlainAt(s, b, w);
    PlainEndIs(s, b, b + |w|);
  }

  /** The copy loop never gets past whitespace. */
  lemma StringBodyHangs(s: seq<char>, b: nat, l: int, w: string)
    requires 0 < b && At(s, b, w) && Plain(w) && |w| < BufferSize
    requires b + |w| < |s| && IsSpace(s[b + |w|])
    ensures CopyStep(s, b, l) == Halted(Hang)
    ensures StringBodyStep(s, b, l) == Halted(Hang)
  {
    PlainEndExactly(s, b, w);
  }

  /** Whitespace reached before the buffer overruns makes parse_string loop forever. */
  lemma StringHangsOnSpace(s: seq<char>, p: nat, l: int, w: string, c: char)
    requires At(s, p, "\"" + w + [c]) && Plain(w) && |w| < BufferSize && IsSpace(c)
    ensures StringStep(s, Cursor(p, l)) == Halted(Hang)
  {
    QuoteThenAt(s, p, w, [c]);
    StringBodyHangs(s, p + 1, l, w);
    StringOpens(s, p, l);
  }

  /** Where the pieces of a quote, a word and a last character lie. */
  lemma QuoteThenAt(s: seq<char>, p: nat, w: string, tail: string)
    requires At(s, p, "\"" + w + tail) && |tail| <= 1
    ensures p < |s| && s[p] == '"' && At(s, p + 1, w)
    ensures tail != [] ==> s[p + 1 + |w|] == tail[0]
  {
    AtSplit(s, p, "\"" + w, tail);
    AtSplit(s, p, "\"", w);
    AtIndex(s, p, "\"", 0);
    if tail != [] {
      AtIndex(s, p + 1 + |w|, tail, 0);
    }
  }

  /**
   * 128 plain characters after the opening quote overrun the buffer,
   * whether a 129th plain character or the closing quote comes next.
   */
  lemma LongStringOverflows(s: seq<char>, p: nat, l: int, w: string)
    requires At(s, p, "\"" + w) && Plain(w) && |w| == BufferSize
    requires p + |w| + 1 < |s| && !IsSpace(s[p + |w| + 1])
    ensures StringStep(s, Cursor(p, l)) == Halted(Overflow)
  {
    assert "\"" + w == "\"" + w + [];
    QuoteThenAt(s, p, w, []);
    StringOpens(s, p, l);
    PlainAt(s, p + 1, w);
  }
  // ---------------------------------------------------------------------
  // next_number

  /**
   * next_number hands back what the conversion read, with a zero (or -1)
   * replaced by -1; it never halts, stops where the conversion stopped, and
   * leaves the line counter alone.
   */
  lemma NumberReturns(scan: Scanner, s: seq<char>, k: Cursor)
    requires k.pos <= |s|
    ensures var (val, next) := scan(s, k.pos);
            NumberStep(scan, s, k).Next? && NumberStep(scan, s, k).at == Cursor(next, k.line) &&
            (val == 0.0 || val == -1.0 ==> NumberStep(scan, s, k).value == -1.0) &&
            (val != 0.0 && val != -1.0 ==> NumberStep(scan, s, k).value == val)
  {
  }

  predicate AllDigits(d: seq<char>) {
    forall i :: 0 <= i < |d| ==> IsDigit(d[i])
  }

  /**
   * A numeral the decimal reader reads back whole: at least one integer
   * digit, and digits after the point.
   */
  predicate WellFormed(n: Numeral) {
    |n.whole| > 0 && AllDigits(n.whole) && AllDigits(n.fraction)
  }

  /** How the numeral `n` is written: an optional '-', digits, '.' and digits. */
  function NumeralText(n: Numeral): string {
    (if n.negative then "-" else "") + n.whole + (if n.fraction == [] then "" else "." + n.fraction)
  }

  /** A run of digits `d` that occurs in `s`, followed by something else. */
  lemma DigitsAt(s: seq<char>, a: nat, d: seq<char>)
    requires At(s, a, d) && AllDigits(d) && (a + |d| == |s| || !IsDigit(s[a + |d|]))
    ensures DigitEnd(s, a) == a + |d| && s[a..a + |d|] == d
  {
    forall m | a <= m < a + |d|
      ensures IsDigit(s[m])
    {
      AtIndex(s, a, d, m - a);
    }
    DigitEndIs(s, a, a + |d|);
    AtWhole(s, a, d);
  }

  /** Where the sign and the integer digits of a written numeral lie. */
  lemma SignAt(s: seq<char>, p: nat, n: Numeral, rest: string)
    requires WellFormed(n) && At(s, p, (if n.negative then "-" else "") + n.whole + rest)
    ensures var a := p + if n.negative then 1 else 0;
            p < |s| && FirstNonSpace(s, p) == p && s[p] != '+' && (n.negative <==> s[p] == '-') &&
            At(s, a, n.whole) && At(s, a + |n.whole|, rest)
  {
    var sign := if n.negative then "-" else "";
    AtSplit(s, p, sign + n.whole, rest);
    AtSplit(s, p, sign, n.whole);
    AtIndex(s, p + |sign|, n.whole, 0);
    assert IsDigit(n.whole[0]);
    if n.negative {
      AtIndex(s, p, sign, 0);
    }
  }

  /** What the decimal reader takes from a numeral with a fraction part. */
  lemma ScanWithFraction(s: seq<char>, p: nat, n: Numeral, a: nat, b: nat, e: nat)
    requires p < |s| && FirstNonSpace(s, p) == p
    requires s[p] != '+' && (n.negative <==> s[p] == '-') && a == p + (if n.negative then 1 else 0)
    requires a <= b < e <= |s| && DigitEnd(s, a) == b && s[b] == '.' && DigitEnd(s, b + 1) == e
    requires n.whole == s[a..b] && n.fraction == s[b + 1..e]
    ensures ScanNumeral(s, p) == (n, e)
  {
  }

  /** What the decimal reader takes from a numeral without one. */
  lemma ScanWhole(s: seq<char>, p: nat, n: Numeral, a: nat, b: nat)
    requires p < |s| && FirstNonSpace(s, p) == p
    requires s[p] != '+' && (n.negative <==> s[p] == '-') && a == p + (if n.negative then 1 else 0)
    requires a <= b < |s| && DigitEnd(s, a) == b && s[b] != '.'
    requires n.whole == s[a..b] && n.fraction == []
    ensures ScanNumeral(s, p) == (n, b)
  {
  }

  /** The decimal reader reads back a written numeral without a fraction. */
  lemma ScanIntegerAt(s: seq<char>, p: nat, n: Numeral)
    requires WellFormed(n) && n.fraction == [] && At(s, p, NumeralText(n))
    requires p + |NumeralText(n)| < |s| && !IsDigit(s[p + |NumeralText(n)|]) && s[p + |NumeralText(n)|] != '.'
    ensures ScanNumeral(s, p) == (n, p + |NumeralText(n)|)
  {
    var a := p + if n.negative then 1 else 0;
    assert NumeralText(n) == (if n.negative then "-" else "") + n.whole + "";
    SignAt(s, p, n, "");
    DigitsAt(s, a, n.whole);
    ScanWhole(s, p, n, a, a + |n.whole|);
  }

  /** A decimal point and the fraction digits `f` after it. */
  lemma PointAt(s: seq<char>, b: nat, f: string)
    requires At(s, b, "." + f) && AllDigits(f) && (b + 1 + |f| == |s| || !IsDigit(s[b + 1 + |f|]))
    ensures s[b] == '.' && DigitEnd(s, b + 1) == b + 1 + |f| && s[b + 1..b + 1 + |f|] == f
  {
    AtSplit(s, b, ".", f);
    AtIndex(s, b, ".", 0);
    DigitsAt(s, b + 1, f);
  }

  /** The decimal reader reads back a written numeral with a fraction. */
  lemma ScanFractionAt(s: seq<char>, p: nat, n: Numeral)
    requires WellFormed(n) && n.fraction != [] && At(s, p, NumeralText(n))
    requires p + |NumeralText(n)| < |s| && !IsDigit(s[p + |NumeralText(n)|])
    ensures ScanNumeral(s, p) == (n, p + |NumeralText(n)|)
  {
    var a := p + if n.negative then 1 else 0;
    var b := a + |n.whole|;
    SignAt(s, p, n, "." + n.fraction);
    PointAt(s, b, n.fraction);
    AtIndex(s, b, "." + n.fraction, 0);
    DigitsAt(s, a, n.whole);
    ScanWithFraction(s, p, n, a, b, b + 1 + |n.fraction|);
  }

  /**
   * The decimal reader reads back exactly a written numeral when a
   * character that cannot extend it follows, and yields its value.
   */
  lemma DecimalAt(s: seq<char>, p: nat, n: Numeral)
    requires WellFormed(n) && At(s, p, NumeralText(n))
    requires p + |NumeralText(n)| < |s| && !IsDigit(s[p + |NumeralText(n)|]) && s[p + |NumeralText(n)|] != '.'
    ensures Decimal(s, p) == (NumeralReal(n), p + |NumeralText(n)|)
  {
    if n.fraction == [] {
      ScanIntegerAt(s, p, n);
    } else {
      ScanFractionAt(s, p, n);
    }
  }

  /** A written numeral whose value is 0, such as "0.00", is handed back as -1. */
  lemma ZeroNumeralBecomesMinusOne(s: seq<char>, p: nat, l: int, n: Numeral)
    requires WellFormed(n) && At(s, p, NumeralText(n))
    requires p + |NumeralText(n)| < |s| && !IsDigit(s[p + |NumeralText(n)|]) && s[p + |NumeralText(n)|] != '.'
    requires NumeralReal(n) == 0.0
    ensures NumberStep(Decimal, s, Cursor(p, l)) == Next(-1.0, Cursor(p + |NumeralText(n)|, l))
  {
    DecimalAt(s, p, n);
  }

  /** A parsed zero is reported and next_number hands back -1 instead. */
  lemma ZeroBecomesMinusOne(l: int)
    ensures NumberStep(Decimal, "0,", Cursor(0, l)) == Next(-1.0, Cursor(1, l))
  {
    assert DigitEnd("0,", 0) == 1;
    assert "0,"[0..1] == "0";
    assert DigitsValue("0") == 0;
  }

  /**
   * Any other value comes back unchanged: a written numeral whose value is
   * neither 0 nor -1 is handed back as that value, with the cursor just past
   * it and the line counter untouched.
   */
  lemma OtherValuesUnchanged(s: seq<char>, p: nat, l: int, n: Numeral)
    requires WellFormed(n) && At(s, p, NumeralText(n))
    requires p + |NumeralText(n)| < |s| && !IsDigit(s[p + |NumeralText(n)|]) && s[p + |NumeralText(n)|] != '.'
    requires NumeralReal(n) != 0.0 && NumeralReal(n) != -1.0
    ensures NumberStep(Decimal, s, Cursor(p, l)) == Next(NumeralReal(n), Cursor(p + |NumeralText(n)|, l))
  {
    DecimalAt(s, p, n);
  }

  /** An instance of OtherValuesUnchanged: "-2.5" reads as -2.5. */
  lemma NegativeFractionUnchanged(l: int)
    ensures NumberStep(Decimal, "-2.5]", Cursor(0, l)) == Next(-2.5, Cursor(4, l))
  {
    var s := "-2.5]";
    assert FirstNonSpace(s, 0) == 0;
    assert DigitEnd(s, 1) == 2;
    assert DigitEnd(s, 3) == 4;
    assert s[1..2] == [s[1]] == "2";
    assert s[3..4] == [s[3]] == "5";
    assert DigitsValue("2") == 2 && DigitsValue("5") == 5;
  }

  /**
   * fscanf skips leading whitespace itself, so a newline it passes is not
   * counted in `line`, unlike one passed by skip_ws.
   */
  lemma NumberDoesNotCountLines()
    ensures NumberStep(Decimal, "\n7,", Cursor(0, 1)) == Next(7.0, Cursor(2, 1))
    ensures SkipWsStep("\n7,", Cursor(0, 1)) == Next((), Cursor(1, 2))
  {
    var s := "\n7,";
    assert FirstNonSpace(s, 0) == 1;
    assert DigitEnd(s, 1) == 2;
    assert s[1..2] == "7";
    assert DigitsValue("7") == 7;
    assert SkipWsStep(s, Cursor(1, 2)) == Next((), Cursor(1, 2));
  }

  // ---------------------------------------------------------------------
  // next_vector

  /** What next_vector does after one number: skip_ws, expect_c(sep), skip_ws. */
  lemma SeparatorSteps(s: seq<char>, q: nat, l: int, g1: string, sep: char, g2: string)
    requires AllSpace(g1) && AllSpace(g2) && !IsSpace(sep)
    requires At(s, q, g1) && q + |g1| < |s| && s[q + |g1|] == sep && At(s, q + |g1| + 1, g2)
    requires q + |g1| + 1 + |g2| < |s| && !IsSpace(s[q + |g1| + 1 + |g2|])
    ensures SkipWsStep(s, Cursor(q, l)) == Next((), Cursor(q + |g1|, l + Newlines(g1)))
    ensures ExpectCharStep(s, Cursor(q + |g1|, l + Newlines(g1)), sep)
         == Next((), Cursor(q + |g1| + 1, l + Newlines(g1)))
    ensures SkipWsStep(s, Cursor(q + |g1| + 1, l + Newlines(g1)))
         == Next((), Cursor(q + |g1| + 1 + |g2|, l + Newlines(g1) + Newlines(g2)))
  {
    SkipRunAt(s, q, l, g1);
    SkipRunAt(s, q + |g1| + 1, l + Newlines(g1), g2);
  }

  /** One number of a vector, put together from its steps. */
  lemma ComponentChain(scan: Scanner, s: seq<char>, k: Cursor, sep: char, v: real,
                       k1: Cursor, k2: Cursor, k3: Cursor, k4: Cursor)
    requires k.pos <= |s| && NumberStep(scan, s, k) == Next(v, k1)
    requires k1.pos <= |s| && SkipWsStep(s, k1) == Next((), k2)
    requires k2.pos <= |s| && ExpectCharStep(s, k2, sep) == Next((), k3)
    requires k3.pos <= |s| && SkipWsStep(s, k3) == Next((), k4)
    ensures ComponentStep(scan, s, k, sep) == Next(v, k4)
  {
  }

  /**
   * Where a number of a vector ends (`q`) and the whitespace around the
   * separator after it.
   */
  datatype Spacing = Spacing(q: nat, before: string, after: string) {
    /** Where the next token begins. */
    function End(): nat {
      q + |before| + 1 + |after|
    }

    function Lines(): nat {
      Newlines(before) + Newlines(after)
    }
  }

  /**
   * At `p` the input holds a number that the conversion reads as `v`, then
   * whitespace, the separator `sep` and whitespace as `sp` says, and then a
   * character other than whitespace.
   */
  ghost predicate ComponentLaidOut(scan: Scanner, s: seq<char>, p: nat, v: real, sp: Spacing, sep: char) {
    p <= |s| && scan(s, p) == (v, sp.q) && AllSpace(sp.before) && AllSpace(sp.after) && !IsSpace(sep) &&
    At(s, sp.q, sp.before) && sp.q + |sp.before| < |s| && s[sp.q + |sp.before|] == sep &&
    At(s, sp.q + |sp.before| + 1, sp.after) && sp.End() < |s| && !IsSpace(s[sp.End()])
  }

  /** One number of a vector, with the separator after it. */
  lemma ComponentAt(scan: Scanner, s: seq<char>, p: nat, l: int, v: real, sp: Spacing, sep: char)
    requires ComponentLaidOut(scan, s, p, v, sp, sep)
    ensures ComponentStep(scan, s, Cursor(p, l), sep) == Next(Returned(v), Cursor(sp.End(), l + sp.Lines()))
  {
    var q, l1 := sp.q, l + Newlines(sp.before);
    SeparatorSteps(s, q, l, sp.before, sep, sp.after);
    ComponentChain(scan, s, Cursor(p, l), sep, Returned(v), Cursor(q, l),
                   Cursor(q + |sp.before|, l1), Cursor(q + |sp.before| + 1, l1),
                   Cursor(sp.End(), l + sp.Lines()));
  }

  /** A vector, put together from its steps. */
  lemma VectorChain(scan: Scanner, s: seq<char>, k: Cursor, x: real, y: real, z: real,
                    k1: Cursor, k2: Cursor, k3: Cursor, k4: Cursor, k5: Cursor)
    requires k.pos <= |s| && ExpectCharStep(s, k, '[') == Next((), k1)
    requires k1.pos <= |s| && SkipWsStep(s, k1) == Next((), k2)
    requires k2.pos <= |s| && ComponentStep(scan, s, k2, ',') == Next(x, k3)
    requires k3.pos <= |s| && ComponentStep(scan, s, k3, ',') == Next(y, k4)
    requires k4.pos <= |s| && ComponentStep(scan, s, k4, ']') == Next(z, k5)
    ensures VectorStep(scan, s, k) == Next([x, y, z], k5)
  {
  }

  /**
   * At `p` the input holds '[', the whitespace `g`, and three numbers that
   * the conversion reads as `x`, `y` and `z`, followed (as `a`, `b` and `c`
   * say) by ',', ',' and ']' with whitespace around each.
   */
  ghost predicate VectorLaidOut(scan: Scanner, s: seq<char>, p: nat, g: string,
                                x: real, a: Spacing, y: real, b: Spacing, z: real, c: Spacing) {
    p < |s| && s[p] == '[' && AllSpace(g) && At(s, p + 1, g) &&
    p + 1 + |g| < |s| && !IsSpace(s[p + 1 + |g|]) &&
    ComponentLaidOut(scan, s, p + 1 + |g|, x, a, ',') &&
    ComponentLaidOut(scan, s, a.End(), y, b, ',') &&
    ComponentLaidOut(scan, s, b.End(), z, c, ']')
  }

  /** The three numbers of a vector, from the first one on. */
  lemma ComponentsAt(scan: Scanner, s: seq<char>, p: nat, l: int, x: real, a: Spacing, y: real, b: Spacing, z: real, c: Spacing)
    requires ComponentLaidOut(scan, s, p, x, a, ',')
    requires ComponentLaidOut(scan, s, a.End(), y, b, ',')
    requires ComponentLaidOut(scan, s, b.End(), z, c, ']')
    ensures ComponentStep(scan, s, Cursor(p, l), ',') == Next(Returned(x), Cursor(a.End(), l + a.Lines()))
    ensures ComponentStep(scan, s, Cursor(a.End(), l + a.Lines()), ',')
         == Next(Returned(y), Cursor(b.End(), l + a.Lines() + b.Lines()))
    ensures ComponentStep(scan, s, Cursor(b.End(), l + a.Lines() + b.Lines()), ']')
         == Next(Returned(z), Cursor(c.End(), l + a.Lines() + b.Lines() + c.Lines()))
  {
    ComponentAt(scan, s, p, l, x, a, ',');
    ComponentAt(scan, s, a.End(), l + a.Lines(), y, b, ',');
    ComponentAt(scan, s, b.End(), l + a.Lines() + b.Lines(), z, c, ']');
  }

  /** Each step of next_vector on a vector laid out as VectorLaidOut says. */
  lemma VectorSteps(scan: Scanner, s: seq<char>, p: nat, l: int, g: string,
                    x: real, a: Spacing, y: real, b: Spacing, z: real, c: Spacing)
    requires VectorLaidOut(scan, s, p, g, x, a, y, b, z, c)
    ensures ExpectCharStep(s, Cursor(p, l), '[') == Next((), Cursor(p + 1, l))
    ensures SkipWsStep(s, Cursor(p + 1, l)) == Next((), Cursor(p + 1 + |g|, l + Newlines(g)))
    ensures ComponentStep(scan, s, Cursor(p + 1 + |g|, l + Newlines(g)), ',')
         == Next(Returned(x), Cursor(a.End(), l + Newlines(g) + a.Lines()))
    ensures ComponentStep(scan, s, Cursor(a.End(), l + Newlines(g) + a.Lines()), ',')
         == Next(Returned(y), Cursor(b.End(), l + Newlines(g) + a.Lines() + b.Lines()))
    ensures ComponentStep(scan, s, Cursor(b.End(), l + Newlines(g) + a.Lines() + b.Lines()), ']')
         == Next(Returned(z), Cursor(c.End(), l + Newlines(g) + a.Lines() + b.Lines() + c.Lines()))
  {
    SkipRunAt(s, p + 1, l, g);
    ComponentsAt(scan, s, p + 1 + |g|, l + Newlines(g), x, a, y, b, z, c);
  }

  /**
   * next_vector reads '[' num ',' num ',' num ']' with any whitespace between
   * the tokens, returns the three numbers in order (as next_number hands them
   * back), consumes the whitespace after the ']', and counts the newlines in
   * all of that whitespace.
   */
  lemma VectorAt(scan: Scanner, s: seq<char>, p: nat, l: int, g: string,
                 x: real, a: Spacing, y: real, b: Spacing, z: real, c: Spacing)
    requires VectorLaidOut(scan, s, p, g, x, a, y, b, z, c)
    ensures VectorStep(scan, s, Cursor(p, l))
         == Next([Returned(x), Returned(y), Returned(z)],
                 Cursor(c.End(), l + Newlines(g) + a.Lines() + b.Lines() + c.Lines()))
  {
    var l2 := l + Newlines(g);
    VectorSteps(scan, s, p, l, g, x, a, y, b, z, c);
    VectorChain(scan, s, Cursor(p, l), Returned(x), Returned(y), Returned(z),
                Cursor(p + 1, l), Cursor(p + 1 + |g|, l2), Cursor(a.End(), l2 + a.Lines()),
                Cursor(b.End(), l2 + a.Lines() + b.Lines()), Cursor(c.End(), l2 + a.Lines() + b.Lines() + c.Lines()));
  }

  // ---------------------------------------------------------------------
  // What next_vector rejects, and the converse of VectorAt

  /** next_vector exits unless its first character is '['. */
  lemma VectorNeedsBracket(scan: Scanner, s: seq<char>, k: Cursor)
    requires k.pos <= |s|
    ensures k.pos == |s| ==> ExitsWith(VectorStep(scan, s, k), UnexpectedEof)
    ensures k.pos < |s| && s[k.pos] != '[' ==> ExitsWith(VectorStep(scan, s, k), ExpectedChar('['))
  {
    ExpectCharIff(s, k, '[');
  }

  /**
   * After a number of a vector and the whitespace after it, a character
   * other than the separator is fatal, and so is the end of the input.
   */
  lemma ComponentNeedsSeparator(scan: Scanner, s: seq<char>, k: Cursor, sep: char)
    requires k.pos <= |s|
    ensures var k1 := Cursor(scan(s, k.pos).1, k.line);
            SkipWsStep(s, k1).Halted? ==> ExitsWith(ComponentStep(scan, s, k, sep), UnexpectedEof)
    ensures var k1 := Cursor(scan(s, k.pos).1, k.line);
            SkipWsStep(s, k1).Next? && s[SkipWsStep(s, k1).at.pos] != sep ==>
              ExitsWith(ComponentStep(scan, s, k, sep), ExpectedChar(sep))
  {
    var k1 := Cursor(scan(s, k.pos).1, k.line);
    SkipWsClosedForm(s, k1);
    if SkipWsStep(s, k1).Next? {
      ExpectCharIff(s, SkipWsStep(s, k1).at, sep);
    }
  }

  /** A number of a vector that is rejected rejects the vector in the same way. */
  lemma VectorStopsAtComponent(scan: Scanner, s: seq<char>, k: Cursor, k2: Cursor)
    requires k.pos < |s| && s[k.pos] == '[' && SkipWsStep(s, Cursor(k.pos + 1, k.line)) == Next((), k2)
    requires k2.pos <= |s| && ComponentStep(scan, s, k2, ',').Halted?
    ensures VectorStep(scan, s, k) == Halted(ComponentStep(scan, s, k2, ',').halt)
  {
    assert ExpectCharStep(s, k, '[') == Next((), Cursor(k.pos + 1, k.line));
  }

  /** The run of whitespace from `i` on, as a text. */
  lemma SpaceRunAt(s: seq<char>, i: nat)
    requires i <= |s|
    ensures var j := FirstNonSpace(s, i);
            AllSpace(s[i..j]) && At(s, i, s[i..j])
  {
    FirstNonSpaceSpans(s, i);
    var g := s[i..FirstNonSpace(s, i)];
    forall m | 0 <= m < |g|
      ensures IsSpace(g[m])
    {
      assert g[m] == s[i + m];
    }
    AtOfSlice(s, i, g);
  }

  /**
   * The spacing after a number of a vector that starts at `p`: where the
   * conversion stops, the whitespace up to the next character, and the
   * whitespace after that one.
   */
  ghost function SpacingAt(scan: Scanner, s: seq<char>, p: nat): Spacing
    requires p <= |s|
  {
    var q := scan(s, p).1;
    var j := FirstNonSpace(s, q);
    if j == |s| then Spacing(q, s[q..j], []) else Spacing(q, s[q..j], s[j + 1..FirstNonSpace(s, j + 1)])
  }

  /**
   * The converse of ComponentAt: a number of a vector that is read is laid
   * out as ComponentLaidOut says, with the spacing that SpacingAt finds.
   */
  lemma ComponentLaidOutFrom(scan: Scanner, s: seq<char>, p: nat, l: int, sep: char, v: real, k4: Cursor)
    requires p <= |s| && ComponentStep(scan, s, Cursor(p, l), sep) == Next(v, k4)
    ensures var sp := SpacingAt(scan, s, p);
            ComponentLaidOut(scan, s, p, scan(s, p).0, sp, sep) &&
            v == Returned(scan(s, p).0) && k4 == Cursor(sp.End(), l + sp.Lines())
  {
    var q := scan(s, p).1;
    var j := FirstNonSpace(s, q);
    ComponentUnchained(scan, s, p, l, sep, v, k4);
    var j2 := FirstNonSpace(s, j + 1);
    SeparatorLaidOut(scan, s, p, sep, j, j2);
    SpacingAtIs(scan, s, p, j, j2);
  }

  /** The positions where the steps of a number of a vector that is read stop. */
  lemma ComponentUnchained(scan: Scanner, s: seq<char>, p: nat, l: int, sep: char, v: real, k4: Cursor)
    requires p <= |s| && ComponentStep(scan, s, Cursor(p, l), sep) == Next(v, k4)
    ensures var q := scan(s, p).1;
            var j := FirstNonSpace(s, q);
            j < |s| && s[j] == sep && FirstNonSpace(s, j + 1) < |s| &&
            v == Returned(scan(s, p).0) &&
            k4 == Cursor(FirstNonSpace(s, j + 1), l + Newlines(s[q..j]) + Newlines(s[j + 1..FirstNonSpace(s, j + 1)]))
  {
    var q := scan(s, p).1;
    var j := FirstNonSpace(s, q);
    ComponentStepsOf(scan, s, p, l, sep, v, k4);
    SkipWsClosedForm(s, Cursor(q, l));
    var k2 := Cursor(j, l + Newlines(s[q..j]));
    assert SkipWsStep(s, Cursor(q, l)).at == k2;
    ExpectCharIff(s, k2, sep);
    assert ExpectCharStep(s, k2, sep).at == Cursor(j + 1, k2.line);
    SkipWsClosedForm(s, Cursor(j + 1, k2.line));
  }

  /** The three steps of next_vector's reading of one number that is read. */
  lemma ComponentStepsOf(scan: Scanner, s: seq<char>, p: nat, l: int, sep: char, v: real, k4: Cursor)
    requires p <= |s| && ComponentStep(scan, s, Cursor(p, l), sep) == Next(v, k4)
    ensures var w := SkipWsStep(s, Cursor(scan(s, p).1, l));
            w.Next? && var d := ExpectCharStep(s, w.at, sep);
            d.Next? && var w2 := SkipWsStep(s, d.at);
            w2.Next? && w2.at == k4 && v == Returned(scan(s, p).0)
  {
  }

  /** The spacing around the separator after a number, where whitespace ends. */
  lemma SeparatorLaidOut(scan: Scanner, s: seq<char>, p: nat, sep: char, j: nat, j2: nat)
    requires p <= |s| && j == FirstNonSpace(s, scan(s, p).1) && j < |s| && s[j] == sep
    requires j2 == FirstNonSpace(s, j + 1) && j2 < |s|
    ensures ComponentLaidOut(scan, s, p, scan(s, p).0, SpacingAt(scan, s, p), sep)
  {
    var q := scan(s, p).1;
    GapsLaidOut(scan, s, p, q, j, j2, sep);
    SpacingAtIs(scan, s, p, j, j2);
  }

  lemma SpacingAtIs(scan: Scanner, s: seq<char>, p: nat, j: nat, j2: nat)
    requires p <= |s| && j == FirstNonSpace(s, scan(s, p).1) && j < |s| && j2 == FirstNonSpace(s, j + 1)
    ensures SpacingAt(scan, s, p) == Spacing(scan(s, p).1, s[scan(s, p).1..j], s[j + 1..j2])
  {
  }

  /** ComponentLaidOut from the positions where the two runs of whitespace end. */
  lemma GapsLaidOut(scan: Scanner, s: seq<char>, p: nat, q: nat, j: nat, j2: nat, sep: char)
    requires p <= |s| && scan(s, p).1 == q && j == FirstNonSpace(s, q) && j < |s| && s[j] == sep
    requires j2 == FirstNonSpace(s, j + 1) && j2 < |s|
    ensures ComponentLaidOut(scan, s, p, scan(s, p).0, Spacing(q, s[q..j], s[j + 1..j2]), sep)
  {
    SpaceRunAt(s, q);
    SpaceRunAt(s, j + 1);
  }

  /** The steps of a vector that next_vector reads. */
  lemma VectorUnchained(scan: Scanner, s: seq<char>, p: nat, l: int, v: seq<real>, k5: Cursor)
    requires p <= |s| && VectorStep(scan, s, Cursor(p, l)) == Next(v, k5)
    ensures p < |s| && s[p] == '[' && SkipWsStep(s, Cursor(p + 1, l)).Next?
    ensures var k2 := SkipWsStep(s, Cursor(p + 1, l)).at;
            var x := ComponentStep(scan, s, k2, ',');
            x.Next? && var y := ComponentStep(scan, s, x.at, ',');
            y.Next? && var z := ComponentStep(scan, s, y.at, ']');
            z == Next(v[2], k5) && v == [x.value, y.value, z.value]
  {
    ExpectCharIff(s, Cursor(p, l), '[');
  }

  /**
   * The converse of VectorAt: a vector that next_vector reads is laid out as
   * VectorLaidOut says, and the numbers and the cursor are the ones VectorAt
   * gives.
   */
  lemma VectorLaidOutFrom(scan: Scanner, s: seq<char>, p: nat, l: int, v: seq<real>, k5: Cursor)
    requires p <= |s| && VectorStep(scan, s, Cursor(p, l)) == Next(v, k5)
    ensures exists g: string, x: real, a: Spacing, y: real, b: Spacing, z: real, c: Spacing ::
              VectorLaidOut(scan, s, p, g, x, a, y, b, z, c) &&
              v == [Returned(x), Returned(y), Returned(z)] &&
              k5 == Cursor(c.End(), l + Newlines(g) + a.Lines() + b.Lines() + c.Lines())
  {
    VectorUnchained(scan, s, p, l, v, k5);
    var k2 := SkipWsStep(s, Cursor(p + 1, l)).at;
    var k3 := ComponentStep(scan, s, k2, ',').at;
    var k4 := ComponentStep(scan, s, k3, ',').at;
    ComponentLaidOutFrom(scan, s, k2.pos, k2.line, ',', v[0], k3);
    ComponentLaidOutFrom(scan, s, k3.pos, k3.line, ',', v[1], k4);
    ComponentLaidOutFrom(scan, s, k4.pos, k4.line, ']', v[2], k5);
    SkipWsGap(s, Cursor(p + 1, l));
    VectorOfLayouts(scan, s, p, l, v, k2, k3, k4, k5);
  }

  /** The converse of VectorAt once each step is replaced by the text it reads. */
  lemma VectorOfLayouts(scan: Scanner, s: seq<char>, p: nat, l: int, v: seq<real>,
                        k2: Cursor, k3: Cursor, k4: Cursor, k5: Cursor)
    requires p < |s| && s[p] == '[' && |v| == 3
    requires p + 1 <= k2.pos <= |s| && AllSpace(s[p + 1..k2.pos]) && At(s, p + 1, s[p + 1..k2.pos])
    requires k2.pos < |s| ==> !IsSpace(s[k2.pos])
    requires k2.line == l + Newlines(s[p + 1..k2.pos])
    requires k3.pos <= |s| && k4.pos <= |s|
    requires var a := SpacingAt(scan, s, k2.pos);
             ComponentLaidOut(scan, s, k2.pos, scan(s, k2.pos).0, a, ',') &&
             v[0] == Returned(scan(s, k2.pos).0) && k3 == Cursor(a.End(), k2.line + a.Lines())
    requires var b := SpacingAt(scan, s, k3.pos);
             ComponentLaidOut(scan, s, k3.pos, scan(s, k3.pos).0, b, ',') &&
             v[1] == Returned(scan(s, k3.pos).0) && k4 == Cursor(b.End(), k3.line + b.Lines())
    requires var c := SpacingAt(scan, s, k4.pos);
             ComponentLaidOut(scan, s, k4.pos, scan(s, k4.pos).0, c, ']') &&
             v[2] == Returned(scan(s, k4.pos).0) && k5 == Cursor(c.End(), k4.line + c.Lines())
    ensures exists g: string, x: real, a: Spacing, y: real, b: Spacing, z: real, c: Spacing ::
              VectorLaidOut(scan, s, p, g, x, a, y, b, z, c) &&
              v == [Returned(x), Returned(y), Returned(z)] &&
              k5 == Cursor(c.End(), l + Newlines(g) + a.Lines() + b.Lines() + c.Lines())
  {
    var g := s[p + 1..k2.pos];
    var a, b, c := SpacingAt(scan, s, k2.pos), SpacingAt(scan, s, k3.pos), SpacingAt(scan, s, k4.pos);
    var x, y, z := scan(s, k2.pos).0, scan(s, k3.pos).0, scan(s, k4.pos).0;
    VectorOfComponents(scan, s, p, g, x, a, y, b, z, c);
    assert v == [Returned(x), Returned(y), Returned(z)];
  }

  /** VectorLaidOut from its separate parts. */
  lemma VectorOfComponents(scan: Scanner, s: seq<char>, p: nat, g: string,
                           x: real, a: Spacing, y: real, b: Spacing, z: real, c: Spacing)
    requires p < |s| && s[p] == '[' && AllSpace(g) && At(s, p + 1, g)
    requires p + 1 + |g| < |s| && !IsSpace(s[p + 1 + |g|])
    requires ComponentLaidOut(scan, s, p + 1 + |g|, x, a, ',')
    requires ComponentLaidOut(scan, s, a.End(), y, b, ',')
    requires ComponentLaidOut(scan, s, b.End(), z, c, ']')
    ensures VectorLaidOut(scan, s, p, g, x, a, y, b, z, c)
  {
  }

  /** The whitespace that skip_ws passes over, as a text. */
  lemma SkipWsGap(s: seq<char>, k: Cursor)
    requires k.pos <= |s| && SkipWsStep(s, k).Next?
    ensures var j := SkipWsStep(s, k).at.pos;
            k.pos <= j <= |s| && AllSpace(s[k.pos..j]) && At(s, k.pos, s[k.pos..j]) &&
            (j < |s| ==> !IsSpace(s[j])) && SkipWsStep(s, k).at.line == k.line + Newlines(s[k.pos..j])
  {
    SkipWsClosedForm(s, k);
    SpaceRunAt(s, k.pos);
  }
}
