/**
 * What the scene-file reader of json.c does to its input, as functions of the
 * input text and a cursor.
 *
 * The `FILE*` is the character sequence `s` read from a cursor position; the
 * global `line` counter travels with the position in `Cursor`. Every reading
 * step below either moves to a new cursor with a value (`Next`) or stops the
 * program (`Halted`): an `exit(1)` with the line counter at that moment, the
 * endless loop of `parse_string`, or a write past the end of its buffer.
 * The methods of JsonReader are proved to do exactly these steps.
 */
module JsonSyntax {

  datatype Cursor = Cursor(pos: nat, line: int)

  /** Why an `exit(1)` was taken. */
  datatype Reason =
    | UnexpectedEof              // next_c at end of input
    | ExpectedChar(d: char)      // expect_c(d)
    | ExpectedString             // parse_string without an opening quote
    | MustBeginWithBracket       // read_json, first character
    | EmptyList                  // read_json, "[ ]"
    | FirstKeyNotType            // first key of an object
    | UnknownType                // type other than camera, sphere, plane
    | UnknownKey                 // key other than the six known ones
    | UnexpectedValue(c: char)   // neither ',' nor '}' inside an object
    | ExpectedCommaOrBracket     // neither ',' nor ']' after an object

  datatype Halt =
    | Exit(reason: Reason, line: int)  // exit(1)
    | Hang                             // parse_string's `continue` loops forever
    | Overflow                         // write past the 128-character buffer

  /** How read_json returns when it does not exit. */
  datatype Ending =
    | Finished      // ']' after an object (json.c:211-214)
    | Unterminated  // ']' where an object was expected (json.c:130-134)

  /** One reading step: the value read and the cursor after it, or a halt. */
  datatype Step<+T> = Next(value: T, at: Cursor) | Halted(halt: Halt) {
    predicate IsFailure() { Halted? }
    function PropagateFailure<U>(): Step<U> requires Halted? { Halted(halt) }
    function Extract(): Step<T> requires Next? { this }
  }

  /** The capacity of parse_string's `char buffer[128]`. */
  const BufferSize: nat := 128

  /** C's isspace in the "C" locale. */
  predicate IsSpace(c: char) {
    c == ' ' || ('\t' <= c <= '\r')
  }

  predicate IsDigit(c: char) {
    '0' <= c <= '9'
  }

  /** A character that parse_string copies into its buffer. */
  predicate IsPlain(c: char) {
    c != '"' && !IsSpace(c)
  }

  predicate IsNumberKey(key: string) {
    key == "width" || key == "height" || key == "radius"
  }

  predicate IsVectorKey(key: string) {
    key == "color" || key == "position" || key == "normal"
  }

  predicate IsObjectType(t: string) {
    t == "camera" || t == "sphere" || t == "plane"
  }

  /** The character just before position `p` of `s`, the last one read, is `c`. */
  predicate ReadBefore(s: seq<char>, p: int, c: char) {
    0 < p <= |s| && s[p - 1] == c
  }

  /** The first position at or after `i` that does not hold whitespace. */
  function FirstNonSpace(s: seq<char>, i: nat): (j: nat)
    requires i <= |s|
    ensures i <= j <= |s| && (j < |s| ==> !IsSpace(s[j]))
    decreases |s| - i
  {
    if i == |s| || !IsSpace(s[i]) then i else FirstNonSpace(s, i + 1)
  }

  /** Every character FirstNonSpace passes satisfies IsSpace. */
  lemma {:induction false} FirstNonSpaceSpans(s: seq<char>, i: nat)
    requires i <= |s|
    ensures forall m :: i <= m < FirstNonSpace(s, i) ==> IsSpace(s[m])
    decreases |s| - i
  {
    if i < |s| && IsSpace(s[i]) {
      FirstNonSpaceSpans(s, i + 1);
    }
  }

  /** A run of IsSpace characters from `i` that stops at `j` ends at `j`. */
  lemma {:induction false} FirstNonSpaceIs(s: seq<char>, i: nat, j: nat)
    requires i <= j <= |s| && forall m :: i <= m < j ==> IsSpace(s[m])
    requires j == |s| || !IsSpace(s[j])
    ensures FirstNonSpace(s, i) == j
    decreases j - i
  {
    if i < j {
      FirstNonSpaceIs(s, i + 1, j);
    }
  }

  /** The first position at or after `i` that does not hold a decimal digit. */
  function DigitEnd(s: seq<char>, i: nat): (j: nat)
    requires i <= |s|
    ensures i <= j <= |s| && (j < |s| ==> !IsDigit(s[j]))
    decreases |s| - i
  {
    if i == |s| || !IsDigit(s[i]) then i else DigitEnd(s, i + 1)
  }

  /** Every character DigitEnd passes satisfies IsDigit. */
  lemma {:induction false} DigitEndSpans(s: seq<char>, i: nat)
    requires i <= |s|
    ensures forall m :: i <= m < DigitEnd(s, i) ==> IsDigit(s[m])
    decreases |s| - i
  {
    if i < |s| && IsDigit(s[i]) {
      DigitEndSpans(s, i + 1);
    }
  }

  /** A run of IsDigit characters from `i` that stops at `j` ends at `j`. */
  lemma {:induction false} DigitEndIs(s: seq<char>, i: nat, j: nat)
    requires i <= j <= |s| && forall m :: i <= m < j ==> IsDigit(s[m])
    requires j == |s| || !IsDigit(s[j])
    ensures DigitEnd(s, i) == j
    decreases j - i
  {
    if i < j {
      DigitEndIs(s, i + 1, j);
    }
  }

  /** The first position at or after `i` that holds a quote or whitespace. */
  function PlainEnd(s: seq<char>, i: nat): (j: nat)
    requires i <= |s|
    ensures i <= j <= |s| && (j < |s| ==> !IsPlain(s[j]))
    decreases |s| - i
  {
    if i == |s| || !IsPlain(s[i]) then i else PlainEnd(s, i + 1)
  }

  /** Every character PlainEnd passes satisfies IsPlain. */
  lemma {:induction false} PlainEndSpans(s: seq<char>, i: nat)
    requires i <= |s|
    ensures forall m :: i <= m < PlainEnd(s, i) ==> IsPlain(s[m])
    decreases |s| - i
  {
    if i < |s| && IsPlain(s[i]) {
      PlainEndSpans(s, i + 1);
    }
  }

  /** A run of IsPlain characters from `i` that stops at `j` ends at `j`. */
  lemma {:induction false} PlainEndIs(s: seq<char>, i: nat, j: nat)
    requires i <= j <= |s| && forall m :: i <= m < j ==> IsPlain(s[m])
    requires j == |s| || !IsPlain(s[j])
    ensures PlainEnd(s, i) == j
    decreases j - i
  {
    if i < j {
      PlainEndIs(s, i + 1, j);
    }
  }

  /** The value of a string of decimal digits. */
  function DigitsValue(d: seq<char>): int {
    if d == [] then 0 else 10 * DigitsValue(d[..|d| - 1]) + (d[|d| - 1] as int - '0' as int)
  }

  /** The value of the fraction digits `d` read after a decimal point. */
  function FractionValue(d: seq<char>): real {
    if d == [] then 0.0 else ((d[0] as int - '0' as int) as real + FractionValue(d[1..])) / 10.0
  }

  /** The pieces of a decimal numeral: its sign, integer digits and fraction digits. */
  datatype Numeral = Numeral(negative: bool, whole: seq<char>, fraction: seq<char>)

  /** The value of a numeral; one without any digit (a failed conversion) is 0. */
  function NumeralReal(n: Numeral): real {
    if n.whole == [] && n.fraction == [] then 0.0
    else
      var magnitude := DigitsValue(n.whole) as real + FractionValue(n.fraction);
      if n.negative then -magnitude else magnitude
  }

  /**
   * The text `fscanf(json, "%lf", &val)` consumes, as far as this model goes:
   * whitespace (without counting lines), an optional sign, digits, and an
   * optional '.' with more digits. Returns the pieces and the position after
   * the longest such prefix.
   */
  function ScanNumeral(s: seq<char>, i: nat): (r: (Numeral, nat))
    requires i <= |s|
    ensures i <= r.1 <= |s|
  {
    var j := FirstNonSpace(s, i);
    var a := if j < |s| && (s[j] == '+' || s[j] == '-') then j + 1 else j;
    var b := DigitEnd(s, a);
    var e: nat := if b < |s| && s[b] == '.' then DigitEnd(s, b + 1) else b;
    var fraction := if e == b then [] else s[b + 1..e];
    (Numeral(a > j && s[j] == '-', s[a..b], fraction), e)
  }

  /**
   * The conversion `fscanf(json, "%lf", &val)`: the value read and the
   * position after it. When no digit was read the conversion fails; `val` is
   * then left unassigned in the source, and the model yields 0.
   */
  function ScanNumber(s: seq<char>, i: nat): (r: (real, nat))
    requires i <= |s|
    ensures i <= r.1 <= |s|
    ensures r.0 != 0.0 ==> i < r.1
  {
    var (n, e) := ScanNumeral(s, i);
    (NumeralReal(n), e)
  }

  /**
   * How `fscanf(json, "%lf", &val)` reads a number from position `i`: the
   * value it leaves in `val` and the position after the text it consumed.
   * The conversion is a foreign routine, so the reader is a parameter of the
   * model; all it must do is stay inside the input without moving back.
   */
  type Scanner = f: (seq<char>, nat) -> (real, nat)
    | forall s: seq<char>, i: nat :: i <= |s| ==> i <= f(s, i).1 <= |s|
    witness (s: seq<char>, i: nat) => (0.0, i)

  /** The decimal reader of ScanNumber, as a Scanner. */
  const Decimal: Scanner := (s: seq<char>, i: nat) => if i <= |s| then ScanNumber(s, i) else (0.0, i)

  /** next_c: read one character; end of input is fatal. */
  function NextCharStep(s: seq<char>, k: Cursor): (r: Step<char>)
    requires k.pos <= |s|
    ensures r.Next? ==> r.at.pos == k.pos + 1 <= |s|
  {
    if k.pos == |s| then Halted(Exit(UnexpectedEof, k.line))
    else Next(s[k.pos], Cursor(k.pos + 1, k.line + if s[k.pos] == '\n' then 1 else 0))
  }

  /**
   * skip_ws: next_c until a character that is not whitespace, counting the
   * newlines passed; that character is pushed back, and since it is not a
   * newline the line counter keeps its count. End of input is fatal.
   */
  function SkipWsStep(s: seq<char>, k: Cursor): (r: Step<()>)
    requires k.pos <= |s|
    ensures r.Next? ==> k.pos <= r.at.pos < |s| && !IsSpace(s[r.at.pos])
    decreases |s| - k.pos
  {
    var c :- NextCharStep(s, k);
    if IsSpace(c.value) then SkipWsStep(s, c.at) else Next((), k)
  }

  /** expect_c: read one character, which must be `d`. */
  function ExpectCharStep(s: seq<char>, k: Cursor, d: char): (r: Step<()>)
    requires k.pos <= |s|
    ensures r.Next? ==> r.at.pos == k.pos + 1 <= |s|
  {
    var c :- NextCharStep(s, k);
    if c.value == d then Next((), c.at) else Halted(Exit(ExpectedChar(d), c.at.line))
  }

  /**
   * What next_number hands back for the converted value `val`: a zero (or
   * -1, the value of EOF) is reported as an error and becomes -1.
   */
  function Returned(val: real): real {
    if val == 0.0 || val == -1.0 then -1.0 else val
  }

  /** next_number: it never halts, and fscanf leaves `line` alone. */
  function NumberStep(scan: Scanner, s: seq<char>, k: Cursor): (r: Step<real>)
    requires k.pos <= |s|
    ensures r.Next? && k.pos <= r.at.pos <= |s|
  {
    var (val, next) := scan(s, k.pos);
    Next(Returned(val), Cursor(next, k.line))
  }

  /**
   * parse_string, in closed form. After whitespace it needs a quote; then it
   * copies characters up to the closing quote. Whitespace reached before the
   * buffer overruns makes it loop forever; 128 characters or more overrun its
   * buffer (128 leave no room for the terminating 0, and a 129th character
   * would be written at buffer[128]).
   */
  function StringStep(s: seq<char>, k: Cursor): (r: Step<string>)
    requires k.pos <= |s|
    ensures r.Next? ==> k.pos < r.at.pos <= |s|
  {
    var w :- SkipWsStep(s, k);
    if s[w.at.pos] != '"' then Halted(Exit(ExpectedString, w.at.line))
    else StringBodyStep(s, w.at.pos + 1, w.at.line)
  }

  /**
   * The C string a character buffer holds, as strdup and strcmp see it: the
   * characters before the first '\0', or all of them when there is none.
   */
  function Terminated(t: string): (r: string)
    ensures |r| <= |t| && r == t[..|r|] && '\0' !in r
    ensures |r| < |t| ==> t[|r|] == '\0'
  {
    if t == [] || t[0] == '\0' then [] else [t[0]] + Terminated(t[1..])
  }

  /** Where the C string of `t` ends: at the first '\0', or at the end. */
  lemma TerminatedAt(t: string, j: nat)
    requires j <= |t| && (j == |t| || t[j] == '\0')
    requires forall m :: 0 <= m < j ==> t[m] != '\0'
    ensures Terminated(t) == t[..j]
  {
  }

  /**
   * The copy loop of parse_string from just after the opening quote at
   * `b - 1`: the characters it puts into `buffer`, one per byte of the file.
   */
  function CopyStep(s: seq<char>, b: nat, line: int): (r: Step<string>)
    requires 0 < b <= |s|
    ensures r.Next? ==> b < r.at.pos <= |s| && |r.value| < BufferSize
    ensures r.Next? ==> r.at.pos == b + |r.value| + 1 && ReadBefore(s, r.at.pos, '"')
  {
    var e := PlainEnd(s, b);
    if e - b < BufferSize then
      if e == |s| then Halted(Exit(UnexpectedEof, line))
      else if s[e] == '"' then Next(s[b..e], Cursor(e + 1, line))
      else Halted(Hang)
    else if b + BufferSize == |s| then Halted(Exit(UnexpectedEof, line))
    else if IsSpace(s[b + BufferSize]) then Halted(Hang)
    else Halted(Overflow)
  }

  /**
   * parse_string from just after the opening quote: the copy loop, then
   * `strdup(buffer)`, which keeps only what comes before a '\0' that the
   * loop copied.
   */
  function StringBodyStep(s: seq<char>, b: nat, line: int): (r: Step<string>)
    requires 0 < b <= |s|
    ensures r.Next? ==> b < r.at.pos <= |s| && ReadBefore(s, r.at.pos, '"')
  {
    var c :- CopyStep(s, b, line);
    Next(Terminated(c.value), c.at)
  }

  /** One number of a vector with what follows it: number, ws, `sep`, ws. */
  function ComponentStep(scan: Scanner, s: seq<char>, k: Cursor, sep: char): (r: Step<real>)
    requires k.pos <= |s|
    ensures r.Next? ==> k.pos < r.at.pos <= |s|
  {
    var x := NumberStep(scan, s, k);
    var w :- SkipWsStep(s, x.at);
    var d :- ExpectCharStep(s, w.at, sep);
    var w2 :- SkipWsStep(s, d.at);
    Next(x.value, w2.at)
  }

  /** next_vector: '[' ws num ws ',' ws num ws ',' ws num ws ']' ws. */
  function VectorStep(scan: Scanner, s: seq<char>, k: Cursor): (r: Step<seq<real>>)
    requires k.pos <= |s|
    ensures r.Next? ==> k.pos < r.at.pos <= |s| && |r.value| == 3
  {
    var o :- ExpectCharStep(s, k, '[');
    var w :- SkipWsStep(s, o.at);
    var x :- ComponentStep(scan, s, w.at, ',');
    var y :- ComponentStep(scan, s, x.at, ',');
    var z :- ComponentStep(scan, s, y.at, ']');
    Next([x.value, y.value, z.value], z.at)
  }

  /** json.c:138-166: the `"type": kind` pair that opens every object. */
  function HeaderStep(s: seq<char>, k: Cursor): (r: Step<()>)
    requires k.pos <= |s|
    ensures r.Next? ==> k.pos < r.at.pos <= |s|
  {
    var w :- SkipWsStep(s, k);
    var key :- StringStep(s, w.at);
    if key.value != "type" then Halted(Exit(FirstKeyNotType, key.at.line))
    else
      var w2 :- SkipWsStep(s, key.at);
      var colon :- ExpectCharStep(s, w2.at, ':');
      var w3 :- SkipWsStep(s, colon.at);
      var kind :- StringStep(s, w3.at);
      if !IsObjectType(kind.value) then Halted(Exit(UnknownType, kind.at.line))
      else SkipWsStep(s, kind.at)
  }

  /** json.c:177-198: one `key: value` pair after a ','. */
  function FieldStep(scan: Scanner, s: seq<char>, k: Cursor): (r: Step<()>)
    requires k.pos <= |s|
    ensures r.Next? ==> k.pos < r.at.pos <= |s|
  {
    var w :- SkipWsStep(s, k);
    var key :- StringStep(s, w.at);
    var w2 :- SkipWsStep(s, key.at);
    var colon :- ExpectCharStep(s, w2.at, ':');
    var w3 :- SkipWsStep(s, colon.at);
    ValueStep(scan, s, key.value, w3.at)
  }

  /** json.c:186-196: the value that `key` takes, and the whitespace after it. */
  function ValueStep(scan: Scanner, s: seq<char>, key: string, k: Cursor): (r: Step<()>)
    requires k.pos <= |s|
    ensures r.Next? ==> k.pos <= r.at.pos <= |s|
  {
    if IsNumberKey(key) then
      var v := NumberStep(scan, s, k);
      SkipWsStep(s, v.at)
    else if IsVectorKey(key) then
      var v :- VectorStep(scan, s, k);
      SkipWsStep(s, v.at)
    else Halted(Exit(UnknownKey, k.line))
  }

  /** json.c:168-204: pairs up to and including the closing '}'. */
  function FieldsStep(scan: Scanner, s: seq<char>, k: Cursor): (r: Step<()>)
    requires k.pos <= |s|
    ensures r.Next? ==> k.pos < r.at.pos <= |s|
    decreases |s| - k.pos
  {
    var c :- NextCharStep(s, k);
    if c.value == '}' then Next((), c.at)
    else if c.value == ',' then
      var f :- FieldStep(scan, s, c.at);
      FieldsStep(scan, s, f.at)
    else Halted(Exit(UnexpectedValue(c.value), c.at.line))
  }

  /**
   * json.c:135-219: one object from just after its '{', and the ',' or ']'
   * after it; the value says whether that was the list's closing ']'.
   */
  function ObjectStep(scan: Scanner, s: seq<char>, k: Cursor): (r: Step<bool>)
    requires k.pos <= |s|
    ensures r.Next? ==> k.pos < r.at.pos <= |s|
    ensures r.Next? && r.value ==> ReadBefore(s, r.at.pos, ']')
  {
    var h :- HeaderStep(s, k);
    var f :- FieldsStep(scan, s, h.at);
    CloseStep(s, f.at)
  }

  /** json.c:205-219: after an object's '}', a ',' (and whitespace) or ']'. */
  function CloseStep(s: seq<char>, k: Cursor): (r: Step<bool>)
    requires k.pos <= |s|
    ensures r.Next? ==> k.pos < r.at.pos <= |s|
    ensures r.Next? && r.value ==> ReadBefore(s, r.at.pos, ']')
  {
    var w :- SkipWsStep(s, k);
    var d := NextCharStep(s, w.at);  // skip_ws stopped at a character
    if d.value == ',' then
      var w2 :- SkipWsStep(s, d.at);
      Next(false, w2.at)
    else if d.value == ']' then Next(true, d.at)
    else Halted(Exit(ExpectedCommaOrBracket, d.at.line))
  }

  /**
   * The loop of json.c:128-222 entered with the character `c` in hand:
   * ']' returns early, '{' reads an object, anything else is passed over.
   */
  function ObjectsStep(scan: Scanner, s: seq<char>, c: char, k: Cursor): (r: Step<Ending>)
    requires k.pos <= |s|
    ensures r.Next? ==> k.pos <= r.at.pos <= |s|
    ensures r.Next? && r.at.pos == k.pos ==> c == ']'
    ensures r.Next? && r.at.pos > k.pos ==> ReadBefore(s, r.at.pos, ']')
    decreases |s| - k.pos, 2
  {
    if c == ']' then Next(Unterminated, k)
    else if c == '{' then ObjectThenStep(scan, s, k)
    else
      var n :- NextCharStep(s, k);
      ObjectsStep(scan, s, n.value, n.at)
  }

  /** json.c:134-221: the loop after a '{' reads the object, then goes on. */
  function ObjectThenStep(scan: Scanner, s: seq<char>, k: Cursor): (r: Step<Ending>)
    requires k.pos <= |s|
    ensures r.Next? ==> k.pos < r.at.pos <= |s| && ReadBefore(s, r.at.pos, ']')
    decreases |s| - k.pos, 1
  {
    var o := ObjectStep(scan, s, k);
    AfterObjectStep(scan, s, o)
  }

  /**
   * json.c:210-221: what the loop does once an object has been read with the
   * outcome `o`: it halts as the object did, ends read_json at the list's
   * ']', or reads the next character.
   */
  function AfterObjectStep(scan: Scanner, s: seq<char>, outcome: Step<bool>): (r: Step<Ending>)
    requires outcome.Next? ==> outcome.at.pos <= |s|
    ensures r.Next? ==> outcome.Next? && outcome.at.pos <= r.at.pos <= |s|
    ensures r.Next? ==> (outcome.value && r.at == outcome.at) || ReadBefore(s, r.at.pos, ']')
    decreases if outcome.Next? then |s| - outcome.at.pos + 1 else 0, 0
  {
    var o :- outcome;
    if o.value then Next(Finished, o.at)
    else
      var n :- NextCharStep(s, o.at);
      ObjectsStep(scan, s, n.value, n.at)
  }

  /**
   * json.c:107-126: the opening '[' and the first token `c` after it, which
   * must not be ']'; the value is `c` and the cursor is past the whitespace
   * that follows it.
   */
  function OpeningStep(s: seq<char>, k: Cursor): (r: Step<char>)
    requires k.pos <= |s|
    ensures r.Next? ==> k.pos < r.at.pos <= |s| && r.value != ']'
  {
    var w :- SkipWsStep(s, k);
    var open := NextCharStep(s, w.at);  // skip_ws stopped at a character
    if open.value != '[' then Halted(Exit(MustBeginWithBracket, open.at.line))
    else
      var w2 :- SkipWsStep(s, open.at);
      var c := NextCharStep(s, w2.at);
      if c.value == ']' then Halted(Exit(EmptyList, c.at.line))
      else
        var w3 :- SkipWsStep(s, c.at);
        Next(c.value, w3.at)
  }

  /**
   * read_json from cursor `k`. It can only return just after a ']': the
   * first token may not be one, and every return is at a ']' it has read.
   */
  function DocumentStep(scan: Scanner, s: seq<char>, k: Cursor): (r: Step<Ending>)
    requires k.pos <= |s|
    ensures r.Next? ==> k.pos < r.at.pos <= |s| && ReadBefore(s, r.at.pos, ']')
  {
    var c :- OpeningStep(s, k);
    ObjectsStep(scan, s, c.value, c.at)
  }

  /** A whole file read from its start, with `line` at its initial 1. */
  function ReadFile(scan: Scanner, s: seq<char>): (r: Step<Ending>)
    ensures r.Next? ==> ReadBefore(s, r.at.pos, ']')
  {
    DocumentStep(scan, s, Cursor(0, 1))
  }
}
