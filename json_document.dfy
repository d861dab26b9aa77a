/**
 * What read_json (json.c:105-224) accepts and rejects: the opening '[', the
 * `"type"` pair that must open each object, the keys and what they take,
 * what may follow an object's '}', and what is passed over between objects.
 *
 * The lemmas about one object compose the reading steps: their hypotheses
 * say what parse_string, skip_ws or next_vector did, and JsonFacts says in
 * terms of the input text when each of those does it.
 */
module JsonDocument {
  import opened JsonSyntax
  import opened JsonFacts

  // ---------------------------------------------------------------------
  // The opening of the list (json.c:107-126)

  /** skip_ws stops at the first character that is not whitespace. */
  lemma SkipsTo(s: seq<char>, k: Cursor)
    requires k.pos <= |s| && FirstNonSpace(s, k.pos) < |s|
    ensures SkipWsStep(s, k) == Next((), Cursor(FirstNonSpace(s, k.pos), k.line + Newlines(s[k.pos..FirstNonSpace(s, k.pos)])))
    ensures !IsSpace(s[FirstNonSpace(s, k.pos)])
  {
    SkipWsClosedForm(s, k);
  }

  /**
   * read_json needs '[' as the first character that is not whitespace: any
   * other character is fatal, on the line where it stands, and so is an
   * input of whitespace only.
   */
  lemma NeedsOpeningBracket(s: seq<char>, k: Cursor)
    requires k.pos <= |s|
    ensures FirstNonSpace(s, k.pos) == |s| ==> ExitsWith(OpeningStep(s, k), UnexpectedEof)
    ensures var j := FirstNonSpace(s, k.pos);
            j < |s| && s[j] != '[' ==>
              OpeningStep(s, k) == Halted(Exit(MustBeginWithBracket, k.line + Newlines(s[k.pos..j])))
  {
    SkipWsClosedForm(s, k);
  }

  /** '[' followed, after whitespace, by ']' is fatal. */
  lemma EmptyListIsFatal(s: seq<char>, k: Cursor)
    requires k.pos <= |s|
    requires var j := FirstNonSpace(s, k.pos);
             j < |s| && s[j] == '[' && FirstNonSpace(s, j + 1) < |s| && s[FirstNonSpace(s, j + 1)] == ']'
    ensures ExitsWith(OpeningStep(s, k), EmptyList)
  {
    var j := FirstNonSpace(s, k.pos);
    SkipsTo(s, k);
    SkipsTo(s, Cursor(j + 1, k.line + Newlines(s[k.pos..j])));
  }

  /**
   * After the whitespace `g0`, '[', the whitespace `g1` and a first token `c`
   * other than ']', read_json has `c` in hand and stands past the whitespace
   * `g2` after it, with the newlines of all three runs counted.
   */
  lemma OpeningAccepted(s: seq<char>, p: nat, l: int, g0: string, g1: string, c: char, g2: string)
    requires AllSpace(g0) && AllSpace(g1) && AllSpace(g2) && c != ']' && !IsSpace(c)
    requires At(s, p, g0) && p + |g0| < |s| && s[p + |g0|] == '['
    requires At(s, p + |g0| + 1, g1) && p + |g0| + 1 + |g1| < |s| && s[p + |g0| + 1 + |g1|] == c
    requires At(s, p + |g0| + |g1| + 2, g2)
    requires p + |g0| + |g1| + |g2| + 2 < |s| && !IsSpace(s[p + |g0| + |g1| + |g2| + 2])
    ensures OpeningStep(s, Cursor(p, l))
         == Next(c, Cursor(p + |g0| + |g1| + |g2| + 2, l + Newlines(g0) + Newlines(g1) + Newlines(g2)))
  {
    var k1 := Cursor(p + |g0|, l + Newlines(g0));
    var k2 := Cursor(p + |g0| + 1, k1.line);
    var k3 := Cursor(p + |g0| + 1 + |g1|, k2.line + Newlines(g1));
    var k4 := Cursor(p + |g0| + |g1| + 2, k3.line);
    var k5 := Cursor(p + |g0| + |g1| + |g2| + 2, k4.line + Newlines(g2));
    SkipRunAt(s, p, l, g0);
    SkipRunAt(s, k2.pos, k2.line, g1);
    SkipRunAt(s, k4.pos, k4.line, g2);
    OpeningChain(s, Cursor(p, l), c, k1, k2, k3, k4, k5);
  }

  /** The opening, put together from its steps. */
  lemma OpeningChain(s: seq<char>, k: Cursor, c: char, k1: Cursor, k2: Cursor, k3: Cursor, k4: Cursor, k5: Cursor)
    requires k.pos <= |s| && SkipWsStep(s, k) == Next((), k1)
    requires k1.pos <= |s| && NextCharStep(s, k1) == Next('[', k2)
    requires k2.pos <= |s| && SkipWsStep(s, k2) == Next((), k3)
    requires k3.pos <= |s| && NextCharStep(s, k3) == Next(c, k4) && c != ']'
    requires k4.pos <= |s| && SkipWsStep(s, k4) == Next((), k5)
    ensures OpeningStep(s, k) == Next(c, k5)
  {
  }

  /** read_json halts as its opening does, or enters the loop over objects. */
  lemma DocumentAfterOpening(scan: Scanner, s: seq<char>, k: Cursor)
    requires k.pos <= |s|
    ensures OpeningStep(s, k).Halted? ==> DocumentStep(scan, s, k) == Halted(OpeningStep(s, k).halt)
    ensures OpeningStep(s, k).Next? ==>
              DocumentStep(scan, s, k) == ObjectsStep(scan, s, OpeningStep(s, k).value, OpeningStep(s, k).at)
  {
  }

  // ---------------------------------------------------------------------
  // The "type" pair that opens an object (json.c:138-166)

  /** parse_string after a skip_ws does what it would have done without it. */
  lemma StringAfterSkip(s: seq<char>, k: Cursor)
    requires k.pos <= |s| && SkipWsStep(s, k).Next?
    ensures StringStep(s, SkipWsStep(s, k).at) == StringStep(s, k)
  {
    SkipWsIdempotent(s, k);
  }

  /** An object whose first key is not "type" is fatal. */
  lemma FirstKeyMustBeType(s: seq<char>, k: Cursor, key: string, k1: Cursor)
    requires k.pos <= |s| && StringStep(s, k) == Next(key, k1) && key != "type"
    ensures HeaderStep(s, k) == Halted(Exit(FirstKeyNotType, k1.line))
  {
    StringAfterSkip(s, k);
  }

  /** The header, put together from its steps. */
  lemma HeaderChain(s: seq<char>, k: Cursor, k1: Cursor, k2: Cursor, k3: Cursor, kind: string, k4: Cursor)
    requires k.pos <= |s| && StringStep(s, k) == Next("type", k1)
    requires k1.pos <= |s| && SkipWsStep(s, k1).Next? && SkipWsStep(s, k1).at == k2
    requires k2.pos <= |s| && ExpectCharStep(s, k2, ':') == Next((), k3)
    requires k3.pos <= |s| && StringStep(s, k3) == Next(kind, k4)
    ensures HeaderStep(s, k) == if IsObjectType(kind) then SkipWsStep(s, k4) else Halted(Exit(UnknownType, k4.line))
  {
    StringAfterSkip(s, k);
    StringAfterSkip(s, k3);
  }

  /** Without ':' after `"type"`, the object is rejected. */
  lemma HeaderNeedsColon(s: seq<char>, k: Cursor, k1: Cursor)
    requires k.pos <= |s| && StringStep(s, k) == Next("type", k1)
    requires k1.pos <= |s| && SkipWsStep(s, k1).Next? && s[SkipWsStep(s, k1).at.pos] != ':'
    ensures ExitsWith(HeaderStep(s, k), ExpectedChar(':'))
  {
    StringAfterSkip(s, k);
  }

  /**
   * After `"type"` and ':', the kind must be camera, sphere or plane: any
   * other is fatal, and one of those ends the object's header after the
   * whitespace that follows it.
   */
  lemma HeaderKind(s: seq<char>, k: Cursor, k1: Cursor, k2: Cursor, kind: string, k3: Cursor)
    requires k.pos <= |s| && StringStep(s, k) == Next("type", k1)
    requires k1.pos <= |s| && SkipWsStep(s, k1).Next? && SkipWsStep(s, k1).at == k2 && s[k2.pos] == ':'
    requires StringStep(s, Cursor(k2.pos + 1, k2.line)) == Next(kind, k3)
    ensures !IsObjectType(kind) ==> HeaderStep(s, k) == Halted(Exit(UnknownType, k3.line))
    ensures IsObjectType(kind) ==> HeaderStep(s, k) == SkipWsStep(s, k3)
  {
    HeaderChain(s, k, k1, k2, Cursor(k2.pos + 1, k2.line), kind, k3);
  }

  // ---------------------------------------------------------------------
  // The pairs of an object (json.c:168-204)

  /**
   * The part of a pair before its value: parse_string returned `key` and
   * stopped at `k1`, whitespace runs to the ':' at `k2`, and whitespace runs
   * from there to `k3`.
   */
  ghost predicate PairOpens(s: seq<char>, k: Cursor, key: string, k1: Cursor, k2: Cursor, k3: Cursor) {
    k.pos <= |s| && StringStep(s, k) == Next(key, k1) &&
    k1.pos <= |s| && SkipWsStep(s, k1).Next? && SkipWsStep(s, k1).at == k2 && s[k2.pos] == ':' &&
    SkipWsStep(s, Cursor(k2.pos + 1, k2.line)).Next? && SkipWsStep(s, Cursor(k2.pos + 1, k2.line)).at == k3
  }

  /** A pair whose key and ':' were read goes on with the key's value. */
  lemma PairValue(scan: Scanner, s: seq<char>, k: Cursor, key: string, k1: Cursor, k2: Cursor, k3: Cursor)
    requires PairOpens(s, k, key, k1, k2, k3)
    ensures FieldStep(scan, s, k) == ValueStep(scan, s, key, k3)
  {
    StringAfterSkip(s, k);
    assert ExpectCharStep(s, k2, ':') == Next((), Cursor(k2.pos + 1, k2.line));
  }

  /** Without ':' after the key of a pair, the object is rejected. */
  lemma FieldNeedsColon(scan: Scanner, s: seq<char>, k: Cursor, key: string, k1: Cursor)
    requires k.pos <= |s| && StringStep(s, k) == Next(key, k1)
    requires k1.pos <= |s| && SkipWsStep(s, k1).Next? && s[SkipWsStep(s, k1).at.pos] != ':'
    ensures ExitsWith(FieldStep(scan, s, k), ExpectedChar(':'))
  {
    StringAfterSkip(s, k);
  }

  /** A key that parse_string rejects rejects the object in the same way. */
  lemma FieldNeedsKey(scan: Scanner, s: seq<char>, k: Cursor)
    requires k.pos <= |s| && StringStep(s, k).Halted?
    ensures FieldStep(scan, s, k) == Halted(StringStep(s, k).halt)
  {
    if SkipWsStep(s, k).Next? {
      StringAfterSkip(s, k);
    }
  }

  /** No key takes both a number and a vector. */
  lemma KeysDisjoint(key: string)
    ensures !(IsNumberKey(key) && IsVectorKey(key))
  {
    if IsVectorKey(key) {
      assert key[0] in "cpn";
    }
  }

  /** width, height and radius take a number, and whitespace after it. */
  lemma NumberKeyTakesNumber(scan: Scanner, s: seq<char>, key: string, k: Cursor)
    requires k.pos <= |s| && IsNumberKey(key)
    ensures ValueStep(scan, s, key, k) == SkipWsStep(s, NumberStep(scan, s, k).at)
  {
  }

  /**
   * color, position and normal take a vector, and whitespace after it; a
   * vector that next_vector rejects rejects the object.
   */
  lemma VectorKeyTakesVector(scan: Scanner, s: seq<char>, key: string, k: Cursor)
    requires k.pos <= |s| && IsVectorKey(key)
    ensures VectorStep(scan, s, k).Next? ==> ValueStep(scan, s, key, k) == SkipWsStep(s, VectorStep(scan, s, k).at)
    ensures VectorStep(scan, s, k).Halted? ==> ValueStep(scan, s, key, k) == Halted(VectorStep(scan, s, k).halt)
  {
    KeysDisjoint(key);
  }

  /** Any other key is fatal. */
  lemma OtherKeyIsFatal(scan: Scanner, s: seq<char>, key: string, k: Cursor)
    requires k.pos <= |s| && !IsNumberKey(key) && !IsVectorKey(key)
    ensures ValueStep(scan, s, key, k) == Halted(Exit(UnknownKey, k.line))
  {
  }

  /**
   * From `k` the input holds zero or more pairs, each after a ',' and each
   * ending where `ends` says, and then the '}' that closes the object, just
   * before `k2`.
   */
  ghost predicate PairsThenBrace(scan: Scanner, s: seq<char>, k: Cursor, ends: seq<Cursor>, k2: Cursor)
    decreases |ends|
  {
    k.pos < |s| &&
    if ends == [] then s[k.pos] == '}' && k2 == Cursor(k.pos + 1, k.line)
    else
      s[k.pos] == ',' && FieldStep(scan, s, Cursor(k.pos + 1, k.line)) == Next((), ends[0]) &&
      ends[0].pos <= |s| && PairsThenBrace(scan, s, ends[0], ends[1..], k2)
  }

  /** The loop of json.c:168-204 reads the pairs up to and including the '}'. */
  lemma {:induction false} FieldsReadPairs(scan: Scanner, s: seq<char>, k: Cursor, ends: seq<Cursor>, k2: Cursor)
    requires PairsThenBrace(scan, s, k, ends, k2)
    ensures FieldsStep(scan, s, k) == Next((), k2)
    decreases |ends|
  {
    if ends != [] {
      FieldsReadPairs(scan, s, ends[0], ends[1..], k2);
    }
  }

  /** Inside an object, a character other than ',' or '}' is fatal. */
  lemma FieldsRejectOther(scan: Scanner, s: seq<char>, k: Cursor)
    requires k.pos < |s| && s[k.pos] != ',' && s[k.pos] != '}'
    ensures ExitsWith(FieldsStep(scan, s, k), UnexpectedValue(s[k.pos]))
  {
  }

  // ---------------------------------------------------------------------
  // After an object's '}' (json.c:205-219)

  /** An object is its header, its pairs and what follows its '}'. */
  lemma ObjectChain(scan: Scanner, s: seq<char>, k: Cursor, k1: Cursor, k2: Cursor)
    requires k.pos <= |s| && HeaderStep(s, k).Next? && HeaderStep(s, k).at == k1
    requires FieldsStep(scan, s, k1).Next? && FieldsStep(scan, s, k1).at == k2
    ensures ObjectStep(scan, s, k) == CloseStep(s, k2)
  {
  }

  /**
   * After an object's '}' and the whitespace after it, ']' ends the list,
   * ',' and whitespace lead on to the next object, and anything else is
   * fatal.
   */
  lemma ObjectEnds(s: seq<char>, k: Cursor, k1: Cursor)
    requires k.pos <= |s| && SkipWsStep(s, k).Next? && SkipWsStep(s, k).at == k1
    ensures s[k1.pos] == ']' ==> CloseStep(s, k) == Next(true, Cursor(k1.pos + 1, k1.line))
    ensures s[k1.pos] == ',' && SkipWsStep(s, Cursor(k1.pos + 1, k1.line)).Next? ==>
              CloseStep(s, k) == Next(false, SkipWsStep(s, Cursor(k1.pos + 1, k1.line)).at)
    ensures s[k1.pos] != ']' && s[k1.pos] != ',' ==>
              CloseStep(s, k) == Halted(Exit(ExpectedCommaOrBracket, k1.line))
  {
  }

  // ---------------------------------------------------------------------
  // The loop over objects (json.c:128-222)

  /** An object ended by ']' finishes read_json. */
  lemma ObjectThenBracketFinishes(scan: Scanner, s: seq<char>, k1: Cursor)
    requires k1.pos <= |s|
    ensures AfterObjectStep(scan, s, Next(true, k1)) == Next(Finished, k1)
  {
  }

  /**
   * A ']' right after the ',' that follows an object (a trailing ",]") makes
   * read_json return without exiting.
   */
  lemma TrailingCommaReturns(scan: Scanner, s: seq<char>, k1: Cursor)
    requires k1.pos < |s| && s[k1.pos] == ']'
    ensures AfterObjectStep(scan, s, Next(false, k1)) == Next(Unterminated, Cursor(k1.pos + 1, k1.line))
  {
  }

  /** After an object and its ',', the loop goes on with the next character. */
  lemma ObjectThenNext(scan: Scanner, s: seq<char>, k1: Cursor)
    requires k1.pos < |s|
    ensures AfterObjectStep(scan, s, Next(false, k1))
         == ObjectsStep(scan, s, s[k1.pos], Cursor(k1.pos + 1, k1.line + if s[k1.pos] == '\n' then 1 else 0))
  {
  }

  /** An object that is rejected rejects the file. */
  lemma ObjectHalts(scan: Scanner, s: seq<char>, h: Halt)
    ensures AfterObjectStep(scan, s, Halted(h)) == Halted(h)
  {
  }

  /** A character that is neither '{' nor ']'. */
  predicate Skipped(c: char) {
    c != '{' && c != ']'
  }

  /**
   * Between objects, the loop passes over the characters other than '{' and
   * ']' one at a time, counting newlines, until it reads one of those two.
   */
  lemma {:induction false} OtherCharactersSkipped(scan: Scanner, s: seq<char>, c: char, p: nat, l: int, w: string, x: char, k': Cursor)
    requires Skipped(c) && At(s, p, w) && (forall i :: 0 <= i < |w| ==> Skipped(w[i]))
    requires p + |w| < |s| && x == s[p + |w|] && k' == Cursor(p + |w| + 1, l + Newlines(w + [x]))
    ensures ObjectsStep(scan, s, c, Cursor(p, l)) == ObjectsStep(scan, s, x, k')
    decreases |w|
  {
    NewlinesFirst(w, x);
    if w == [] {
      SkippedOne(scan, s, c, Cursor(p, l), x, k');
    } else {
      var k1 := Cursor(p + 1, l + if w[0] == '\n' then 1 else 0);
      SkippedOne(scan, s, c, Cursor(p, l), w[0], k1);
      assert forall i :: 0 <= i < |w[1..]| ==> Skipped(w[1..][i]) by {
        assert forall i :: 0 <= i < |w[1..]| ==> w[1..][i] == w[i + 1];
      }
      OtherCharactersSkipped(scan, s, w[0], k1.pos, k1.line, w[1..], x, k');
    }
  }

  /** The newlines of `w + [x]`, counted from the front. */
  lemma NewlinesFirst(w: string, x: char)
    ensures w == [] ==> Newlines(w + [x]) == if x == '\n' then 1 else 0
    ensures w != [] ==> Newlines(w + [x]) == (if w[0] == '\n' then 1 else 0) + Newlines(w[1..] + [x])
  {
    if w == [] {
      assert w + [x] == [x];
    } else {
      assert (w + [x])[1..] == w[1..] + [x];
    }
  }

  /** One character other than '{' and ']' is passed over, with its newline counted. */
  lemma SkippedOne(scan: Scanner, s: seq<char>, c: char, k: Cursor, d: char, k1: Cursor)
    requires Skipped(c) && k.pos < |s| && d == s[k.pos]
    requires k1 == Cursor(k.pos + 1, k.line + if d == '\n' then 1 else 0)
    ensures ObjectsStep(scan, s, c, k) == ObjectsStep(scan, s, d, k1)
  {
  }

  /** Passing over characters to the end of the input is fatal. */
  lemma SkippingToEndIsFatal(scan: Scanner, s: seq<char>, c: char, k: Cursor)
    requires Skipped(c) && k.pos == |s|
    ensures ExitsWith(ObjectsStep(scan, s, c, k), UnexpectedEof)
  {
  }

  // ---------------------------------------------------------------------
  // Two whole files

  /** A scene of one camera. */
  const CameraFile: string := "[{\"type\":\"camera\"}]"

  /** The same scene with a plane and a trailing ','. */
  const TrailingCommaFile: string := "[{\"type\":\"plane\"},]"

  /** A scene of one camera whose first key holds a '\0' after "type". */
  const NulKeyFile: string := "[{\"type\0x\":\"camera\"}]"

  /** parse_string reads the quoted plain word that stands at `p`, up to a '\0'. */
  lemma QuotedAt(s: seq<char>, p: nat, w: string)
    requires p + |w| + 2 <= |s| && s[p..p + |w| + 2] == Quote(w) && Plain(w) && |w| < BufferSize
    ensures StringStep(s, Cursor(p, 1)) == Next(Terminated(w), Cursor(p + |w| + 2, 1))
    ensures '\0' !in w ==> StringStep(s, Cursor(p, 1)) == Next(w, Cursor(p + |w| + 2, 1))
  {
    AtOfSlice(s, p, Quote(w));
    StringAt(s, p, 1, w);
  }

  /**
   * The header of an object at position 2 of `s`, on line 1: a first key
   * read as "type" that ends at `c`, then `:"kind"`.
   */
  lemma TypeHeaderAt(s: seq<char>, c: nat, kind: string)
    requires 2 <= |s| && StringStep(s, Cursor(2, 1)) == Next("type", Cursor(c, 1))
    requires IsObjectType(kind) && c + |kind| + 3 < |s| && s[c..c + |kind| + 3] == ":" + Quote(kind)
    requires !IsSpace(s[c + |kind| + 3])
    ensures HeaderStep(s, Cursor(2, 1)) == Next((), Cursor(c + |kind| + 3, 1))
  {
    KindAt(s, c, kind);
    assert SkipWsStep(s, Cursor(c, 1)) == Next((), Cursor(c, 1));
    HeaderKind(s, Cursor(2, 1), Cursor(c, 1), Cursor(c, 1), kind, Cursor(c + |kind| + 3, 1));
    assert SkipWsStep(s, Cursor(c + |kind| + 3, 1)) == Next((), Cursor(c + |kind| + 3, 1));
  }

  /** The `:"kind"` of a header at `c`, on line 1. */
  lemma KindAt(s: seq<char>, c: nat, kind: string)
    requires IsObjectType(kind) && c + |kind| + 3 < |s| && s[c..c + |kind| + 3] == ":" + Quote(kind)
    ensures s[c] == ':' && StringStep(s, Cursor(c + 1, 1)) == Next(kind, Cursor(c + |kind| + 3, 1))
  {
    assert s[c] == (":" + Quote(kind))[0];
    assert s[c + 1..c + |kind| + 3] == (":" + Quote(kind))[1..] == Quote(kind);
    QuotedAt(s, c + 1, kind);
  }

  /** An object whose header is followed by '}' at once is its header and CloseStep. */
  lemma ObjectWithoutPairs(scan: Scanner, s: seq<char>, k: Cursor, h: nat)
    requires k.pos <= |s| && HeaderStep(s, k) == Next((), Cursor(h, k.line))
    requires h < |s| && s[h] == '}'
    ensures ObjectStep(scan, s, k) == CloseStep(s, Cursor(h + 1, k.line))
  {
    assert FieldsStep(scan, s, Cursor(h, k.line)) == Next((), Cursor(h + 1, k.line));
    ObjectChain(scan, s, k, Cursor(h, k.line), Cursor(h + 1, k.line));
  }

  lemma CameraFileOpens()
    ensures OpeningStep(CameraFile, Cursor(0, 1)) == Next('{', Cursor(2, 1))
  {
  }

  lemma CameraFileKey(s: string)
    requires s == CameraFile
    ensures StringStep(s, Cursor(2, 1)) == Next("type", Cursor(8, 1))
  {
    assert s[2..8] == Quote("type");
    assert Plain("type") by {
      assert forall i :: 0 <= i < 4 ==> "type"[i] in "type";
    }
    QuotedAt(s, 2, "type");
  }

  lemma CameraFileKind(s: string)
    requires s == CameraFile
    ensures 17 < |s| && s[8..17] == ":" + Quote("camera") && !IsSpace(s[17])
  {
  }

  lemma CameraFileHeader(s: string)
    requires s == CameraFile
    ensures HeaderStep(s, Cursor(2, 1)) == Next((), Cursor(17, 1))
  {
    CameraFileKey(s);
    CameraFileKind(s);
    TypeHeaderAt(s, 8, "camera");
  }

  lemma CameraFileObject(scan: Scanner)
    ensures ObjectStep(scan, CameraFile, Cursor(2, 1)) == Next(true, Cursor(19, 1))
  {
    CameraFileHeader(CameraFile);
    ObjectWithoutPairs(scan, CameraFile, Cursor(2, 1), 17);
    ObjectEnds(CameraFile, Cursor(18, 1), Cursor(18, 1));
  }

  /** read_json accepts a file holding one camera, whatever fscanf does. */
  lemma CameraFileAccepted(scan: Scanner)
    ensures ReadFile(scan, CameraFile) == Next(Finished, Cursor(19, 1))
  {
    CameraFileOpens();
    CameraFileObject(scan);
    ObjectThenBracketFinishes(scan, CameraFile, Cursor(19, 1));
    DocumentAfterOpening(scan, CameraFile, Cursor(0, 1));
  }

  lemma TrailingCommaFileOpens()
    ensures OpeningStep(TrailingCommaFile, Cursor(0, 1)) == Next('{', Cursor(2, 1))
  {
  }

  lemma TrailingCommaFileKey(s: string)
    requires s == TrailingCommaFile
    ensures StringStep(s, Cursor(2, 1)) == Next("type", Cursor(8, 1))
  {
    assert s[2..8] == Quote("type");
    assert Plain("type") by {
      assert forall i :: 0 <= i < 4 ==> "type"[i] in "type";
    }
    QuotedAt(s, 2, "type");
  }

  lemma TrailingCommaFileKind(s: string)
    requires s == TrailingCommaFile
    ensures 16 < |s| && s[8..16] == ":" + Quote("plane") && !IsSpace(s[16])
  {
  }

  lemma TrailingCommaFileHeader(s: string)
    requires s == TrailingCommaFile
    ensures HeaderStep(s, Cursor(2, 1)) == Next((), Cursor(16, 1))
  {
    TrailingCommaFileKey(s);
    TrailingCommaFileKind(s);
    TypeHeaderAt(s, 8, "plane");
  }

  lemma TrailingCommaFileObject(scan: Scanner)
    ensures ObjectStep(scan, TrailingCommaFile, Cursor(2, 1)) == Next(false, Cursor(18, 1))
  {
    TrailingCommaFileHeader(TrailingCommaFile);
    ObjectWithoutPairs(scan, TrailingCommaFile, Cursor(2, 1), 16);
    ObjectEnds(TrailingCommaFile, Cursor(17, 1), Cursor(17, 1));
  }

  /** A trailing ",]" makes read_json return without exiting. */
  lemma TrailingCommaFileReturns(scan: Scanner)
    ensures ReadFile(scan, TrailingCommaFile) == Next(Unterminated, Cursor(19, 1))
  {
    TrailingCommaFileOpens();
    TrailingCommaFileObject(scan);
    TrailingCommaReturns(scan, TrailingCommaFile, Cursor(18, 1));
    DocumentAfterOpening(scan, TrailingCommaFile, Cursor(0, 1));
  }

  lemma NulKeyFileOpens()
    ensures OpeningStep(NulKeyFile, Cursor(0, 1)) == Next('{', Cursor(2, 1))
  {
  }

  lemma NulKeyFileKind(s: string)
    requires s == NulKeyFile
    ensures 19 < |s| && s[10..19] == ":" + Quote("camera") && !IsSpace(s[19])
  {
  }

  lemma NulKeyFileHeader(s: string)
    requires s == NulKeyFile
    ensures HeaderStep(s, Cursor(2, 1)) == Next((), Cursor(19, 1))
  {
    NulKeyFileKey(s);
    NulKeyFileKind(s);
    TypeHeaderAt(s, 10, "camera");
  }

  /** The first key of NulKeyFile is read as "type". */
  lemma NulKeyFileKey(s: string)
    requires s == NulKeyFile
    ensures StringStep(s, Cursor(2, 1)) == Next("type", Cursor(10, 1))
  {
    QuotedAt(s, 2, "type\0x");
    TerminatedAt("type\0x", 4);
    assert "type\0x"[..4] == "type";
  }

  lemma NulKeyFileObject(scan: Scanner)
    ensures ObjectStep(scan, NulKeyFile, Cursor(2, 1)) == Next(true, Cursor(21, 1))
  {
    NulKeyFileHeader(NulKeyFile);
    ObjectWithoutPairs(scan, NulKeyFile, Cursor(2, 1), 19);
    ObjectEnds(NulKeyFile, Cursor(20, 1), Cursor(20, 1));
  }

  /**
   * read_json accepts the key "type\0x" as "type": strcmp compares only the
   * characters before the '\0'.
   */
  lemma NulKeyFileAccepted(scan: Scanner)
    ensures ReadFile(scan, NulKeyFile) == Next(Finished, Cursor(21, 1))
  {
    NulKeyFileOpens();
    NulKeyFileObject(scan);
    ObjectThenBracketFinishes(scan, NulKeyFile, Cursor(21, 1));
    DocumentAfterOpening(scan, NulKeyFile, Cursor(0, 1));
  }
}
