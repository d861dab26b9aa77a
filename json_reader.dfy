/**
 * The reader of json.c as the program runs it: a stream position that
 * next_c advances and ungetc moves back, and the global line counter. Each
 * method stops with `Fail` where the source calls exit(1) (or never returns),
 * and is proved to agree with the reading step of the same name in
 * JsonSyntax.
 */
module JsonReader {
  import opened JsonSyntax

  /** What a reading routine hands back: a value, or the halt it ends in. */
  datatype Outcome<+T> = Ok(value: T) | Fail(halt: Halt) {
    predicate IsFailure() { Fail? }
    function PropagateFailure<U>(): Outcome<U> requires Fail? { Fail(halt) }
    function Extract(): T requires Ok? { value }
  }

  class Reader {
    /** The contents of the opened file. */
    const input: seq<char>
    /** The stream position: the index of the next character fgetc returns. */
    var pos: nat
    /** The global `line` of json.c:12. */
    var line: int
    /** What fscanf's "%lf" conversion makes of the input. */
    const scan: Scanner

    ghost predicate Valid()
      reads this
    {
      pos <= |input|
    }

    ghost function Cur(): Cursor
      reads this
    {
      Cursor(pos, line)
    }

    /** The routine returned `r` and left the stream where `st` says. */
    ghost predicate Agrees<T>(r: Outcome<T>, st: Step<T>)
      reads this
    {
      match st
      case Next(v, k) => r == Ok(v) && pos == k.pos && line == k.line
      case Halted(h) => r == Fail(h)
    }

    /** A freshly opened file, with `line` at its initial value 1. */
    constructor (text: seq<char>, conversion: Scanner)
      ensures Valid() && input == text && scan == conversion && pos == 0 && line == 1
    {
      input := text;
      scan := conversion;
      pos := 0;
      line := 1;
    }

    /** next_c (json.c:17-30). */
    method NextC() returns (r: Outcome<char>)
      requires Valid()
      modifies this
      ensures Valid()
      ensures Agrees(r, NextCharStep(input, old(Cur())))
    {
      if pos == |input| {
        return Fail(Exit(UnexpectedEof, line));
      }
      var c := input[pos];
      pos := pos + 1;
      if c == '\n' {
        line := line + 1;
      }
      return Ok(c);
    }

    /** skip_ws (json.c:32-40). */
    method SkipWs() returns (r: Outcome<()>)
      requires Valid()
      modifies this
      ensures Valid()
      ensures Agrees(r, SkipWsStep(input, old(Cur())))
    {
      ghost var goal := SkipWsStep(input, Cur());
      var c :- NextC();
      while IsSpace(c)
        invariant Valid() && 0 < pos && c == input[pos - 1]
        invariant SkipWsStep(input, Cursor(pos - 1, line - if c == '\n' then 1 else 0)) == goal
        decreases |input| - pos
      {
        assert SkipWsStep(input, Cur()) == goal;
        c :- NextC();
      }
      // The loop stops only at a non-space, so c is never '\n' here.
      line := line - if c == '\n' then 1 else 0;
      pos := pos - 1;  // ungetc(c, json)
      return Ok(());
    }

    /** expect_c (json.c:42-47). */
    method ExpectC(d: char) returns (r: Outcome<()>)
      requires Valid()
      modifies this
      ensures Valid()
      ensures Agrees(r, ExpectCharStep(input, old(Cur()), d))
    {
      var c :- NextC();
      if c == d {
        return Ok(());
      }
      return Fail(Exit(ExpectedChar(d), line));
    }

    /** next_number (json.c:49-58); it reports but never exits. */
    method NextNumber() returns (v: real)
      requires Valid()
      modifies this
      ensures Valid()
      ensures Agrees(Ok(v), NumberStep(scan, input, old(Cur())))
    {
      var (val, next) := scan(input, pos);  // fscanf(json, "%lf", &val)
      pos := next;
      if val == 0.0 || val == -1.0 {  // val == 0 || val == EOF
        return -1.0;
      }
      return val;
    }

    /** next_vector (json.c:60-77). */
    method NextVector() returns (r: Outcome<seq<real>>)
      requires Valid()
      modifies this
      ensures Valid()
      ensures Agrees(r, VectorStep(scan, input, old(Cur())))
    {
      var u :- ExpectC('[');
      u :- SkipWs();
      var x :- NextComponent(',');
      var y :- NextComponent(',');
      var z :- NextComponent(']');
      return Ok([x, y, z]);
    }

    /** One third of next_vector: json.c:64-67, 68-71 or 72-75. */
    method NextComponent(sep: char) returns (r: Outcome<real>)
      requires Valid()
      modifies this
      ensures Valid()
      ensures Agrees(r, ComponentStep(scan, input, old(Cur()), sep))
    {
      var x := NextNumber();
      var u :- SkipWs();
      u :- ExpectC(sep);
      u :- SkipWs();
      return Ok(x);
    }

    /** parse_string (json.c:81-103). */
    method ParseString() returns (r: Outcome<string>)
      requires Valid()
      modifies this
      ensures Valid()
      ensures Agrees(r, StringStep(input, old(Cur())))
    {
      var u :- SkipWs();
      var first := NextC();  // skip_ws stopped at a character, so this cannot fail
      var c := first.value;
      if c != '"' {
        return Fail(Exit(ExpectedString, line));
      }
      r := CopyString();
    }

    /** json.c:88-102: the copy loop of parse_string after the opening quote, then strdup. */
    method CopyString() returns (r: Outcome<string>)
      requires Valid() && 0 < pos
      modifies this
      ensures Valid()
      ensures Agrees(r, StringBodyStep(input, old(pos), old(line)))
    {
      ghost var b, L := pos, line;
      var c :- NextC();
      var buffer := new char[BufferSize];
      var i := 0;
      while c != '"'
        invariant Valid() && 0 <= i <= BufferSize
        invariant pos == b + i + 1 && c == input[b + i]
        invariant line == L + if c == '\n' then 1 else 0
        invariant forall m :: b <= m < b + i ==> IsPlain(input[m])
        invariant forall m :: 0 <= m < i ==> buffer[m] == input[b + m]
        decreases |input| - pos
      {
        CopyAt(input, b, L, i);
        if IsSpace(c) {
          return Fail(Hang);  // `continue` without reading: loops forever
        }
        if i == BufferSize {
          return Fail(Overflow);  // buffer[128] = c
        }
        buffer[i] := c;
        i := i + 1;
        c :- NextC();
      }
      CopyAt(input, b, L, i);
      if i == BufferSize {
        return Fail(Overflow);  // buffer[128] = 0
      }
      buffer[i] := '\0';
      assert buffer[..i] == input[b..b + i];
      var copy := StrDup(buffer, i);
      return Ok(copy);
    }

    /** json.c:138-166: the opening `"type": kind` of an object. */
    method ReadObjectHeader() returns (r: Outcome<()>)
      requires Valid()
      modifies this
      ensures Valid()
      ensures Agrees(r, HeaderStep(input, old(Cur())))
    {
      var u :- SkipWs();
      var key :- ParseString();
      if key != "type" {
        return Fail(Exit(FirstKeyNotType, line));
      }
      u :- SkipWs();
      u :- ExpectC(':');
      u :- SkipWs();
      var kind :- ParseString();
      if !(kind == "camera" || kind == "sphere" || kind == "plane") {
        return Fail(Exit(UnknownType, line));
      }
      u :- SkipWs();
      return Ok(());
    }

    /** json.c:177-198: one `key: value` pair after a ','. */
    method ReadField() returns (r: Outcome<()>)
      requires Valid()
      modifies this
      ensures Valid()
      ensures Agrees(r, FieldStep(scan, input, old(Cur())))
    {
      var u :- SkipWs();
      var key :- ParseString();
      u :- SkipWs();
      u :- ExpectC(':');
      u :- SkipWs();
      if key == "width" || key == "height" || key == "radius" {
        var value := NextNumber();
      } else if key == "color" || key == "position" || key == "normal" {
        var value :- NextVector();
      } else {
        return Fail(Exit(UnknownKey, line));
      }
      u :- SkipWs();
      return Ok(());
    }

    /** json.c:168-204: the pairs of an object, up to and including its '}'. */
    method ReadFields() returns (r: Outcome<()>)
      requires Valid()
      modifies this
      ensures Valid()
      ensures Agrees(r, FieldsStep(scan, input, old(Cur())))
    {
      ghost var goal := FieldsStep(scan, input, Cur());
      while true
        invariant Valid()
        invariant FieldsStep(scan, input, Cur()) == goal
        decreases |input| - pos
      {
        var c :- NextC();
        if c == '}' {
          return Ok(());
        } else if c == ',' {
          var u :- ReadField();
        } else {
          return Fail(Exit(UnexpectedValue(c), line));
        }
      }
    }

    /**
     * json.c:135-219: an object after its '{', then the ',' that continues
     * the list or the ']' that ends it (`ended`).
     */
    method ReadObject() returns (r: Outcome<bool>)
      requires Valid()
      modifies this
      ensures Valid()
      ensures Agrees(r, ObjectStep(scan, input, old(Cur())))
    {
      var u :- ReadObjectHeader();
      u :- ReadFields();
      u :- SkipWs();
      var next := NextC();  // skip_ws stopped at a character, so this cannot fail
      var c := next.value;
      if c == ',' {
        u :- SkipWs();
        return Ok(false);
      } else if c == ']' {
        return Ok(true);
      }
      return Fail(Exit(ExpectedCommaOrBracket, line));
    }

    /** json.c:107-126: the opening '[' and the first token after it. */
    method ReadOpening() returns (r: Outcome<char>)
      requires Valid()
      modifies this
      ensures Valid()
      ensures Agrees(r, OpeningStep(input, old(Cur())))
    {
      var u :- SkipWs();
      var next := NextC();  // skip_ws stopped at a character, so this cannot fail
      var c := next.value;
      if c != '[' {
        return Fail(Exit(MustBeginWithBracket, line));
      }
      u :- SkipWs();
      next := NextC();
      c := next.value;
      if c == ']' {
        return Fail(Exit(EmptyList, line));
      }
      u :- SkipWs();
      return Ok(c);
    }

    /** read_json (json.c:105-224). */
    method ReadJson() returns (r: Outcome<Ending>)
      requires Valid()
      modifies this
      ensures Valid()
      ensures Agrees(r, DocumentStep(scan, input, old(Cur())))
    {
      ghost var goal := DocumentStep(scan, input, Cur());
      var c :- ReadOpening();
      while true
        invariant Valid()
        invariant ObjectsStep(scan, input, c, Cur()) == goal
        decreases |input| - pos
      {
        if c == ']' {
          return Ok(Unterminated);
        }
        if c == '{' {
          assert goal == AfterObjectStep(scan, input, ObjectStep(scan, input, Cur()));
          var ended :- ReadObject();
          if ended {
            return Ok(Finished);
          }
        }
        assert goal == (var n :- NextCharStep(input, Cur()); ObjectsStep(scan, input, n.value, n.at));
        c :- NextC();
      }
    }
  }

  /**
   * strdup (json.c:102) of a buffer that holds a '\0' at `n`: the characters
   * before its first '\0'.
   */
  method StrDup(a: array<char>, ghost n: nat) returns (t: string)
    requires n < a.Length && a[n] == '\0'
    ensures t == Terminated(a[..n])
  {
    var j := 0;
    while a[j] != '\0'
      invariant j <= n && forall m :: 0 <= m < j ==> a[m] != '\0'
      decreases n - j
    {
      j := j + 1;
    }
    t := a[..j];
    assert a[..n][..j] == t;
    TerminatedAt(a[..n], j);
  }

  /**
   * Where parse_string's copy loop ends, once it has copied the `i` plain
   * characters from `b` and reads position `b + i`.
   */
  lemma CopyAt(s: seq<char>, b: nat, line: int, i: nat)
    requires 0 < b && b + i <= |s| && i <= BufferSize
    requires forall m :: b <= m < b + i ==> IsPlain(s[m])
    ensures b + i == |s| ==> CopyStep(s, b, line) == Halted(Exit(UnexpectedEof, line))
    ensures b + i < |s| && IsSpace(s[b + i]) ==> CopyStep(s, b, line) == Halted(Hang)
    ensures b + i < |s| && !IsSpace(s[b + i]) && i == BufferSize ==> CopyStep(s, b, line) == Halted(Overflow)
    ensures b + i < |s| && s[b + i] == '"' && i < BufferSize ==>
              CopyStep(s, b, line) == Next(s[b..b + i], Cursor(b + i + 1, line))
  {
    if b + i == |s| || !IsPlain(s[b + i]) {
      PlainEndIs(s, b, b + i);
    } else {
      assert PlainEnd(s, b) > b + i;
    }
  }
}
