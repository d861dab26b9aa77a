# Scene-file reader and 3-vector helpers of a small C ray caster

This project models the two parts of the ray caster's C sources that have
stateable behaviour, and proves properties of the models.

**The scene-file reader of `json.c`.** This is a character-level reader for
a JSON-like list of scene objects. Each object carries a `"type"` (camera,
sphere or plane) and then keyed numbers and 3-vectors. The values are read
and thrown away, so `read_json` is in effect a recogniser: it returns
normally, stops the program with `exit(1)`, or never returns.

The reader is modelled twice, and the two models are proved to agree:

- **`JsonReader.Reader`** (`json_reader.dfy`) is a class. Its fields are the
  file's contents, the stream position (which `next_c` advances and `ungetc`
  moves back) and the global `line` counter. Each C routine is a method with
  the same loops and branches.
- **`JsonSyntax`** (`json_syntax.dfy`) gives a function for each routine. The
  function maps the input text and a cursor (position and line) to a `Step`:
  either the value read and the new cursor, or a `Halt`. A `Halt` is one of:
  - `exit(1)`, with its reason and the line counter at that moment;
  - the endless loop that whitespace inside a string causes in
    `parse_string`;
  - a write past `parse_string`'s 128-character buffer.

Every reader method is proved to return what its step function says and to
leave the position and line counter where that function says.

- **`JsonFacts`** (`json_facts.dfy`) states, in terms of the input text,
  what `next_c`, `skip_ws`, `expect_c`, `parse_string`, `next_number` and
  `next_vector` accept, what they consume and how they count lines.
- **`JsonDocument`** (`json_document.dfy`) covers `read_json`: the ways it
  rejects a file, what each key takes, what may follow an object, the early
  return on `",]"`, and two whole files worked through.

The input `s` is the file's bytes, one `char` per byte, and the 128 entries
of `parse_string`'s buffer count bytes. `fgetc` hands a 0 byte back like any
other, so the copy loop puts it into the buffer; `strdup` and `strcmp` then
stop at it. The model keeps both views: `CopyStep` is what the loop copies,
and `StringBodyStep` is its C string (`Terminated`), the text before the
first '\0'.

`fscanf(json, "%lf", &val)` is a foreign conversion, so it is a parameter
`scan: Scanner` of the model. The only requirement on it is that it stays
inside the input and never moves back. `Decimal` is one such reader, for
plain decimal numerals, and `DecimalAt` proves it reads back a written
numeral.

**The 3-vector helpers of `include/vector_math.h`** (`vector_math.dfy`).
`v3_add`, `v3_sub`, `v3_scale` and `v3_cross` are methods that write into an
out-parameter `array<real>` of length 3. `v3_dot` is the function `Dot`.
`double` becomes `real`, so the results are exact. Each method is proved
equal to an exact formula (`Plus`, `Minus`, `Scaled`, `Cross`), and lemmas
relate those formulas.

- `Add`, `Sub` and `Scale` get their formulas even when the output array is
  one of the inputs.
- `v3_cross` is specified by `CrossAsWritten`, which gives its result for
  every combination of aliasing. It equals the cross product when `c` is a
  third array. When `c` is `a` or `b` it does not in general
  (`CrossOverFirstArgumentIsWrong`, `CrossOverSecondArgumentIsWrong`),
  because `c[0]` is written before the later components read `a[0]` and
  `b[0]`.

## Model

| member | source | states |
|---|---|---|
| `JsonReader.Reader.constructor` | json.c:12 | a fresh reader stands at the start of the file with `line` at 1 |
| `JsonReader.Reader.NextC` | json.c:17-30 | reads one character and advances one position; adds one to `line` exactly on '\n'; at end of input halts with an exit(1) on the current line |
| `JsonReader.Reader.SkipWs` | json.c:32-40 | the read-and-push-back loop ends where SkipWsStep says: at the first non-whitespace character, with the newlines passed counted |
| `JsonReader.Reader.ExpectC` | json.c:42-47 | consumes one character and succeeds when it is `d`; otherwise exits as ExpectCharStep says |
| `JsonReader.Reader.NextNumber` | json.c:49-58 | stops where the conversion stopped, leaves `line` alone, and returns the converted value, or -1 when that value is 0 or -1 (EOF) |
| `JsonReader.Reader.NextVector` | json.c:60-77 | reads '[', then three numbers with their separators, and returns them in order or halts, as VectorStep says |
| `JsonReader.Reader.NextComponent` | json.c:64-67 | next_number, skip_ws, expect_c of the separator, skip_ws, as ComponentStep says |
| `JsonReader.Reader.ParseString` | json.c:81-103 | skip_ws, then exits unless a '"' comes next, then runs the copy loop, as StringStep says |
| `JsonReader.Reader.CopyString` | json.c:88-103 | the buffer-filling loop copies the characters before the closing quote, or hangs on whitespace, or overruns the buffer at 128 characters; it then writes the terminating 0 and returns the strdup of the buffer, as StringBodyStep says |
| `JsonReader.StrDup` | json.c:99-102 | strdup of a buffer with a 0 at `n` returns the characters before its first 0 |
| `JsonReader.CopyAt` | json.c:88-99 | after copying `i` plain characters, whether the loop fails at end of input, hangs on whitespace, overflows at 128 characters, or returns the copied text at a quote |
| `JsonReader.Reader.ReadOpening` | json.c:107-126 | skip_ws, then '[' or an exit with MustBeginWithBracket, skip_ws, the first token or an exit with EmptyList on ']', then skip_ws, as OpeningStep says |
| `JsonReader.Reader.ReadObjectHeader` | json.c:138-166 | the `"type": kind` pair: exits when the key is not "type" or the kind is not camera, sphere or plane, as HeaderStep says |
| `JsonReader.Reader.ReadField` | json.c:177-198 | one `key: value` pair: a number for width/height/radius, a vector for color/position/normal, exit for any other key, as FieldStep says |
| `JsonReader.Reader.ReadFields` | json.c:168-204 | the inner `while (1)` reads pairs after each ',' up to '}', and exits on any other character, as FieldsStep says |
| `JsonReader.Reader.ReadObject` | json.c:135-219 | header, pairs, then ',' or ']' after the '}', as ObjectStep says |
| `JsonReader.Reader.ReadJson` | json.c:105-224 | the whole of read_json, loop over objects included, returns or halts exactly as DocumentStep says |
| `JsonSyntax.NextCharStep` | json.c:17-30 | a character that next_c reads moves the cursor exactly one position on, within the input |
| `JsonSyntax.SkipWsStep` | json.c:32-40 | when skip_ws returns, the cursor has not moved back and stands on a character of the input that is not whitespace (the one pushed back) |
| `JsonSyntax.ExpectCharStep` | json.c:42-47 | an expect_c that succeeds consumes exactly one character |
| `JsonSyntax.NumberStep` | json.c:49-58 | next_number never halts, never moves back and stays within the input |
| `JsonSyntax.StringStep` | json.c:81-103 | a string that parse_string returns has consumed at least one character and the cursor stays within the input |
| `JsonSyntax.CopyStep` | json.c:88-99 | a copy loop that reaches its closing quote has copied fewer than 128 characters, and the cursor stands just after that quote: one position per copied character, plus the quote |
| `JsonSyntax.StringBodyStep` | json.c:88-103 | a string body that is read leaves the cursor just after a '"', its closing quote, within the input |
| `JsonSyntax.ComponentStep` | json.c:64-67 | a number of a vector that is read, with its separator, consumes at least one character |
| `JsonSyntax.VectorStep` | json.c:60-77 | a vector that next_vector reads holds exactly three numbers, and the cursor has moved on within the input |
| `JsonSyntax.HeaderStep` | json.c:138-166 | an accepted `"type": kind` pair moves the cursor on, within the input |
| `JsonSyntax.FieldStep` | json.c:177-198 | an accepted `key: value` pair moves the cursor on, within the input |
| `JsonSyntax.ValueStep` | json.c:182-198 | the value a key takes, and the whitespace after it, never move the cursor back or out of the input |
| `JsonSyntax.FieldsStep` | json.c:168-204 | the pairs of an object, up to its '}', move the cursor on, within the input |
| `JsonSyntax.ObjectStep` | json.c:135-219 | an object that is read moves the cursor on, and when it ends the list the last character read is ']' |
| `JsonSyntax.CloseStep` | json.c:205-219 | what follows an object's '}' moves the cursor on, and when it ends the list the last character read is ']' |
| `JsonSyntax.ObjectsStep` | json.c:128-222 | the object loop never moves back; it returns in place only when the character in hand is ']', and otherwise just after a ']' it read |
| `JsonSyntax.ObjectThenStep` | json.c:134-222 | an object and the rest of the loop after it return only just after a ']' they read |
| `JsonSyntax.AfterObjectStep` | json.c:205-222 | the loop returns only after an object that was read: either in place, when that object ended the list, or just after a ']' it read |
| `JsonSyntax.OpeningStep` | json.c:107-126 | the opening moves the cursor on, and its first token is never ']' |
| `JsonSyntax.DocumentStep` | json.c:105-224 | read_json returns only just after a ']' it read |
| `JsonSyntax.ReadFile` | json.c:105-224 | a file that read_json, started at its beginning with `line` at 1, accepts stops just after a ']' |
| `JsonFacts.NextCharIff` | json.c:17-30 | next_c halts iff at end of input, with UnexpectedEof at the current line; otherwise returns s[pos], moves one on, and counts a newline |
| `JsonFacts.SkipWsClosedForm` | json.c:32-40 | skip_ws stops at FirstNonSpace with `line` plus the newlines in between, and at end of input exits |
| `JsonFacts.SkipWsMaximal` | json.c:32-40 | skip_ws halts iff only whitespace is left; otherwise every character it passed is whitespace, the one it stops at is not, and line = old line + newlines passed |
| `JsonFacts.SkipRunAt` | json.c:32-40 | skip_ws over a given run of whitespace stops just after it and counts its newlines |
| `JsonFacts.SkipWsIdempotent` | json.c:32-40 | a second skip_ws right after one changes nothing |
| `JsonFacts.ExpectCharIff` | json.c:42-47 | expect_c(d) succeeds iff the next character is `d`, then stands one further; any other character exits with ExpectedChar(d) |
| `JsonFacts.StringOpens` | json.c:81-88 | at a '"', parse_string goes straight into its copy loop after the quote |
| `JsonSyntax.Terminated` | json.c:99-102 | the C string of a buffer is a prefix of it without '\0', and it is all of the buffer unless a '\0' follows it |
| `JsonSyntax.TerminatedAt` | json.c:99-102 | the C string of a buffer ends at its first '\0', or at its end when there is none |
| `JsonFacts.CopyIff` | json.c:88-99 | the copy loop copies `t` iff the input holds the plain text `t` of fewer than 128 characters and then '"', and then it stands just past that quote |
| `JsonFacts.StringBodyIff` | json.c:88-103 | after the opening quote parse_string returns `w` iff the copy loop copies, as CopyIff says, some text whose C string is `w` |
| `JsonFacts.QuotedCopy` | json.c:81-99 | the copy loop after the opening quote of a quoted plain word shorter than the buffer copies the whole word |
| `JsonFacts.StringAt` | json.c:81-103 | a quoted plain word shorter than the buffer is returned up to its first '\0', and exactly when it holds none, with the closing quote consumed |
| `JsonFacts.StringStopsAtNul` | json.c:88-102 | a '\0' inside a quoted word ends the returned string there, while the cursor still moves past the closing quote |
| `JsonFacts.StringAfterSpace` | json.c:81-88 | after its skip_ws, parse_string exits with ExpectedString unless a quote stands there, and otherwise enters the copy loop |
| `JsonFacts.StringIff` | json.c:81-103 | parse_string returns `w` iff the first non-whitespace character `q` is '"', followed by plain text of fewer than 128 characters whose C string is `w` and '"', both directions, with the newlines before `q` counted |
| `JsonFacts.StringIffAtQuote` | json.c:81-103 | the same equivalence once a '"' is known to stand after the whitespace |
| `JsonFacts.StringIffAfterSpace` | json.c:81-103 | the same equivalence, given where skip_ws stops |
| `JsonFacts.SkipWsStops` | json.c:32-40 | before a character other than whitespace, skip_ws stops at it and counts the newlines it passed |
| `JsonFacts.StringNeedsQuote` | json.c:82-87 | without a '"' after the whitespace parse_string exits: UnexpectedEof at end of input, ExpectedString otherwise |
| `JsonFacts.PlainEndExactly` | json.c:91-98 | the copy loop passes exactly the characters of a plain word and stops at the first character that is not plain |
| `JsonFacts.StringBodyHangs` | json.c:91-94 | whitespace reached by the copy loop before 128 characters makes it loop forever, and so parse_string too |
| `JsonFacts.StringHangsOnSpace` | json.c:81-98 | an opening quote, a plain word shorter than 128 characters and then whitespace make parse_string loop forever |
| `JsonFacts.LongStringOverflows` | json.c:89-99 | 128 plain characters after the quote overrun `buffer`, when the next character is anything other than whitespace, the closing quote included |
| `JsonFacts.NumberReturns` | json.c:49-58 | next_number never halts, stops where the conversion stopped, leaves `line` alone, returns -1 for a converted 0 or -1 and the converted value otherwise |
| `JsonSyntax.ScanNumber` | json.c:51 | the decimal stand-in for the `%lf` conversion stays within the input without moving back, so `Decimal` is a Scanner, and a value other than 0 means at least one character was consumed |
| `JsonFacts.ScanWithFraction` | json.c:51 | the decimal conversion takes the sign, the integer digits, '.' and the fraction digits |
| `JsonFacts.ScanWhole` | json.c:51 | the decimal conversion takes the sign and the integer digits when no '.' follows |
| `JsonFacts.ScanIntegerAt` | json.c:51 | the decimal conversion reads back a written integer numeral exactly |
| `JsonFacts.ScanFractionAt` | json.c:51 | the decimal conversion reads back a written numeral with a fraction exactly |
| `JsonFacts.DecimalAt` | json.c:51 | the decimal conversion reads a written numeral as its value and stops just after it |
| `JsonFacts.ZeroNumeralBecomesMinusOne` | json.c:49-55 | any written numeral whose value is 0 is read and reported, comes back as -1, and the reader stands just after it |
| `JsonFacts.ZeroBecomesMinusOne` | json.c:52-55 | an instance: the numeral "0" comes back as -1 |
| `JsonFacts.OtherValuesUnchanged` | json.c:49-57 | any written numeral whose value is neither 0 nor -1 comes back as its value, and the reader stands just after it |
| `JsonFacts.NegativeFractionUnchanged` | json.c:56-57 | an instance of OtherValuesUnchanged: "-2.5" comes back as -2.5 |
| `JsonFacts.NumberDoesNotCountLines` | json.c:51 | a newline passed by fscanf is not counted in `line`, while one passed by skip_ws is |
| `JsonFacts.SeparatorSteps` | json.c:65-67 | skip_ws, expect_c(sep), skip_ws over given whitespace around the separator stand where the layout says |
| `JsonFacts.ComponentChain` | json.c:64-67 | helper: a number of a vector and its separator compose from their four steps |
| `JsonFacts.ComponentAt` | json.c:64-67 | a number followed by whitespace, the separator and whitespace is read as next_number's value, with the newlines counted |
| `JsonFacts.VectorChain` | json.c:60-77 | helper: next_vector composes from '[', skip_ws and three components |
| `JsonFacts.ComponentsAt` | json.c:64-75 | the three numbers of a vector with ',', ',' and ']' are read in order |
| `JsonFacts.VectorSteps` | json.c:62-75 | each step of next_vector over a laid-out vector stands where the layout says |
| `JsonFacts.VectorAt` | json.c:60-77 | '[' num ',' num ',' num ']' with any whitespace yields the three numbers in order and consumes the whitespace after ']', counting every newline |
| `JsonFacts.VectorNeedsBracket` | json.c:62 | next_vector exits with UnexpectedEof at the end of the input and with ExpectedChar('[') before any other first character |
| `JsonFacts.ComponentNeedsSeparator` | json.c:64-74 | after a number and the whitespace after it, the end of the input exits with UnexpectedEof and a character other than the separator with ExpectedChar of the separator |
| `JsonFacts.VectorStopsAtComponent` | json.c:62-64 | a first number of a vector that halts halts next_vector in the same way |
| `JsonFacts.ComponentStepsOf` | json.c:64-67 | a number of a vector that is read went through next_number, skip_ws, expect_c and skip_ws, and stands where the last skip_ws stopped |
| `JsonFacts.ComponentUnchained` | json.c:64-67 | a number of a vector that is read is followed by whitespace, the separator and whitespace up to a character other than whitespace, and the cursor and value are where those end |
| `JsonFacts.ComponentLaidOutFrom` | json.c:64-67 | the converse of ComponentAt: a number of a vector that is read is laid out as ComponentLaidOut says, with the value and cursor ComponentAt gives |
| `JsonFacts.SeparatorLaidOut` | json.c:65-67 | the whitespace around the separator, found by where it ends, is a layout ComponentLaidOut accepts |
| `JsonFacts.GapsLaidOut` | json.c:65-67 | the same, for the runs of whitespace given by their ends |
| `JsonFacts.SpaceRunAt` | json.c:32-40 | the text from a position up to the first character other than whitespace is all whitespace |
| `JsonFacts.SkipWsGap` | json.c:32-40 | what skip_ws passes over is whitespace, followed by the end or a character other than whitespace, and its newlines are counted |
| `JsonFacts.VectorUnchained` | json.c:60-77 | a vector that next_vector reads starts with '[', and its three numbers are read one after the other |
| `JsonFacts.VectorLaidOutFrom` | json.c:60-77 | the converse of VectorAt: a vector that next_vector reads is laid out as VectorLaidOut says, with the numbers and the cursor VectorAt gives |
| `JsonFacts.VectorOfLayouts` | json.c:60-77 | the same, once each step is replaced by the text it reads |
| `JsonFacts.VectorOfComponents` | json.c:60-77 | helper: '[', whitespace and three laid-out numbers make a VectorLaidOut |
| `JsonDocument.SkipsTo` | json.c:32-40 | skip_ws stops at the first non-whitespace character, which is not whitespace |
| `JsonDocument.NeedsOpeningBracket` | json.c:109-116 | a first non-whitespace character other than '[' exits with MustBeginWithBracket on its line; a file of whitespace only exits at end of input |
| `JsonDocument.EmptyListIsFatal` | json.c:117-124 | '[' then whitespace then ']' exits with EmptyList |
| `JsonDocument.OpeningAccepted` | json.c:107-126 | after whitespace, '[', whitespace and a first token other than ']', read_json holds that token and stands past the whitespace after it |
| `JsonDocument.OpeningChain` | json.c:107-126 | helper: the opening composes from its five steps |
| `JsonDocument.DocumentAfterOpening` | json.c:105-128 | helper: read_json halts as its opening does, or enters the loop over objects with the token the opening read |
| `JsonDocument.StringAfterSkip` | json.c:138-139 | parse_string after a skip_ws does what it would have done alone |
| `JsonDocument.FirstKeyMustBeType` | json.c:138-143 | an object whose first key is not "type" exits with FirstKeyNotType |
| `JsonDocument.HeaderChain` | json.c:138-166 | after "type" and ':', a kind other than camera, sphere or plane exits, and one of those ends the header after the whitespace that follows |
| `JsonDocument.HeaderNeedsColon` | json.c:144-146 | without ':' after "type", the object exits with ExpectedChar(':') |
| `JsonDocument.HeaderKind` | json.c:147-166 | an unknown type exits with UnknownType; camera, sphere and plane go on past the whitespace after them |
| `JsonDocument.PairValue` | json.c:177-182 | a pair is its key, ':' and then the value that key takes |
| `JsonDocument.FieldNeedsKey` | json.c:177-178 | a key that parse_string rejects rejects the pair in the same way |
| `JsonDocument.FieldNeedsColon` | json.c:178-180 | a key followed, after whitespace, by a character other than ':' exits with ExpectedChar(':') |
| `JsonDocument.KeysDisjoint` | json.c:183-190 | no key takes both a number and a vector |
| `JsonDocument.NumberKeyTakesNumber` | json.c:183-186 | width, height and radius take a number and the whitespace after it |
| `JsonDocument.VectorKeyTakesVector` | json.c:187-198 | color, position and normal take a vector and the whitespace after it, and a vector that next_vector rejects rejects the pair in the same way |
| `JsonDocument.OtherKeyIsFatal` | json.c:193-196 | any other key exits with UnknownKey |
| `JsonDocument.FieldsReadPairs` | json.c:168-204 | the inner loop reads any number of ','-pairs and stops just past the '}' |
| `JsonDocument.FieldsRejectOther` | json.c:199-202 | inside an object a character other than ',' or '}' exits with UnexpectedValue of that character |
| `JsonDocument.ObjectChain` | json.c:135-205 | helper: an object is its header, its pairs, then what follows its '}' |
| `JsonDocument.ObjectEnds` | json.c:205-219 | after '}' and whitespace, ']' ends the list, ',' and whitespace continue it, anything else exits with ExpectedCommaOrBracket |
| `JsonDocument.ObjectThenBracketFinishes` | json.c:211-215 | an object ended by ']' makes read_json return |
| `JsonDocument.TrailingCommaReturns` | json.c:128-134 | a ']' right after an object's ',' (a trailing ",]") makes read_json return normally, not exit |
| `JsonDocument.ObjectThenNext` | json.c:207-221 | after an object and its ',', the loop goes on with the next character, counting a newline |
| `JsonDocument.ObjectHalts` | json.c:135-219 | an object that halts halts read_json the same way |
| `JsonDocument.OtherCharactersSkipped` | json.c:128-222 | between objects, any characters other than '{' and ']' are passed over one at a time, with their newlines counted |
| `JsonDocument.SkippingToEndIsFatal` | json.c:128-222 | passing over characters up to the end of the input exits at end of input |
| `JsonDocument.QuotedAt` | json.c:81-103 | a quoted plain word at a position on line 1 is read back up to its first '\0', and whole when it holds none, with the cursor past the closing quote on line 1 |
| `JsonDocument.TypeHeaderAt` | json.c:138-166 | at position 2 of line 1, i.e. the first object of a file: a first key read as "type", then `:"camera"` (or sphere, plane) and a character other than whitespace, is an accepted header that ends after the kind |
| `JsonDocument.CameraFileOpens` | json.c:107-126 | the opening of `[{"type":"camera"}]` |
| `JsonDocument.CameraFileObject` | json.c:135-219 | the object of `[{"type":"camera"}]`, ended by ']' |
| `JsonDocument.CameraFileAccepted` | json.c:105-224 | read_json returns at the end of `[{"type":"camera"}]`, whatever the number conversion does |
| `JsonDocument.TrailingCommaFileOpens` | json.c:107-126 | the opening of `[{"type":"plane"},]` |
| `JsonDocument.TrailingCommaFileObject` | json.c:135-219 | the object of `[{"type":"plane"},]`, continued by ',' |
| `JsonDocument.TrailingCommaFileReturns` | json.c:105-224 | read_json returns early, without exiting, at the closing ']' of `[{"type":"plane"},]` |
| `JsonDocument.NulKeyFileKey` | json.c:139-140 | in `[{"type\0x":"camera"}]` the first key reads as "type", since strdup stops at the '\0' |
| `JsonDocument.NulKeyFileAccepted` | json.c:105-224 | read_json returns at the end of `[{"type\0x":"camera"}]`: strcmp sees "type" |
| `VectorMath.Add` | include/vector_math.h:20-24 | c becomes a + b component by component, also when c is a or b; only c changes |
| `VectorMath.Sub` | include/vector_math.h:26-30 | c becomes a - b component by component, also when c is a or b; only c changes |
| `VectorMath.Scale` | include/vector_math.h:32-36 | b becomes s times a component by component, also when b is a; only b changes |
| `VectorMath.CrossInto` | include/vector_math.h:42-46 | c becomes CrossAsWritten of the inputs for whatever aliasing holds, and the cross product when c is a third array; only c changes |
| `VectorMath.CrossStepwise` | include/vector_math.h:42-46 | helper: the three ordered writes of v3_cross give CrossAsWritten |
| `VectorMath.MinusUndoesPlus` | include/vector_math.h:20-30 | an extra property of the formulas, beyond what the header promises: (u + v) - v = u |
| `VectorMath.ScaledDistributes` | include/vector_math.h:20-36 | an extra property of the formulas, beyond what the header promises: s(u + v) = su + sv |
| `VectorMath.Dot` | include/vector_math.h:38-40 | the scalar product of v3_dot; the product of a vector with itself is never negative |
| `VectorMath.DotSymmetric` | include/vector_math.h:38-40 | dot(u, v) = dot(v, u) |
| `VectorMath.DotLinear` | include/vector_math.h:20-40 | an extra property of the formulas, beyond what the header promises: the dot product is linear in its first argument |
| `VectorMath.CrossOrthogonal` | include/vector_math.h:38-46 | the cross product is orthogonal to both of its inputs |
| `VectorMath.CrossAntisymmetric` | include/vector_math.h:42-46 | an extra property of the formulas, beyond what the header promises: cross(v, u) = -cross(u, v) |
| `VectorMath.CrossAsWrittenWithoutAliasing` | include/vector_math.h:42-46 | without aliasing v3_cross gives the cross product |
| `VectorMath.CrossOverFirstArgumentIsWrong` | include/vector_math.h:42-46 | written over its first argument, cross((1,2,3),(4,5,6)) gives (-3,30,-135), not the cross product |
| `VectorMath.CrossOverSecondArgumentIsWrong` | include/vector_math.h:42-46 | written over its second argument, the result is not the cross product either |
| `VectorMath.Example` | include/vector_math.h:52-60 | cross((1,2,3),(4,5,6)) = (-3,6,-3) and dot((1,2,3),(4,5,6)) = 32 |

## Left out

- File handling is not modelled: `fopen`, `fclose`, and the real stream calls `fgetc`/`ungetc`. The file is its contents, a position and `line`.
- The `printf`/`fprintf` diagnostics are console output and are not modelled. Each `exit(1)` is a `Halt` that records its reason and line.
- `fscanf("%lf")` (json.c:51) is a foreign library conversion, so it is the `scan` parameter. Only `Decimal` is worked out, and it reads an optional sign, digits and an optional fraction; it does not read exponents, hexadecimal, `inf` or `nan`.
- `Decimal` yields 0 when no digit is read. In C, `val` is then left uninitialised, so any value is possible.
- The `malloc`'d array of `next_vector` is returned as a sequence of three, and the `strdup` copy of `parse_string` as a string. Memory is neither allocated nor freed, and the values are not stored, as in the source.
- The object loop is split into functions and methods: `ReadOpening`, `ReadObjectHeader`, `ReadField`, `ReadFields`, `ReadObject`, `CopyString` and `StrDup`, and on the function side `OpeningStep`, `HeaderStep`, `ValueStep`, `CloseStep`, `ObjectThenStep`, `AfterObjectStep` and `CopyStep`. Each cites the lines it covers; the branches and their order are those of the source.
- `parse_string`'s endless loop and its writes past `buffer` are the outcomes `Hang` and `Overflow`. What the program does after an overflow (undefined behaviour) is not modelled.
- The read_json lemmas state the rejection cases when their conditions hold, not the converse. For example, `NeedsOpeningBracket` does not say that a '[' always lets the file through.
- Not part of this model:
  - `main` in json.c and main.c, which do command-line and file handling;
  - raycast.c, a stub;
  - the declaration-only headers include/json.h, include/raycast.h and include/ppmrw.h;
  - `print_v3`, which only prints.
- include/raycast.h:30-32 declares `raycast_scene` and `get_camera`, and main.c calls them, but none of json.c, raycast.c, main.c and the headers defines them, and raycast.c's `main` is a stub, so there is no ray-casting engine to model.
- `double` is `real`: IEEE rounding, overflow and NaN are not modelled.
