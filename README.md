# J-JSon core in Dafny

J-JSon is a small Java JSON library. `JSonConverter` turns text into a tree of values. `JSonObject` is a name/value map that the converter fills and `toString` prints. `JSonArray` is the same for an ordered list. This project models those three classes and proves what they do, including where they do not behave like JSON.

- `json.dfy` (module `JSon`): the value tree, the outcome of a parse and the printed form.
  - A value is the `JSonObject.NULL` marker, a Boolean, a number, a String, a StringBuilder (what a quoted element of a list is kept as), a nested object or a nested array.
  - A parse ends in a result, a `JSonParseException` (cause and offset), or a Java runtime exception that escapes (`charAt` past the end, or the `null` of an unbalanced nested structure being used).
  - `toString` is stated as `ObjectText`/`ArrayText`. A HashMap's enumeration order is a parameter (`KeyOrder`): a listing of the set of names, each name once.
- `converter.dfy` (module `Converter`): `createJSonPropertiesString`, `createJSonArrayString`, `getJSonSubstring` and `createJSonObjectString`.
  - Each loop is a method proved to compute a function that states the loop one iteration at a time (`ObjectStep`, `ArrayStep`, `BalancedFrom`, ...).
  - The value tests of one iteration run in the source's order, each on the character where the previous one left the index.
- `converter_properties.dfy` (module `ConverterProperties`): what the converter promises.
  - The two delimiter exceptions and their offsets.
  - The scanner returns the shortest balanced prefix.
  - What a quoted run reads as; when a boolean is recognised.
  - How one iteration stores, carries or drops a name; the loops never lose what they built.
- `round_trip.dfy` (module `RoundTrip`): printing a map of String values whose names and texts contain no `"` or `\` and parsing it back gives the same map, in any enumeration order.
- `quirks.dfy` (module `Quirks`): what the parser does with input that a JSON reader would treat differently, proved on concrete texts:
  - `null` joins two names into one.
  - `True` is dropped and `tRUE` is read as true.
  - `[1,2,3]` and the printed `[1.0, 2.0]` both run off the end of the text.
- `objects.dfy` (module `Objects`): class `JSonObject`, with its map as a field that the methods update.
- `arrays.dfy` (module `Arrays`): class `JSonArray`, with its list as a field.

Where the code departs from what a standard JSON reader does, the model follows the code:

- `getJSonSubstring` counts every occurrence of the opening and closing character, inside quoted strings too (`ConverterProperties.ScannerShortestBalancedPrefix`).
- A number ends only at `,`, space or `}`. In `[1,2,3]` the `3` is never ended and `charAt` throws (`Quirks.PackedNumbersOverrun`).
- `JSonArray.toString` joins with `, ` (comma and space), and a String element is printed without quotes (`Quirks.NumbersPrinted`, `Arrays.UnquotedStringElement`).
- In a list, a quoted element is stored as the StringBuilder it was read into. An object's value is turned into a String before it is stored (`Quirks.QuotedElementIsBuilder`, `Converter.ArrayAppend`).
- The Javadoc of `JSonArray.get` says it gives null past the end. The code calls `ArrayList.get`, which throws (`Arrays.JSonArray.Get`).
- Besides the two delimiter checks, four cases raise a runtime exception: a text that is empty after trimming, an unclosed quote, an unended number, and an unbalanced nested structure. Neither String constructor catches them (the URL constructors catch every exception, but they are I/O and not modelled). The model returns `RuntimeError` for each.

## Model

| member | source | states |
|---|---|---|
| JSon.EntryTextAt | src/main/java/com/hightide/jjson/JSonObject.java:197-203 | the i-th printed entry is the i-th enumerated name in quotes, a colon, and its value (quoted only when it is a String) |
| JSon.ElementTextAt | src/main/java/com/hightide/jjson/JSonArray.java:123-124 | the i-th printed element is the i-th value's own textual form |
| JSon.EmptyTexts | src/main/java/com/hightide/jjson/JSonObject.java:193-211 | an empty map prints as `{}` and an empty list as `[]`, whatever the enumeration order |
| Converter.TrimStart | src/main/java/com/hightide/jjson/JSonConverter.java:76 | the result is a suffix of the text; it is empty or starts above U+0020; a text already starting above U+0020 is kept |
| Converter.TrimStartDrops | src/main/java/com/hightide/jjson/JSonConverter.java:76 | every character the front trim drops is at or below U+0020 |
| Converter.TrimEnd | src/main/java/com/hightide/jjson/JSonConverter.java:76 | the result is a prefix of the text; it is empty or ends above U+0020; a text already ending above U+0020 is kept |
| Converter.TrimEndDrops | src/main/java/com/hightide/jjson/JSonConverter.java:76 | every character the back trim drops is at or below U+0020 |
| Converter.Trim | src/main/java/com/hightide/jjson/JSonConverter.java:76 | the trimmed text is no longer than the input and is empty or starts and ends above U+0020; a text that already does is unchanged |
| Converter.PrefixOfSuffix | src/main/java/com/hightide/jjson/JSonConverter.java:76 | trimming the back of a suffix cuts a slice of the whole text, followed only by characters at or below U+0020 |
| Converter.TrimCuts | src/main/java/com/hightide/jjson/JSonConverter.java:76 | the trimmed text is one contiguous slice of the input, and everything cut off before and after it is at or below U+0020 |
| Converter.BalancedFrom | src/main/java/com/hightide/jjson/JSonConverter.java:236-247 | a found substring is a prefix of the text, longer than the index where the scan started, ending with the closing character |
| Converter.JSonSubstring | src/main/java/com/hightide/jjson/JSonConverter.java:211-249 | a found substring is a prefix of at least two characters ending with `]` for `[` and `}` otherwise |
| Converter.GetJSonSubstring | src/main/java/com/hightide/jjson/JSonConverter.java:211-249 | the stack loop, with the stack kept as its size, gives exactly `JSonSubstring` |
| Converter.ReadQuoted | src/main/java/com/hightide/jjson/JSonConverter.java:86-100 | never a parse exception; on success it stops on a `"` at or after the start, and the result extends the accumulator by at most one character per character consumed |
| Converter.ReadQuotedText | src/main/java/com/hightide/jjson/JSonConverter.java:91-99 | the copying loop computes `ReadQuoted` |
| Converter.NumberEnd | src/main/java/com/hightide/jjson/JSonConverter.java:107-110 | the first `,`, space or `}` at or after the start, with none before it; when there is none, IndexOutOfBounds |
| Converter.FindNumberEnd | src/main/java/com/hightide/jjson/JSonConverter.java:107-110 | the scanning loop computes `NumberEnd` |
| Converter.QuotedPhase | src/main/java/com/hightide/jjson/JSonConverter.java:86-100 | the quote test never raises a parse exception and leaves the index inside the text, at or after where it was |
| Converter.NumberPhase | src/main/java/com/hightide/jjson/JSonConverter.java:105-112 | the number test never raises a parse exception and leaves the index inside the text, at or after where it was |
| Converter.BooleanPhase | src/main/java/com/hightide/jjson/JSonConverter.java:117-125 | the index, name and mode stay; a lowercase `t` with three more characters that lower-case to `true` sets true, a lowercase `f` with four more that lower-case to `false` sets false, and otherwise nothing changes |
| Converter.NestedObjectPhase | src/main/java/com/hightide/jjson/JSonConverter.java:130-134 | the `{` test never raises a parse exception (the nested constructor catches it) and leaves the index inside the text; what it stores and where it leaves the index is `ConverterProperties.NestedObjectStored` |
| Converter.NestedArrayPhase | src/main/java/com/hightide/jjson/JSonConverter.java:139-143 | the `[` test never raises a parse exception and leaves the index inside the text; what it stores and where it leaves the index is `ConverterProperties.NestedArrayStored` |
| Converter.ValuePhases | src/main/java/com/hightide/jjson/JSonConverter.java:86-143 | the value tests of one iteration never raise a parse exception and never move the index backwards or off the text |
| Converter.Committed | src/main/java/com/hightide/jjson/JSonConverter.java:149-165 | the index moves one past the last test's character; no name is lost; either the key is reset or the map is unchanged |
| Converter.ObjectStep | src/main/java/com/hightide/jjson/JSonConverter.java:86-165 | one object iteration strictly advances, keeps every stored name, and either resets the key or leaves the map unchanged |
| Converter.ObjectLoop | src/main/java/com/hightide/jjson/JSonConverter.java:81-166 | the object loop never raises a parse exception |
| Converter.ParseObject | src/main/java/com/hightide/jjson/JSonConverter.java:70-173 | the only parse exceptions are the missing `{` at offset 0 and the missing `}` at the last offset of the trimmed text |
| Converter.ObjectOrEmpty | src/main/java/com/hightide/jjson/JSonConverter.java:259-265 | a parse exception becomes an empty map; any other outcome passes through unchanged |
| Converter.ArrayStep | src/main/java/com/hightide/jjson/JSonConverter.java:299-361 | one array iteration strictly advances and either keeps the list or appends exactly one value at its end |
| Converter.ArrayLoop | src/main/java/com/hightide/jjson/JSonConverter.java:295-362 | the array loop never raises a parse exception |
| Converter.ParseArray | src/main/java/com/hightide/jjson/JSonConverter.java:286-369 | the only parse exceptions are the missing `[` at offset 0 and the missing `]` at the last offset of the trimmed text |
| Converter.ArrayOrEmpty | src/main/java/com/hightide/jjson/JSonArray.java:95-102 | a parse exception becomes an empty list; any other outcome passes through unchanged |
| Converter.ScanQuoted | src/main/java/com/hightide/jjson/JSonConverter.java:86-100 | the quote test computes `QuotedPhase` |
| Converter.ScanNumber | src/main/java/com/hightide/jjson/JSonConverter.java:105-112 | the number test computes `NumberPhase` |
| Converter.ScanObject | src/main/java/com/hightide/jjson/JSonConverter.java:130-134 | the `{` test, calling the scanner and the object constructor, computes `NestedObjectPhase` |
| Converter.ScanArray | src/main/java/com/hightide/jjson/JSonConverter.java:139-143 | the `[` test computes `NestedArrayPhase` |
| Converter.ScanValue | src/main/java/com/hightide/jjson/JSonConverter.java:86-143 | the value tests in order compute `ValuePhases` |
| Converter.StepCommits | src/main/java/com/hightide/jjson/JSonConverter.java:160-165 | an iteration whose value tests succeed ends as `Committed` says |
| Converter.ObjectCommit | src/main/java/com/hightide/jjson/JSonConverter.java:149-165 | `:` selects value mode and `,` key mode; a produced value is stored under the key, over any earlier entry, and the key is reset; with no value the key carries over |
| Converter.ArrayAppend | src/main/java/com/hightide/jjson/JSonConverter.java:299-360 | a produced value is appended once at the end, a quoted text as the StringBuilder it was read into; otherwise the list is unchanged |
| Converter.ObjectIteration | src/main/java/com/hightide/jjson/JSonConverter.java:86-165 | the loop body computes `ObjectStep` |
| Converter.RunObjectLoop | src/main/java/com/hightide/jjson/JSonConverter.java:81-166 | the while loop computes `ObjectLoop` |
| Converter.CreateJSonPropertiesString | src/main/java/com/hightide/jjson/JSonConverter.java:70-173 | computes `ParseObject` |
| Converter.CreateJSonObjectString | src/main/java/com/hightide/jjson/JSonConverter.java:259-265 | computes `ObjectOrEmpty` |
| Converter.ArrayIteration | src/main/java/com/hightide/jjson/JSonConverter.java:300-361 | the loop body computes `ArrayStep` |
| Converter.RunArrayLoop | src/main/java/com/hightide/jjson/JSonConverter.java:295-362 | the while loop computes `ArrayLoop` |
| Converter.CreateJSonArrayString | src/main/java/com/hightide/jjson/JSonConverter.java:286-369 | computes `ParseArray` |
| Converter.JSonArrayFromString | src/main/java/com/hightide/jjson/JSonArray.java:95-102 | computes `ArrayOrEmpty` |
| ConverterProperties.ObjectLeadingDelimiter | src/main/java/com/hightide/jjson/JSonConverter.java:78-80 | the missing-`{` exception at offset 0 is raised if and only if the trimmed text is non-empty and does not start with `{` |
| ConverterProperties.ObjectTrailingDelimiter | src/main/java/com/hightide/jjson/JSonConverter.java:168-170 | the missing-`}` exception is raised if and only if the text starts with `{`, the loop ends without a runtime exception, and the last character is not `}` |
| ConverterProperties.ParsedObjectIsDelimited | src/main/java/com/hightide/jjson/JSonConverter.java:70-173 | a parsed object came from a trimmed text of at least two characters starting with `{` and ending with `}` |
| ConverterProperties.ArrayLeadingDelimiter | src/main/java/com/hightide/jjson/JSonConverter.java:292-294 | the missing-`[` exception is raised if and only if the trimmed text is non-empty and does not start with `[` |
| ConverterProperties.ArrayTrailingDelimiter | src/main/java/com/hightide/jjson/JSonConverter.java:364-366 | the missing-`]` exception is raised if and only if the text starts with `[`, the loop ends without a runtime exception, and the last character is not `]` |
| ConverterProperties.ParsedArrayIsDelimited | src/main/java/com/hightide/jjson/JSonConverter.java:286-369 | a parsed array came from a trimmed text of at least two characters starting with `[` and ending with `]` |
| ConverterProperties.EmptyContainers | src/main/java/com/hightide/jjson/JSonConverter.java:81 | `{}` parses to the empty map and `[]` to the empty list |
| ConverterProperties.BalancedFromFirstZero | src/main/java/com/hightide/jjson/JSonConverter.java:236-247 | started with the true depth, the scan stops at the first later index where the depth is zero, and finds nothing exactly when the depth stays positive |
| ConverterProperties.ScannerShortestBalancedPrefix | src/main/java/com/hightide/jjson/JSonConverter.java:211-249 | `getJSonSubstring` returns the shortest prefix whose opening and closing characters balance, counting quoted ones too, and null exactly when no prefix balances |
| ConverterProperties.QuotedText | src/main/java/com/hightide/jjson/JSonConverter.java:91-99 | a quoted run ends at the first `"` whatever precedes it and reads as the run with only `\/` decoded |
| ConverterProperties.QuotedVerbatim | src/main/java/com/hightide/jjson/JSonConverter.java:91-99 | a run without backslashes is copied verbatim |
| ConverterProperties.EscapedQuoteEndsText | src/main/java/com/hightide/jjson/JSonConverter.java:91-99 | `\"` is not an escape: `a\"b"` reads as `a\` |
| ConverterProperties.UnclosedQuote | src/main/java/com/hightide/jjson/JSonConverter.java:91-99 | a quote never closed ends in IndexOutOfBounds |
| ConverterProperties.BooleanTrue | src/main/java/com/hightide/jjson/JSonConverter.java:117-120 | true is read if and only if a lowercase `t` has three more characters that lower-case to `rue` |
| ConverterProperties.BooleanFalse | src/main/java/com/hightide/jjson/JSonConverter.java:121-124 | false is read if and only if a lowercase `f` has four more characters that lower-case to `alse` |
| ConverterProperties.CapitalIsNotBoolean | src/main/java/com/hightide/jjson/JSonConverter.java:117-125 | a capital `T` or `F` never starts a boolean |
| ConverterProperties.InertPhases | src/main/java/com/hightide/jjson/JSonConverter.java:86-143 | on a character that starts no value, the value tests do nothing |
| ConverterProperties.AfterQuote | src/main/java/com/hightide/jjson/JSonConverter.java:105-143 | once the quote test has stopped on the closing quote, no later test reacts |
| ConverterProperties.NamePhases | src/main/java/com/hightide/jjson/JSonConverter.java:86-100 | in key mode a quoted run is appended to the key and the iteration ends on the closing quote |
| ConverterProperties.TextPhases | src/main/java/com/hightide/jjson/JSonConverter.java:86-100 | in value mode a quoted run becomes a String value and the iteration ends on the closing quote |
| ConverterProperties.NumberPhases | src/main/java/com/hightide/jjson/JSonConverter.java:105-112 | a digit or `-` makes the span up to its end a number, and the iteration ends on the character that ended it |
| ConverterProperties.NumberRunsOff | src/main/java/com/hightide/jjson/JSonConverter.java:107-110 | a number that nothing ends fails the iteration with IndexOutOfBounds |
| ConverterProperties.BooleanPhases | src/main/java/com/hightide/jjson/JSonConverter.java:117-125 | a boolean sets the value and leaves the index on its first letter |
| ConverterProperties.CutEnds | src/main/java/com/hightide/jjson/JSonConverter.java:132-133 | the substring cut at an index ends inside the text, on the closing character |
| ConverterProperties.NestedObjectUnbalanced | src/main/java/com/hightide/jjson/JSonConverter.java:130-134 | with no balancing `}` the scanner's null is used and a runtime exception escapes |
| ConverterProperties.NestedObjectStored | src/main/java/com/hightide/jjson/JSonConverter.java:130-134 | the value is the nested constructor's object of the cut substring, and the index moves to that substring's last character, a `}`; a runtime exception of the nested parse escapes |
| ConverterProperties.NestedArrayUnbalanced | src/main/java/com/hightide/jjson/JSonConverter.java:139-143 | with no balancing `]` the scanner's null is used and a runtime exception escapes |
| ConverterProperties.NestedArrayStored | src/main/java/com/hightide/jjson/JSonConverter.java:139-143 | the value is the nested constructor's list of the cut substring, and the index moves to that substring's last character, a `]`; a runtime exception of the nested parse escapes |
| ConverterProperties.ObjectPhaseDecides | src/main/java/com/hightide/jjson/JSonConverter.java:86-143 | at `{` no other value test acts, so the iteration ends as the `{` test leaves it |
| ConverterProperties.ArrayPhaseDecides | src/main/java/com/hightide/jjson/JSonConverter.java:86-143 | at `[` no other value test acts |
| ConverterProperties.NestedObjectPhases | src/main/java/com/hightide/jjson/JSonConverter.java:130-134 | a nested object that parses becomes the value, and the iteration ends on its closing `}` with name and mode unchanged |
| ConverterProperties.NestedArrayPhases | src/main/java/com/hightide/jjson/JSonConverter.java:139-143 | a nested array that parses becomes the value, and the iteration ends on its closing `]` with name and mode unchanged |
| ConverterProperties.ObjectKeyCarried | src/main/java/com/hightide/jjson/JSonConverter.java:160-165 | an iteration with no value, not ending on `:` or `,`, carries the key and the mode over and stores nothing |
| ConverterProperties.ObjectValueStored | src/main/java/com/hightide/jjson/JSonConverter.java:160-164 | an iteration with a value stores it under the key and resets the key |
| ConverterProperties.ObjectValueMoved | src/main/java/com/hightide/jjson/JSonConverter.java:160-164 | the same, for value tests whose result is given field by field |
| ConverterProperties.ObjectLoopKeepsNames | src/main/java/com/hightide/jjson/JSonConverter.java:81-166 | a name stored earlier is still there when the loop ends |
| ConverterProperties.ArrayLoopExtends | src/main/java/com/hightide/jjson/JSonConverter.java:295-362 | the values appended earlier stay, in order, at the front of the result |
| RoundTrip.StoredFrom | src/main/java/com/hightide/jjson/JSonConverter.java:160-164 | storing a map's pairs one by one in any listing, repetitions included, overrides the starting map with exactly those entries |
| RoundTrip.EntryParses | src/main/java/com/hightide/jjson/JSonConverter.java:86-165 | a `"name":"text"` entry takes three iterations that store the text under the name and resume after the entry in value mode |
| RoundTrip.PairsParse | src/main/java/com/hightide/jjson/JSonConverter.java:81-166 | plain entries joined by commas and closed by `}` are stored in order, later entries over earlier ones |
| RoundTrip.ObjectTextParsesBack | src/main/java/com/hightide/jjson/JSonObject.java:193-211 | a map of plain String values printed in any enumeration order parses back to the same map, through both the converter and the constructor |
| Quirks.SkippedRun | src/main/java/com/hightide/jjson/JSonConverter.java:81-166 | characters that start no value and switch no mode are skipped one iteration each, with the name and mode unchanged |
| Quirks.NameAppended | src/main/java/com/hightide/jjson/JSonConverter.java:94 | a quoted name read while another name is still waiting is appended to it |
| Quirks.CommaKeepsName | src/main/java/com/hightide/jjson/JSonConverter.java:156-158 | a comma switches to key mode but does not clear a waiting name |
| Quirks.NullJoinsNames | src/main/java/com/hightide/jjson/JSonConverter.java:160-164 | `{"a":null,"b":"x"}` parses to the single entry `ab` → `x`, because `null` produces no value and the name is not reset |
| Quirks.LastDuplicateWins | src/main/java/com/hightide/jjson/JSonConverter.java:161 | `{"a":"x","a":"y"}` parses to `a` → `y` |
| Quirks.CapitalTrueDropped | src/main/java/com/hightide/jjson/JSonConverter.java:117-125 | `{"a":True}` parses to the empty map |
| Quirks.MixedCaseTrueRead | src/main/java/com/hightide/jjson/JSonConverter.java:117-120 | `{"a":tRUE}` parses to `a` → true |
| Quirks.NumberAppended | src/main/java/com/hightide/jjson/JSonConverter.java:317-324 | an ended number is appended and the scan continues after the character that ended it |
| Quirks.NumberOverruns | src/main/java/com/hightide/jjson/JSonConverter.java:319-322 | an unended number fails the array parse with IndexOutOfBounds |
| Quirks.ArraySkips | src/main/java/com/hightide/jjson/JSonConverter.java:295-362 | a character that starts no value is skipped in array mode |
| Quirks.ParseFromArrayLoop | src/main/java/com/hightide/jjson/JSonConverter.java:286-369 | a bracketed text parses to whatever its loop produced |
| Quirks.PackedNumbersOverrun | src/main/java/com/hightide/jjson/JSonConverter.java:319-322 | `[1,2,3]` throws IndexOutOfBounds, in the converter and in `new JSonArray(String)` |
| Quirks.SpacedNumbersRead | src/main/java/com/hightide/jjson/JSonConverter.java:317-324 | `[1, 2 ]` parses to the numbers 1 and 2 in order |
| Quirks.QuotedElementIsBuilder | src/main/java/com/hightide/jjson/JSonConverter.java:299-301 | `["x"]` parses to a list holding the StringBuilder `x`, not the String |
| Quirks.InnerObjectRead | src/main/java/com/hightide/jjson/JSonConverter.java:70-173 | `{"i":1}` parses to `i` → 1 |
| Quirks.NestedObjectRead | src/main/java/com/hightide/jjson/JSonConverter.java:130-134 | `{"o":{"i":1}}` parses to `o` → the object `i` → 1 |
| Quirks.NumbersPrinted | src/main/java/com/hightide/jjson/JSonArray.java:121-132 | the list of 1.0 and 2.0 prints as `[1.0, 2.0]` |
| Quirks.LastNumberOverruns | src/main/java/com/hightide/jjson/JSonConverter.java:319-322 | `[1.0, 2.0]` throws IndexOutOfBounds, since `]` does not end a number |
| Quirks.PrintedNumbersDoNotReadBack | src/main/java/com/hightide/jjson/JSonArray.java:95-132 | a list of numbers printed by `toString` makes `new JSonArray(String)` throw |
| Objects.ValueEquals | src/main/java/com/hightide/jjson/JSonObject.java:359-366 | a stored nested object equals nothing, since its `equals` always answers false; any other stored value equals exactly the same value |
| Objects.EqualsItself | src/main/java/com/hightide/jjson/JSonObject.java:359-366 | every value but a nested object equals itself |
| Objects.Renamed | src/main/java/com/hightide/jjson/JSonObject.java:259-271 | a present name's value moves to the new name, the old name goes, the size drops by one only when the new name was already used, other names keep their values, and an absent name changes nothing |
| Objects.RenameUndone | src/main/java/com/hightide/jjson/JSonObject.java:259-271 | renaming to an unused name and back restores the map |
| Objects.RenameToSelf | src/main/java/com/hightide/jjson/JSonObject.java:259-271 | renaming a name to itself changes nothing |
| Objects.Replaced | src/main/java/com/hightide/jjson/JSonObject.java:316-318 | the names stay the same; only a present name gets the new value |
| Objects.ReplacedTwice | src/main/java/com/hightide/jjson/JSonObject.java:316-318 | replacing twice is replacing once with the second value |
| Objects.EntryString | src/main/java/com/hightide/jjson/JSonObject.java:198-203 | the text one iteration adds is `EntryText` |
| Objects.JSonObject.constructor | src/main/java/com/hightide/jjson/JSonObject.java:146-149 | no properties |
| Objects.JSonObject.FromMap | src/main/java/com/hightide/jjson/JSonObject.java:188-191 | the given map's entries |
| Objects.JSonObject.FromText | src/main/java/com/hightide/jjson/JSonObject.java:157-164 | a new object exactly when the converter raises no runtime exception; it holds the parsed map, or nothing after a parse exception; a runtime exception passes through |
| Objects.JSonObject.ToString | src/main/java/com/hightide/jjson/JSonObject.java:193-211 | the loop builds `ObjectText` for the map's enumeration order |
| Objects.JSonObject.GetName | src/main/java/com/hightide/jjson/JSonObject.java:231-238 | a name found holds a value equal to the argument; none is found if and only if no value is equal |
| Objects.JSonObject.GetValue | src/main/java/com/hightide/jjson/JSonObject.java:287-294 | a value is found if and only if the name is present, and it is the stored value |
| Objects.JSonObject.GetDefaultValue | src/main/java/com/hightide/jjson/JSonObject.java:306-309 | the stored value, or the default when the name is absent |
| Objects.JSonObject.AddName | src/main/java/com/hightide/jjson/JSonObject.java:255-257 | the name now maps to the Null marker; nothing else changes |
| Objects.JSonObject.SetName | src/main/java/com/hightide/jjson/JSonObject.java:259-271 | the map becomes `Renamed` of the old one |
| Objects.JSonObject.SetNameByValue | src/main/java/com/hightide/jjson/JSonObject.java:273-285 | with no equal value nothing changes; otherwise some name with an equal value is renamed |
| Objects.JSonObject.SetValueByValue | src/main/java/com/hightide/jjson/JSonObject.java:311-314 | with no equal value nothing changes; otherwise some name with an equal value gets the new value |
| Objects.JSonObject.SetValue | src/main/java/com/hightide/jjson/JSonObject.java:316-318 | the map becomes `Replaced` of the old one |
| Objects.JSonObject.AddPair | src/main/java/com/hightide/jjson/JSonObject.java:320-322 | the name maps to the value; nothing else changes |
| Objects.JSonObject.CompareTo | src/main/java/com/hightide/jjson/JSonObject.java:333-341 | 1, -1 or 0 if and only if this object has more, fewer or as many entries as the other |
| Objects.AddPairThenGetValue | src/main/java/com/hightide/jjson/JSonObject.java:320-322 | after `addPair`, `getValue` finds the new value, and any other name finds what it had before |
| Objects.QuotedStringEntry | src/main/java/com/hightide/jjson/JSonObject.java:199-200 | a one-entry map with a String value prints as `{"name":"text"}` |
| Objects.PrintThenParse | src/main/java/com/hightide/jjson/JSonObject.java:193-211 | `toString` then `new JSonObject(String)` gives a new object with the same entries, for plain String values |
| Arrays.Inserted | src/main/java/com/hightide/jjson/JSonArray.java:160-162 | one longer; the value at the index; earlier elements in place and later ones shifted by one |
| Arrays.InsertAtEndAppends | src/main/java/com/hightide/jjson/JSonArray.java:153-162 | inserting at the length appends |
| Arrays.InsertedRemoved | src/main/java/com/hightide/jjson/JSonArray.java:160-162 | removing the inserted element gives back the list |
| Arrays.JSonArray.constructor | src/main/java/com/hightide/jjson/JSonArray.java:75-78 | no values |
| Arrays.JSonArray.FromList | src/main/java/com/hightide/jjson/JSonArray.java:85-88 | the given list's values |
| Arrays.JSonArray.FromText | src/main/java/com/hightide/jjson/JSonArray.java:95-102 | a new array exactly when the converter raises no runtime exception; it holds the parsed list, or nothing after a parse exception; a runtime exception passes through |
| Arrays.JSonArray.ToString | src/main/java/com/hightide/jjson/JSonArray.java:121-132 | the loop builds `ArrayText` |
| Arrays.JSonArray.Get | src/main/java/com/hightide/jjson/JSonArray.java:140-142 | the value at an index inside the list; IndexOutOfBounds for any other index |
| Arrays.JSonArray.Add | src/main/java/com/hightide/jjson/JSonArray.java:149-151 | the value is appended at the end |
| Arrays.JSonArray.Put | src/main/java/com/hightide/jjson/JSonArray.java:160-162 | for an index from 0 to the length the list becomes `Inserted`; for any other index IndexOutOfBounds and the list is unchanged |
| Arrays.PutThenGet | src/main/java/com/hightide/jjson/JSonArray.java:140-162 | after `put` at an index inside the list, `get` there gives the new value and one further gives the value that was there |
| Arrays.UnquotedStringElement | src/main/java/com/hightide/jjson/JSonArray.java:124 | a String element prints without quotes |

## Left out

- Converter.NumberPhase: a number is kept as the span of text it was cut from. `Double.parseDouble` is not modelled, so the `NumberFormatException` it throws for a span such as `-` or `1x` is not raised.
- JSon.Text: a number prints as its span. This equals `Double.toString` only when the span is already in that form (`1.0`, not `1`).
- Strings are sequences of Dafny `char`, which are Unicode scalar values. A Java `char` is a UTF-16 code unit. For a text with characters outside the Basic Multilingual Plane, indices and the `length() - 1` offset of the missing-`}` and missing-`]` exceptions differ from Java's, and a lone surrogate cannot be represented.
- Converter.IsDigit: `Character.isDigit` is restricted to ASCII digits.
- Converter.LowerAscii: `String.toLowerCase` is restricted to ASCII letters. No other character lower-cases to a letter of `true` or `false`.
- JSon.KeyOrder: the enumeration order is a function of the set of names alone, listing each once. So the model has two maps with the same names print in the same order, which Java does not promise. A HashMap's order also depends on its capacity and, for names that share a bucket (such as `Aa` and `BB`), on the order they were inserted. `JSonObject(Map)` accepts any Map, whose order may be anything.
- Objects.JSonObject.GetName: it gives some name with an equal value. Which one HashMap's order would give first is not fixed. SetNameByValue and SetValueByValue inherit this.
- Objects.ValueEquals: a JSonArray is compared by its contents. In Java, JSonArray has no `equals`, so it compares by identity, which values in this model do not have. Numbers compare by their span, not by their Double value. A StringBuilder element compares by its characters, whereas Java's `StringBuilder.equals` is identity.
- Objects.JSonObject.FromMap and Arrays.JSonArray.FromList: the Java constructors keep the caller's map or list, so later changes through either reference are shared. The model copies the value.
- Java `null` as an argument or stored value is not modelled. The Null marker stands for `JSonObject.NULL`. `Null.equals(null)` answering true is therefore not captured.
- The URL constructors, `createJSonPropertiesHTML`, `createJSonObjectHTML` and the `main` methods read from the network or print. They are I/O.
- `hashCode`, `serialVersionUID` and `Serializable` play no part in parsing or printing.
- `JSonObject.equals` always answers false. It is captured only through `Objects.ValueEquals`.
- `JSonConstants` is inlined as character literals, and `JSonParseException` is the `ParseException` outcome.
- `getNameOccurences`, `getValueOccurences`, `getDefaultName`, `getJSonProperties` and `setJSonProperties` are not part of this model.
- The class comment of JSonArray mentions a `set` operation, but the class has none.
