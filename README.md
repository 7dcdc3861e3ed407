# database-bestmat, modelled in Dafny

database-bestmat is a small JSON-file record store for Node and Deno. A
`Database` object owns one backing file, `db_<name>.json`. The caller sets
`schema`, an object whose values are kind tags (`"string"`, `"char"`,
`"number"`, `"date"`, `"error"`). `add(record, callback)` checks each field
of the record by position against the schema, using the classifier
`type`, and then appends the record to the file's JSON array. `get` reads the
whole array back. In `src/index.ts`, `delete(index)` splices one element out
and `deleteDB` removes the file. The field helpers `char`, `string`, `number`,
`error` and `date` return their tag when called without an argument, and
the value to store when called with one.

The project models both variants of the store: `src/index.ts` and
`backup/index.ts`.

- `wrappers.dfy`: `Option` and `Result`.
- `values.dfy`: the runtime values the store handles (text, integers,
  objects with or without a `message`, date records), JavaScript
  truthiness, and the store's failures.
- `numeric_text.dfy`: when `isNaN` is false for a string, that is, the
  StringNumericLiteral grammar of section 7.1.4.1.1 of ECMA-262, written as
  a character-by-character scanner.
- `kinds.dfy`: the classifier `type` and the schema comparison built on it.
- `fields.dfy`: the five field helpers.
- `store.dfy`: the logic the two variants share:
  - records as ordered key/value sequences;
  - the file system, a class whose `files` map the methods update;
  - the positional check-and-copy loop of `add`;
  - what `add` and `get` do to the files.
- `src_index.dfy`: the `Database` class of `src/index.ts`, with `delete`,
  `removeItem` and `deleteDB`.
- `backup_index.dfy`: the `Database` class of `backup/index.ts`.

The helpers and `type` are written the same way in both files. They are
modelled once and cited at their `src/index.ts` lines. The copies are at
`backup/index.ts:85-182`.

Behaviour worth knowing:

- `isNaN("")` is false, so the empty string is tagged `"number"`, not
  `"string"` (`Kinds.NumericExamples`).
- After `deleteDB`, an `add` whose record does not conform fails on the
  schema before any I/O.
- A read failure inside `add`'s asynchronous callback is thrown there, not
  passed to the callback. The model returns it as an error.
- `delete` hands the spliced array to `Deno.writeFileSync` without
  `JSON.stringify` (src/index.ts:61), so as written it never removes a
  record. The model's `delete` writes the array as `add` does, and the
  as-written behaviour is kept beside it (see "## Findings").

## Model

| member | source | states |
|---|---|---|
| Values.Value.Truthy | src/index.ts:127 | a value is truthy exactly when it is neither `""` nor `0`, the test of `if (x)` in the helpers |
| Values.Provided | src/index.ts:127 | a helper argument counts as given exactly when it is present and neither `""` nor `0` |
| Kinds.TypeOf | src/index.ts:101-119 | `type` gives date or error exactly for objects, char only for one-character text, error only for an object with a message, and number for every integer |
| Kinds.IsNaN | src/index.ts:103 | `isNaN` is false for every integer and for the empty string |
| Kinds.Matches | src/index.ts:69 | a declared schema value can only pass a field when it is one of the five tag strings |
| Kinds.TextTag | src/index.ts:101-111 | text is tagged number exactly when it is numeric; otherwise it is char exactly when it is one character long, and string exactly when it is not |
| Kinds.NonTextTag | src/index.ts:101-118 | an integer is always a number, and a value is tagged date or error exactly when it is an object |
| Kinds.ObjectTag | src/index.ts:112-118 | an object is an error exactly when its message is present and non-empty, and a date otherwise; a date record is always a date |
| Kinds.BlankIsNumber | src/index.ts:103-110 | white-space-only text, the empty string included, is tagged number, because the numeric test comes before the length test |
| Kinds.DigitsAreNumber | src/index.ts:103-110 | every digit string, a single digit included, is tagged number |
| Kinds.CharAlphabetTag | src/index.ts:7-11 | of the characters the `Char` type admits, a letter is tagged char and a digit is tagged number |
| Kinds.SentinelIsString | src/index.ts:23 | each of the five tag strings is itself text of kind string |
| Kinds.MatchesSentinel | src/index.ts:69 | a declared tag string admits exactly the values of that kind |
| Kinds.WordIsString | src/index.ts:103-108 | a word of two or more ASCII letters, other than "Infinity", is tagged string |
| Kinds.NumericExamples | src/index.ts:103-110 | "5", "" and " " are tagged number |
| Kinds.PaddedDigitsExample | src/index.ts:103 | " 12 " is tagged number, because white space around a number is ignored |
| Kinds.InfinityExample | src/index.ts:103 | "Infinity" is tagged number |
| Kinds.NegativeInfinityExample | src/index.ts:103 | "-Infinity" is tagged number |
| Kinds.HexExample | src/index.ts:103 | "0x1F" is tagged number |
| Kinds.TextExamples | src/index.ts:194-197 | the commented usage's "Y" is a char and "HHHH" a string; an error with an empty message is a date |
| NumericText.IsNumericText | src/index.ts:103 | text that starts with anything but white space, a sign, a digit, a `.` or the `I` of "Infinity" is NaN |
| NumericText.Step | src/index.ts:103 | once the scan has failed, no character makes it succeed |
| NumericText.Run | src/index.ts:103 | once the scan has failed, no remaining text makes it succeed |
| NumericText.BlankIsNumeric | src/index.ts:103 | `isNaN` is false for white-space-only text |
| NumericText.DigitsAreNumeric | src/index.ts:103 | `isNaN` is false for a non-empty digit string |
| NumericText.PaddedDigitsAreNumeric | src/index.ts:103 | `isNaN` is false for digits with white space on either side |
| NumericText.WordIsNotNumeric | src/index.ts:103 | `isNaN` is true for every non-empty ASCII-letter word except "Infinity" |
| NumericText.InfinityIsNumeric | src/index.ts:103 | `isNaN` is false for "Infinity", "+Infinity" and "-Infinity" |
| NumericText.RadixIsNumeric | src/index.ts:103 | `isNaN` is false for `0x`, `0o` or `0b` in either case, followed by digits of that radix |
| NumericText.RunConcat | src/index.ts:103 | scanning two texts one after the other is the same as scanning their concatenation |
| Fields.CharField | src/index.ts:126-132 | `char` returns a truthy argument unchanged, with no check of its kind, and "char" otherwise, so its result is always truthy |
| Fields.StringField | src/index.ts:134-144 | `string` throws exactly when its argument is truthy and not text; on success it returns truthy text |
| Fields.NumberField | src/index.ts:146-152 | `number` returns the number exactly when it is given a nonzero number, so zero gives "number" |
| Fields.ErrorField | src/index.ts:154-160 | `error` returns a truthy argument unchanged and "error" otherwise, so its result is always truthy |
| Fields.DateField | src/index.ts:162-184 | `date` returns a date record exactly when it is given a Date; the record's `day` is the weekday (`getDay`), and the other six fields are the matching getters |
| Fields.FalsyGivesSentinel | src/index.ts:126-184 | each helper given no argument or a falsy one returns its own tag string |
| Fields.CharUncheckedStringChecked | src/index.ts:126-144 | `char` returns any truthy argument unchanged, while `string` refuses a truthy argument that is not text |
| Fields.CharFieldMatches | src/index.ts:126-132 | `char(s)` passes a `char()` declaration exactly when `s` is one non-numeric character |
| Fields.StringFieldMatches | src/index.ts:134-144 | `string(s)` passes a `string()` declaration exactly when `s` is empty, or is non-numeric and not one character long |
| Fields.NumberFieldMatches | src/index.ts:146-152 | `number(n)` passes a `number()` declaration exactly when `n` is nonzero |
| Fields.ErrorFieldMatches | src/index.ts:154-160 | `error(e)` passes an `error()` declaration exactly when the message is non-empty |
| Fields.DateFieldMatches | src/index.ts:162-184 | `date(d)` always passes a `date()` declaration, and `date()` never does |
| Store.FilePath | src/index.ts:34-35 | the path is "db_", then exactly the name, then ".json", so distinct names give distinct paths |
| Store.Lookup | src/index.ts:49 | a file is found exactly when the path is non-empty and present, and then it is that file |
| Store.FileSystem.Read | src/index.ts:49 | reading returns the file at the path, or nothing |
| Store.FileSystem.Write | src/index.ts:82 | writing replaces that one file and leaves the others alone |
| Store.FileSystem.Remove | src/index.ts:53 | removal succeeds exactly when the file exists, and then only that file goes |
| Store.Put | src/index.ts:75 | assigning a property keeps the keys distinct; an existing key keeps its place and takes the new value; a new key goes last, which for a key that is not integer-like is where JavaScript lists it |
| Store.BuildObject | src/index.ts:66-76 | the built object has distinct keys, and is the record itself when the record's keys are distinct |
| Store.FieldMatches | src/index.ts:69 | a field passes only at a position the schema has, and only against a text value |
| Store.Conforms | src/index.ts:68-70 | a record that passes has no more fields than the schema |
| Store.FirstMismatch | src/index.ts:68-70 | the position at which `add` throws is the first field that fails its positional check |
| Store.FirstMismatchAt | src/index.ts:68-70 | a failing field with every earlier field passing is the first mismatch |
| Store.CheckedCopy | src/index.ts:68-76 | the loop succeeds exactly when every field passes; it then yields the built object, and otherwise fails with the value at the first mismatch |
| Store.Appended | src/index.ts:81-88 | the written array is the old array, unchanged, followed by the new object |
| Store.CallbackStatus | src/index.ts:81-83 | the callback is called exactly when the file was empty, and then with status 200 |
| Store.AddEffect | src/index.ts:64-91 | `add` succeeds exactly when the record conforms and the file exists; a failure changes no file; a success replaces only its own file with the appended array |
| Store.GetFrom | src/index.ts:48-50 | reading the store at a path gives what `ReadStore` gives |
| Store.AddTo | src/index.ts:64-91 | the checked copy and the write have exactly the result and file effect of `AddEffect` |
| Store.ReadStore | src/index.ts:48-50 | `get` succeeds exactly when the file exists and holds an array; a missing file fails to read and an empty one fails to parse |
| Store.LongerRecordFails | src/index.ts:68-70 | a record with more fields than the schema always fails, at or before the schema's end |
| Store.TrailingSchemaUnchecked | src/index.ts:68 | schema entries past the record's length are never checked |
| Store.DeclaredSchema | src/index.ts:68-71 | over a schema of tag strings, a record passes exactly when it is no longer than the schema and each field has the kind declared at its position |
| Store.PositionNotKey | src/index.ts:68-75 | the check is by position: `{age, name}` fails against `{name, age}`, while renamed keys in schema order pass |
| Store.AddRejectsBeforeIO | src/index.ts:68-78 | a failed check throws with the offending value and leaves every file unchanged |
| Store.AddThenGet | src/index.ts:78-89 | after a successful `add`, `get` returns the old records followed by the new object, which is the record when its keys are distinct |
| Store.AddToEmpty | src/index.ts:81-83 | over an empty file, `add` writes `[record]` and calls back with 200 |
| Store.AddToArray | src/index.ts:84-89 | over an array, `add` pushes the record last and does not call back |
| Store.CallbackOnlyOnEmpty | src/index.ts:78-89 | the callback runs exactly when the record conforms and the file was empty; it is skipped exactly when the file held an array |
| Store.AddTouchesOnlyItsFile | src/index.ts:78-89 | `add` changes no other file |
| SrcIndex.SpliceStart | src/index.ts:122 | the splice position is within the array; a negative index counts from the end and stops at 0; a large index stops at the length |
| SrcIndex.RemoveItem | src/index.ts:121-124 | `removeItem` drops the element at the splice position and keeps the others in order; from the end on, it changes nothing |
| SrcIndex.RemoveItemAt | src/index.ts:121-124 | for an index inside the array, exactly that element goes: the result plus it is the original multiset |
| SrcIndex.RemoveItemPastEnd | src/index.ts:121-124 | an index at or past the end removes nothing |
| SrcIndex.RemoveItemFromEnd | src/index.ts:121-124 | a negative index counts from the end, and one too far back removes the first element |
| SrcIndex.DeleteEffect | src/index.ts:56-62 | with the stringified write, `delete` succeeds exactly when `get` would; a failure changes no file; on success the file becomes the spliced array, which holds no record it did not hold before, and no other file changes |
| SrcIndex.DeletePastEndUnchanged | src/index.ts:56-62 | with the stringified write, `delete` at or past the end of the array succeeds and leaves every file as it was |
| SrcIndex.DeleteDBEffect | src/index.ts:52-54 | `deleteDB` succeeds exactly when the file exists; a success removes only that file, a failure changes nothing, and either way there is no file at the path afterwards |
| SrcIndex.DeleteAsWrittenEffect | src/index.ts:56-62 | `delete` as written always fails and changes no file, because the unstringified array cannot be written |
| SrcIndex.DeleteAsWrittenKeepsRecords | src/index.ts:61 | as written, `delete(i)` inside the array fails with a write error and `get` still returns the unchanged array, unlike the stringified write |
| SrcIndex.Database.constructor | src/index.ts:29-37 | a new store gets an empty file but an empty `fileName`; an existing one gets its path and no file change |
| SrcIndex.Database.Create | src/index.ts:39-46 | `create` empties or makes the file and records its path |
| SrcIndex.Database.Get | src/index.ts:48-50 | `get` returns what `ReadStore` gives for the current file |
| SrcIndex.Database.DeleteDB | src/index.ts:52-54 | `deleteDB` removes the file, or fails when there is none |
| SrcIndex.Database.Delete | src/index.ts:56-62 | `delete` reads the array, splices it and writes it back, stringified as `add` writes; it fails, changing nothing, when the file is missing or empty |
| SrcIndex.Database.Add | src/index.ts:64-91 | `add` has exactly the result and file effect of `AddEffect` |
| SrcIndex.DeleteThenGet | src/index.ts:56-62 | with the stringified write, after `delete(i)` for an index inside the array, `get` returns the array without element `i`, the rest in order |
| SrcIndex.AddThenDeleteLast | src/index.ts:56-91 | with the stringified write, deleting the position just appended restores the records the file held |
| SrcIndex.DestroyedStoreFails | src/index.ts:52-62 | after `deleteDB`, `get`, `add`, `delete` and `deleteDB` all fail and change nothing |
| SrcIndex.PersonConforms | src/index.ts:68-75 | a person whose name is of kind string passes `{name: string(), age: number()}` and is stored as given |
| SrcIndex.ExampleSession | src/index.ts:64-91 | on an empty file, two conforming `add`s give `[a]` with status 200, then `[a, b]` with no callback, and `delete(0)`, with the stringified write, leaves `[b]` |
| SrcIndex.DeleteFirstOfTwo | src/index.ts:56-62 | with the stringified write, `delete(0)` on a two-element array leaves the second element |
| SrcIndex.ExampleSessionWithPeople | src/index.ts:64-91 | the session with Ann, 30 and Bo, 41 ends, with the stringified write in `delete`, with the file holding only Bo |
| SrcIndex.NewStoreRejectsAdd | src/index.ts:29-33 | a store made with `isNew` fails to read on the first `add`, even of a conforming record, and its new file stays empty |
| BackupIndex.Database.constructor | backup/index.ts:29-36 | both branches leave `fileName` as the store's path; a new store gets an empty file |
| BackupIndex.Database.Create | backup/index.ts:38-45 | `create` empties or makes the file and records its path |
| BackupIndex.Database.Get | backup/index.ts:47-49 | `get` returns what `ReadStore` gives for the current file |
| BackupIndex.Database.Add | backup/index.ts:51-76 | `add` has exactly the result and file effect of `AddEffect` |
| BackupIndex.NewStoreAcceptsAdd | backup/index.ts:29-31 | a store made with `isNew` takes a conforming first record: status 200, and the file holds just that object |

## Left out

- The file system is a map from paths to contents, passed to the
  constructor. `path.join(__dirname, "db_")` is the constant prefix "db_".
  The asynchronous `readFile`, `createWriteStream` and the `Deno` calls
  become synchronous reads, writes and removals. Interleavings of
  concurrent `add`s are not modelled.
- JSON text is not modelled. A file is either empty or a parsed array of
  records, so text that fails to parse exists only as the empty file.
  Field values are stored exactly as given, so `Store.AddThenGet`'s "the
  new object is the record" holds only for values that survive
  `JSON.stringify`. An `error(e)` field does not: its `message` is not
  enumerable, so it reads back as `{}`, which `type` tags as date.
- Records and schemas are sequences in the order `Object.keys` and
  `Object.values` list their properties. JavaScript lists integer-like
  keys first, in ascending order, and that reordering is not modelled:
  the positional check compares values in the sequence's order.
- Numbers are integers. NaN, fractions, booleans, `null` and `undefined`
  are not values of the model. `type(null)` would throw on `null.message`.
- Text length is counted in Dafny characters, where JavaScript counts
  UTF-16 code units.
- NumericText.IsNumericText: decides only whether `isNaN` is false, not
  which number the text denotes.
- SrcIndex.DeleteAsWrittenEffect: the runtime's refusal of the
  unstringified array (src/index.ts:61) is modelled as a write failure.
  Under Node, `Deno` is undefined and the call already fails at the read
  (src/index.ts:57). That is also a failure with no file change, but the
  model does not tell the two apart.
- SrcIndex.Database.DeleteDB: `Deno.remove` is modelled as removing the
  file. The source imports the Node file system, but not `Deno`.
- Messages of errors and their formatting (`DatabaseError: ...`) are left
  out. A failure is a `DbError` value, and the schema mismatch carries the
  offending value.
- The callback's `error` argument is always `null` when it is called, so
  the model returns only the status code.
- Fields.DateField: the Date getters read local time from the environment.
  They are inputs to the model (`JsDate`), not computed.

## Findings

| source | as written | input that shows it | evidently intended | confidence | as-written member | corrected member |
|---|---|---|---|---|---|---|
| src/index.ts:61 | the spliced array is written unstringified, where `add` writes `JSON.stringify` text (src/index.ts:82, :88) | `delete(0)` on a file holding `[a, b]` | write `JSON.stringify(data)` as `add` does | not executed | SrcIndex.DeleteAsWrittenKeepsRecords | SrcIndex.Database.Delete |
| src/index.ts:32 | after `create` sets the path, the constructor overwrites `fileName` with "" | `new Database("x", true)`, then `add` of a conforming record | keep the path `create` set, as backup/index.ts:29-31 does | not executed | SrcIndex.NewStoreRejectsAdd | BackupIndex.NewStoreAcceptsAdd |
