# Mekano core: atom factory and document parsers

This project models two parts of Mekano, a small Python toolkit for text
retrieval experiments, and proves properties of the model.

- **The atom factory** (`mekano/AtomFactory.py`). It numbers hashable
  objects 1, 2, 3, … in the order it first sees them. Internally it is a
  bimap: a dictionary from object to atom and a list from atom to object.
  Once locked, it refuses to hand out new atoms. `remove` builds a new
  factory without some objects, renumbered in order. `convertAtom` and
  `convertAtomVector` translate atoms, and vectors keyed by atoms, from one
  factory to another.
- **The line-driven document parsers** (`mekano/IO.py`). A state machine
  passes every input line to the handler of its current state. The
  handler's result names the next state, keeps the current one (`None`),
  or stops the parse (`False`). After the loop, `onFinish` runs once with
  the last line. `TrecParser` reads `<DOCNO>`/`<TEXT>` documents and hands
  each one to a callback as (docid, text). `SMARTParser` reads `.I`/`.C`/`.X`
  documents and hands each one that kept some text over as (docid, cats,
  text). It can keep only the text of chosen sections, and it flushes the
  last document at the end of the input.

Files:

- `wrappers.dfy`: `Option` and `Result`.
- `strings.dfy`: the Python string operations the parsers use:
  `startswith`, `find`, slicing with negative bounds, `strip` and `"".join`.
- `atoms.dfy`: the `AtomFactory` class, its bimap invariant, `remove`'s
  renumbering, and the two conversion functions.
- `engine.dfy`: the dispatch loop of `StateMachineFileParser.parse`, as a
  pure function over any step function. It comes with lemmas about
  stopping, skipped lines and invariants.
- `trec.dfy`, `smart.dfy`: each parser's handlers, twice over:
  - as pure step functions;
  - as a class whose fields the handler methods update. Each method is
    proved equal to its step function, and each `Parse` loop is proved
    equal to the pure run.

The two parsers are modelled the same way:

- The callback is a total function. For TREC, its boolean result says
  whether the Python callback returned exactly `False`. SMART ignores the
  result.
- Every callback invocation is logged in the field `emitted`, so contracts
  can say what the callback received.
- The input file is a sequence of lines.

## Model

| member | source | states |
|---|---|---|
| Atoms.AtomFactory.constructor | mekano/AtomFactory.py:26-31 | a new factory is an empty, unlocked bimap with the given name |
| Atoms.AtomFactory.Get | mekano/AtomFactory.py:36-45 | `af[obj]`: a held object returns its atom and nothing changes; an unseen object in a locked factory is a `KeyError` and nothing changes; otherwise the object gets atom `len + 1` and is appended to both directions of the bimap; the bimap invariant is kept and any returned atom names `obj` |
| Atoms.AtomFactory.GetObject | mekano/AtomFactory.py:47-51 | `get_object(a)` / `af(a)`: for `1 <= a <= len` the object whose atom is `a` (the inverse of `Get`); atoms from `-len + 1` to `0` count from the end, as Python's negative indices do; any other atom, `0` on an empty factory included, is an `IndexError` |
| Atoms.AtomFactory.Len | mekano/AtomFactory.py:53-54 | the length of the atom list equals the number of distinct objects held |
| Atoms.AtomFactory.Contains | mekano/AtomFactory.py:56-57 | membership in the object-to-atom dictionary coincides with membership in the atom list |
| Atoms.AtomFactory.Lock | mekano/AtomFactory.py:59-63 | sets `locked`, keeps the bimap invariant and changes nothing else |
| Atoms.AtomFactory.Remove | mekano/AtomFactory.py:65-73 | returns a fresh, unlocked, valid factory with the same name whose atom list is the old one with the removed objects dropped, order kept |
| Atoms.LookupTwice | mekano/AtomFactory.py:36-51 | repeating a lookup gives the same answer and grows the factory at most once, and `get_object` of the atom gives the object back |
| Atoms.AtomNamesPosition | mekano/AtomFactory.py:28-30 | in a bimap every object sits at the list position its atom names |
| Atoms.IsBimap | mekano/AtomFactory.py:28-30 | the definition of the bimap invariant: the atom list has no repeats, holds every object of the dictionary, and the object at position `i` has atom `i + 1` |
| Atoms.AtomFactory.Valid | mekano/AtomFactory.py:28-30 | the definition of the factory invariant: its dictionary and atom list form a bimap |
| Atoms.AtomsDistinct | mekano/AtomFactory.py:36-45 | distinct objects get distinct atoms |
| Atoms.BimapDeterminedBySequence | mekano/AtomFactory.py:28-30 | the dictionary is determined by the list |
| Atoms.InsertKeepsBimap | mekano/AtomFactory.py:42-44 | appending an unseen object with atom `len + 1` keeps the bimap invariant |
| Atoms.DistinctElementCount | mekano/AtomFactory.py:53-54 | a list without repeats has as many distinct elements as entries |
| Atoms.BimapSize | mekano/AtomFactory.py:53-54 | both directions of a bimap have the same size |
| Atoms.FilterMembers | mekano/AtomFactory.py:68-72 | an object survives `remove` iff it was held and not removed |
| Atoms.FilterDistinct | mekano/AtomFactory.py:68-72 | what survives `remove` still has no repeats |
| Atoms.FilterNothing | mekano/AtomFactory.py:68-72 | removing objects the factory does not hold keeps every object in place |
| Atoms.FilterAppend | mekano/AtomFactory.py:70-72 | filtering a list piece by piece is filtering the whole list |
| Atoms.FilterSnoc | mekano/AtomFactory.py:70-72 | appending an object to the list appends it to what survives iff it is not removed |
| Atoms.Filter | mekano/AtomFactory.py:70-72 | the definition of the objects that survive `remove`: those not removed, in list order |
| Atoms.RemoveRenumbers | mekano/AtomFactory.py:65-73 | after `remove`, a kept object's new atom is one more than the number of kept objects before it |
| Atoms.FilterExample | mekano/AtomFactory.py:65-73 | removing `x` from `a, x, b`, for any `a` and `b` other than `x`, keeps `a, b` in order |
| Atoms.RemoveExampleBimap | mekano/AtomFactory.py:65-73 | a bimap over `a, b` numbers them 1 and 2 |
| Atoms.ThreeTokens | mekano/AtomFactory.py:36-45 | looking up `a`, `x`, `b` in a new factory gives atoms 1, 2, 3 and the atom list `a, x, b` |
| Atoms.RemoveExample | mekano/AtomFactory.py:65-73 | `a, x, b` get atoms 1, 2, 3; after removing `x`, `a` and `b` get 1 and 2 and the size is 2, while the original factory still lists `a, x, b` |
| Atoms.DocumentedExample | mekano/AtomFactory.py:14-21 | the class documentation's example: apples get atom 1, oranges atom 2, and atom 1 names apples |
| Atoms.IndexExample | mekano/AtomFactory.py:47-48 | with two objects, atom 0 names the last one and atom 3 is an `IndexError` |
| Atoms.LockedExample | mekano/AtomFactory.py:36-45 | after `lock()` a held object is still found and an unseen one is a `KeyError` |
| Atoms.ConvertAtom | mekano/AtomFactory.py:95-99 | the result is an atom iff the object named in the source factory is held by the target, and then it is the target's atom for that same object; otherwise it is `IllegalOperation`, or the `IndexError` of `get_object` passed through; the target never grows |
| Atoms.ConvertToSelf | mekano/AtomFactory.py:95-99 | converting from a factory to itself is the identity on its atoms |
| Atoms.ConvertAtomVector | mekano/AtomFactory.py:101-109 | every entry whose object the target holds appears re-keyed by the target's atom with its value; every entry of the result comes from such an entry; the other entries are dropped |
| Atoms.StepConversion | mekano/AtomFactory.py:103-106 | converting one more entry keeps both halves of the conversion loop's invariant, because distinct source atoms convert to distinct target atoms |
| Strings.StartsWith | mekano/IO.py:104 | the definition of `str.startswith` |
| Strings.Find | mekano/IO.py:105 | `find` answers either -1 or an index at or after `start` that holds the character |
| Strings.FindFirst | mekano/IO.py:105 | `find` answers -1 exactly when the character does not occur at or after `start`, and otherwise its first occurrence |
| Strings.SliceBound | mekano/IO.py:106 | a slice bound is clamped into the string |
| Strings.Slice | mekano/IO.py:106 | `s[i:j]` is the plain subsequence for bounds inside the string, counts a negative end from the back, and is empty when the bounds cross, also once negative bounds are counted from the back and both are clamped to the string |
| Strings.TrimStart | mekano/IO.py:106 | the left half of `strip()`: no leading whitespace remains |
| Strings.TrimEnd | mekano/IO.py:106 | the right half of `strip()`: a prefix of the input without trailing whitespace |
| Strings.Strip | mekano/IO.py:106 | `strip()`: no whitespace at either end, and never longer than the input |
| Strings.TrimStartDrops | mekano/IO.py:106 | `lstrip()` keeps a suffix of the input and everything it removes is whitespace |
| Strings.TrimEndDrops | mekano/IO.py:106 | `rstrip()` keeps a prefix of the input and everything it removes is whitespace |
| Strings.StripDrops | mekano/IO.py:106 | `strip()` keeps a slice of the input and removes only whitespace on either side of it |
| Strings.ConcatOne | mekano/IO.py:118 | `"".join` of a single string is that string |
| Strings.Concat | mekano/IO.py:118 | the definition of `"".join`, joining left to right |
| Engine.Drive | mekano/IO.py:70-77 | the loop over the lines: hands at least one more line whenever one is left, never hands more lines than there are, and hands all of them unless a handler returned `False` |
| Engine.Run | mekano/IO.py:67-78 | `parse()`: the loop, then `onFinish` with the last line handled; with no lines at all the last line is unbound and the call fails |
| Engine.StopIgnoresLaterLines | mekano/IO.py:74-75 | once a handler returned `False`, lines appended to the input change nothing |
| Engine.RunStopIgnoresLaterLines | mekano/IO.py:71-78 | the same for the whole parse, `onFinish` included |
| Engine.NeverStopsHandlesAll | mekano/IO.py:71-77 | when no handler ever returns `False`, every line is handed to a handler |
| Engine.Next | mekano/IO.py:76-77 | the definition of the state after a handler: the new state it returned, or the old one |
| Engine.SkipIgnoredLines | mekano/IO.py:76-77 | lines on which a handler changes nothing and returns `None` can be skipped |
| Engine.DriveKeeps | mekano/IO.py:71-77 | an invariant every handler keeps holds wherever the loop ends |
| Trec.DocId | mekano/IO.py:105-106 | the definition of the docid: `line[7:p].strip()` with `p` the `find` of `<` from index 7 |
| Trec.MiscStep | mekano/IO.py:102-108 | the definition of `onMisc` on the record state |
| Trec.GotDocIdStep | mekano/IO.py:110-113 | the definition of `onGotDocId` |
| Trec.TextStep | mekano/IO.py:115-123 | the definition of `onText` on the record state |
| Trec.Finish | mekano/IO.py:80-81 | the definition of the inherited `onFinish`, which keeps the record state |
| Trec.Parsed | mekano/IO.py:67-78 | the definition of `parse()` for TREC: the loop from `Misc` with the TREC handlers, then `onFinish` |
| Trec.Step | mekano/IO.py:102-123 | the TREC handler table: only a `</TEXT>` line in `Text` whose callback returned `False` stops the parse, and only a `</TEXT>` line in `Text` invokes the callback, with the docid and the joined text lines |
| Trec.DocnoLine | mekano/IO.py:102-108 | a `<DOCNO>` line sets the docid, clears the text and moves to `GotDocId` |
| Trec.DocIdClosed | mekano/IO.py:105-106 | the docid is the stripped text between the tag and the first `<` after it |
| Trec.DocIdUnclosed | mekano/IO.py:105-106 | without a `<` after the tag, `find` gives -1 and the docid is the rest of the line minus its last character, stripped |
| Trec.TextCollects | mekano/IO.py:115-123 | inside the text, every line before `</TEXT>` is appended to the text buffer, in order |
| Trec.SkipToDocno | mekano/IO.py:102-108 | while waiting for a document, lines not starting with `<DOCNO>` are ignored |
| Trec.SkipToText | mekano/IO.py:110-113 | while waiting for the text, lines not starting with `<TEXT>` are ignored |
| Trec.DocnoTurn | mekano/IO.py:102-108 | one `<DOCNO>` line in `Misc` moves to `GotDocId` with the docid set and the text cleared |
| Trec.TextOpenTurn | mekano/IO.py:110-113 | one `<TEXT>` line in `GotDocId` moves to `Text` |
| Trec.TextLineTurn | mekano/IO.py:122-123 | one text line in `Text` is appended to the buffer |
| Trec.TextCloseTurn | mekano/IO.py:117-121 | one `</TEXT>` line invokes the callback with the joined text, then stops if it returned `False` or goes back to `Misc` |
| Trec.DocumentHead | mekano/IO.py:102-113 | a `<DOCNO>` line, ignored lines, then `<TEXT>`: the parse continues in `Text` with the docid set and the text empty |
| Trec.DocumentBody | mekano/IO.py:115-123 | text lines up to `</TEXT>`: the callback receives the docid and exactly those lines joined; then the parse stops if it returned `False` and otherwise continues in `Misc` |
| Trec.OneDocument | mekano/IO.py:102-123 | one whole document: the callback receives the `<DOCNO>` id and exactly the lines strictly between `<TEXT>` and `</TEXT>`, joined; then the parse stops if the callback returned `False` and otherwise continues in `Misc` |
| Trec.ExampleDocId | mekano/IO.py:105-106 | `<DOCNO> D1 </DOCNO>` yields docid `D1` |
| Trec.ExampleText | mekano/IO.py:118 | the example's two text lines join to `hello\nworld\n` |
| Trec.ExampleLoop | mekano/IO.py:102-123 | the loop over the five example lines ends with docid `D1`, text `hello\nworld\n` and one record, and has stopped iff the callback returned `False` |
| Trec.ExampleDocument | mekano/IO.py:84-123 | a five-line document yields exactly one call with ("D1", "hello\nworld\n"), whatever the callback returns |
| Trec.StopOnFirstRecord | mekano/IO.py:91-93 | a callback returning `False` on the first document ends the parse: no input after it produces another record |
| Trec.RecordsHaveDocIds | mekano/IO.py:102-123 | every record of a parse from a fresh parser carries a docid |
| Trec.TrecParser.constructor | mekano/IO.py:96-100 | a new parser has no docid, no text and has made no callback |
| Trec.TrecParser.OnMisc | mekano/IO.py:102-108 | `onMisc` updates the fields and returns the transition exactly as the pure `Misc` step does |
| Trec.TrecParser.OnGotDocId | mekano/IO.py:110-113 | `onGotDocId` returns the pure `GotDocId` step's transition |
| Trec.TrecParser.OnText | mekano/IO.py:115-123 | `onText` updates the fields, calls the callback and returns the transition exactly as the pure `Text` step does |
| Trec.TrecParser.Dispatch | mekano/IO.py:72-73 | the handler of the current state, equal to the pure step |
| Trec.TrecParser.OnFinish | mekano/IO.py:80-81 | the inherited `onFinish` changes nothing |
| Trec.TrecParser.Parse | mekano/IO.py:67-78 | `parse()` fails exactly on an empty input and otherwise leaves the fields exactly as the pure run computes |
| Smart.CatsLabels | mekano/IO.py:163-166 | every label found by `([^ ]+) 1` is non-empty and contains no space |
| Smart.CatsFound | mekano/IO.py:165 | a run of non-space characters followed by ` 1` is a label, and the search resumes after the `1` |
| Smart.CatsSkipSpace | mekano/IO.py:165 | no match starts at a space |
| Smart.CatsNone | mekano/IO.py:165 | a line with no space left yields no label |
| Smart.CatsNoMatch | mekano/IO.py:165 | a run of non-space characters not followed by ` 1` holds no match, and the search goes on after it |
| Smart.CatsMatchPattern | mekano/IO.py:165 | every label is the group of a match of `([^ ]+) 1` in the line: it occurs in the line and is followed by ` 1` |
| Smart.CatsMatchAt | mekano/IO.py:165 | the same for the labels of a line in which a match starts at `p` |
| Smart.Cats | mekano/IO.py:165 | the definition of the labels found by `([^ ]+) 1` |
| Smart.Allowed | mekano/IO.py:182 | the definition of the section filter: no list, or the header is in it |
| Smart.MiscStep | mekano/IO.py:149-156 | the definition of `onMisc` on the record state |
| Smart.GotDocIdStep | mekano/IO.py:158-161 | the definition of `onGotDocId` |
| Smart.SawDotCStep | mekano/IO.py:163-166 | the definition of `onSawDotC` |
| Smart.SectionHeaderStep | mekano/IO.py:168-171 | the definition of `onSectionHeader` |
| Smart.SectionTextStep | mekano/IO.py:173-185 | the definition of `onSectionText`, with the flush and the `onMisc` re-dispatch |
| Smart.Finish | mekano/IO.py:187-188 | the definition of `onFinish`: the document still open is flushed |
| Smart.Parsed | mekano/IO.py:67-78 | the definition of `parse()` for SMART: the loop from `Misc` with the SMART handlers, then `onFinish` |
| Smart.NextHeader | mekano/IO.py:179-180 | the definition of the section header after one line: a dot-line names a new section by its second character |
| Smart.HeaderAfter | mekano/IO.py:179-180 | the definition of the section header after a run of lines |
| Smart.KeptLine | mekano/IO.py:182-185 | the definition of what one line keeps: itself if it has no leading dot and its section is allowed |
| Smart.Kept | mekano/IO.py:182-185 | the definition of the text a run of lines keeps, section by section |
| Smart.Flush | mekano/IO.py:190-192 | `doCallBack`: the callback is invoked with (docid, cats, joined text) iff some text was kept, and nothing else changes |
| Smart.Step | mekano/IO.py:149-185 | the SMART handler table never stops the parse, and invokes the callback only on a `.I` line in `SectionText` after a document that kept some text |
| Smart.HandlesEveryLine | mekano/IO.py:190-192 | since the callback's result is ignored, every line is handed to a handler |
| Smart.DotIRestarts | mekano/IO.py:175-178 | in a section, `.I` flushes the document and is then handled by `onMisc` itself, moving to `GotDocId` |
| Smart.DotIEndsDocument | mekano/IO.py:175-178 | in a section, the rest of the parse from a `.I` line is that of `Misc` after the flush |
| Smart.DotLineSwitchesSection | mekano/IO.py:179-180 | in a section, any other dot-line sets the new section header at once and the state stays `SectionText` |
| Smart.TextLineKept | mekano/IO.py:182-185 | in an allowed section a line without a leading dot is appended to the text |
| Smart.TextLineDropped | mekano/IO.py:182-183 | in a section not in the list such a line changes nothing |
| Smart.FilteredSectionDropped | mekano/IO.py:182-183 | text lines of a section not in the allowed list change nothing |
| Smart.AllowedSectionKept | mekano/IO.py:182-185 | text lines of an allowed section are appended to the buffer, in order |
| Smart.KeptLines | mekano/IO.py:182-185 | every kept line is a line of the run and has no leading dot |
| Smart.KeptAll | mekano/IO.py:182-185 | with no section list, every line without a leading dot is kept |
| Smart.SectionTurn | mekano/IO.py:173-185 | one line of a section other than `.I` appends what it keeps and moves to the header it leaves in force, staying in `SectionText` |
| Smart.SectionRun | mekano/IO.py:173-185 | up to the next `.I`, a document's sections keep exactly the text of the allowed sections, switching section at every dot-line |
| Smart.KeptStep | mekano/IO.py:182-185 | keeping a run line by line is keeping it whole |
| Smart.SmartDocument | mekano/IO.py:149-185 | one whole document, from `.I` through `.C`, the categories line, the first header and its sections: the parse holds the stripped docid, the categories, exactly the kept text and the header in force, and the records already handed over |
| Smart.SmartDocumentRecord | mekano/IO.py:173-192 | when the next `.I` line ends the document, the callback receives (docid, categories, joined kept text) iff some text was kept, and the parse goes on in `Misc` from that line |
| Smart.SmartLastDocument | mekano/IO.py:187-192 | when the document runs to the end of the input, `onFinish` hands it over as (docid, categories, joined kept text) iff some text was kept, and that is the whole parse |
| Smart.DocumentOpens | mekano/IO.py:149-166 | `.I`, `.C` and a categories line set the stripped docid and the categories, clear the text and header, and move to `SectionHeader`; the records already handed over are kept |
| Smart.DocumentOpensAfter | mekano/IO.py:149-166 | the same opening when other lines stand between `.I` and `.C`: they are ignored |
| Smart.SkipToDotI | mekano/IO.py:149-156 | while waiting for a document, lines not starting with `.I` change nothing and keep the state |
| Smart.SkipToDotC | mekano/IO.py:158-161 | while waiting for the categories, lines not starting with `.C` change nothing and keep the state |
| Smart.SectionOpens | mekano/IO.py:168-171 | a header line names the section by its second character and moves to `SectionText` |
| Smart.StepKeepsComplete | mekano/IO.py:149-185 | every handler keeps the invariant: a docid is set outside `Misc`, categories from the header on, text only inside a section, and every record handed over carries both |
| Smart.RecordsComplete | mekano/IO.py:149-192 | every record of a parse from a fresh parser, the one flushed at the end included, carries a docid and categories |
| Smart.ExampleDocIds | mekano/IO.py:152 | its docids are `1` and `2` |
| Smart.ExampleCats | mekano/IO.py:165 | the categories line `a 1 b 1` yields `a`, `b` |
| Smart.ExampleNoCats | mekano/IO.py:165 | an empty categories line yields no label |
| Smart.ExampleOpening | mekano/IO.py:149-166 | the first three lines open document `1` with categories `a`, `b` |
| Smart.ExampleSectionW | mekano/IO.py:168-171 | the `.W` line opens section `W` of document `1` |
| Smart.ExampleFirstLine | mekano/IO.py:182-185 | since `W` is allowed, its text line is kept |
| Smart.ExampleFirstSection | mekano/IO.py:168-185 | with only `W` allowed, the `W` section of document `1` keeps its text line |
| Smart.ExampleRestart | mekano/IO.py:173-192 | `.I 2` hands document `1` over and opens document `2` with no categories |
| Smart.ExampleSecondSection | mekano/IO.py:168-183 | the `T` section of document `2` is filtered out and the input ends |
| Smart.ExampleDocuments | mekano/IO.py:125-192 | the whole two-document parse calls the callback exactly once, with ("1", ["a", "b"], "hi\n"); `onFinish` adds nothing, since the second document kept no text |
| Smart.LastExampleCats | mekano/IO.py:165 | the categories line `x 1` yields `x` |
| Smart.UnmatchedRunExample | mekano/IO.py:165 | `a b 1` yields only `b` |
| Smart.LastDocumentOpens | mekano/IO.py:149-171 | the single-document example opens document `7` with categories `x` and section `T` |
| Smart.LastDocumentText | mekano/IO.py:182-185 | with no section list, its text line is kept and the input ends |
| Smart.LastDocumentFlushed | mekano/IO.py:187-192 | with all sections allowed, the last document is handed over by `onFinish` as ("7", ["x"], "z\n") |
| Smart.SmartParser.constructor | mekano/IO.py:139-147 | a new parser has no docid, categories, text or header, and keeps the section list |
| Smart.SmartParser.OnMisc | mekano/IO.py:149-156 | `onMisc` equals the pure `Misc` step |
| Smart.SmartParser.OnGotDocId | mekano/IO.py:158-161 | `onGotDocId` equals the pure `GotDocId` step |
| Smart.SmartParser.OnSawDotC | mekano/IO.py:163-166 | `onSawDotC` equals the pure categories step |
| Smart.SmartParser.OnSectionHeader | mekano/IO.py:168-171 | `onSectionHeader` equals the pure header step |
| Smart.SmartParser.OnSectionText | mekano/IO.py:173-185 | `onSectionText` equals the pure section step, flush and re-dispatch included |
| Smart.SmartParser.OnFinish | mekano/IO.py:187-188 | `onFinish` flushes the open document |
| Smart.SmartParser.DoCallBack | mekano/IO.py:190-192 | `doCallBack` equals `Flush`: one callback invocation iff text was kept |
| Smart.SmartParser.Dispatch | mekano/IO.py:72-73 | the handler of the current state, equal to the pure step |
| Smart.SmartParser.Parse | mekano/IO.py:67-78 | `parse()` fails exactly on an empty input and otherwise leaves the fields exactly as the pure run computes, the final flush included |

Rows that read "the definition of" name the pure functions that render the
cited code. They carry no contract of their own; the other rows state what
they compute.

## Left out

- Saving and loading the atom factory (`save`, `savetxt`, `fromfile`) is not modelled. It is file I/O.
- The generic pickle helpers of `mekano/IO.py` (`loadpickleitems`, `dump`, `load`) are not modelled. They are file I/O.
- `__repr__` of the factory is not modelled. It only formats a diagnostic string.
- The factory's `name` is carried along but nothing is proved about it beyond being copied.
- Reading lines from a file object is not modelled. The input is a sequence of lines.
- Handler lookup by reflection (`__introspect`, `dir`, `getattr`) is replaced by a total `match` on the state. The `KeyError` of an unknown state name cannot occur in the model.
- Regular expressions in general are not modelled. Only the one pattern `([^ ]+) 1` is, by a hand-written scan.
- `AtomVector` is modelled as a finite map from atom to value. Its other operations belong to another module.
- Atoms.ConvertAtomVector: requires every key of the vector to be an atom of the source factory (1 to its size). A key from `-len + 1` to `0`, which Python wraps around, or any other key outside 1..len, whose `IndexError` escapes the loop, is not modelled. The keys are visited in ascending order rather than in dictionary order; the result does not depend on the order.
- Strings.Strip: its own contract only says that no whitespace is left at either end; `StripDrops` states that only whitespace was removed. Whitespace means the six characters Python 2's byte strings strip (space, tab, newline, carriage return, vertical tab, form feed); other Unicode whitespace is not modelled.
- Smart.Cats: has no contract of its own. Its body is the reference for the matches of `([^ ]+) 1`. `CatsFound`, `CatsNoMatch`, `CatsSkipSpace` and `CatsNone` together fix its value at every position, and `CatsLabels` and `CatsMatchPattern` state what a label is.
- The callback's side effects, and any exception it raises, are not modelled. Only its arguments are recorded, and for TREC also whether it returned `False`.

Behaviour of the code that the model follows on purpose, although a reader might expect otherwise:

- `parse` calls `onFinish(line)` even after a handler returned `False` (`mekano/IO.py:74-78`).
- On an empty input, `line` is never bound, so `onFinish(line)` fails. The model returns `LineUnbound` instead of calling the hook with an empty value.
- `SMARTParser.doCallBack` ignores the callback's result, so a SMART parse is never stopped by the callback (`mekano/IO.py:190-192`).
- In `SectionText`, a dot-line other than `.I` is read as the new section header at once, and the state stays `SectionText` (`mekano/IO.py:179-180`).
- `get_object` with an atom from `-len + 1` to `0` returns an object counted from the end of the list, not an `IndexError`; only atoms of `-len` and below, or above `len`, are an `IndexError` (`mekano/AtomFactory.py:47-51`).
- `convertAtom` checks membership before looking up, so it never inserts into the target factory (`mekano/AtomFactory.py:96-99`).
