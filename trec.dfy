/** The TREC parser: documents of the form `<DOCNO> id </DOCNO>` ...
    `<TEXT>` lines `</TEXT>`, each handed to a callback as (docid, text). */
module Trec {
  import opened Wrappers
  import opened Strings
  import opened Engine

  datatype State = Misc | GotDocId | Text

  /** One invocation of the callback: its two arguments. */
  datatype Record = Record(docid: Option<string>, text: string)

  /** The parser's record state, plus the log of callback invocations. */
  datatype Fields = Fields(docid: Option<string>, textlines: seq<string>, emitted: seq<Record>)

  /** The callback, reduced to what the parser observes of it: whether it
      returned exactly `False`. */
  type Callback = (Option<string>, string) -> bool

  /** The docid of a `<DOCNO>` line: from index 7 up to the first `<` at or
      after it, stripped. With no such `<` the index is -1, and the slice
      ends one before the end of the line. */
  function DocId(line: string): string
  {
    Strip(Slice(line, 7, Find(line, '<', 7)))
  }

  /** `onMisc`: waiting for a new document to start. */
  function MiscStep(f: Fields, line: string): (Fields, Transition<State>)
  {
    if StartsWith(line, "<DOCNO>") then (f.(docid := Some(DocId(line)), textlines := []), Goto(GotDocId))
    else (f, Stay)
  }

  /** `onGotDocId`: waiting for the text to start. */
  function GotDocIdStep(line: string): Transition<State>
  {
    if StartsWith(line, "<TEXT>") then Goto(Text) else Stay
  }

  /** `onText`: collecting text lines until `</TEXT>`, which hands the
      record to the callback. */
  function TextStep(callback: Callback, f: Fields, line: string): (Fields, Transition<State>)
  {
    if StartsWith(line, "</TEXT>") then
      var text := Concat(f.textlines);
      var f' := f.(emitted := f.emitted + [Record(f.docid, text)]);
      if callback(f.docid, text) then (f', Stop) else (f', Goto(Misc))
    else (f.(textlines := f.textlines + [line]), Stay)
  }

  /** The handler table: every state has its handler. */
  function Step(callback: Callback, f: Fields, s: State, line: string): (r: (Fields, Transition<State>))
    ensures r.1.Stop? ==> s == Text && StartsWith(line, "</TEXT>") && callback(f.docid, Concat(f.textlines))
    ensures r.0.emitted == f.emitted
         || (s == Text && StartsWith(line, "</TEXT>") && r.0.emitted == f.emitted + [Record(f.docid, Concat(f.textlines))])
  {
    match s
    case Misc => MiscStep(f, line)
    case GotDocId => (f, GotDocIdStep(line))
    case Text => TextStep(callback, f, line)
  }

  function StepFn(callback: Callback): (Fields, State, string) -> (Fields, Transition<State>)
  {
    (f: Fields, s: State, line: string) => Step(callback, f, s, line)
  }

  /** The inherited `onFinish`, which does nothing. */
  function Finish(f: Fields, line: string): Fields
  {
    f
  }

  /** What `parse()` computes, starting in `Misc` with record state `f`. */
  function Parsed(callback: Callback, f: Fields, lines: seq<string>): Outcome<Fields>
  {
    Run(StepFn(callback), Finish, f, Misc, lines)
  }

  /** A `<DOCNO>` line sets the docid, clears the text and waits for
      `<TEXT>`. */
  lemma DocnoLine(f: Fields, line: string)
    requires StartsWith(line, "<DOCNO>")
    ensures MiscStep(f, line) == (f.(docid := Some(DocId(line)), textlines := []), Goto(GotDocId))
  {
  }

  /** The docid is what lies between the tag and the next `<`, stripped. */
  lemma DocIdClosed(line: string, p: nat)
    requires StartsWith(line, "<DOCNO>")
    requires 7 <= p < |line| && line[p] == '<' && forall k :: 7 <= k < p ==> line[k] != '<'
    ensures DocId(line) == Strip(line[7..p])
  {
    FindFirst(line, '<', 7);
    assert Find(line, '<', 7) == p;
  }

  /** Without a `<` after the tag, `find` gives -1 and the slice cuts off
      the last character of the line. */
  lemma DocIdUnclosed(line: string)
    requires StartsWith(line, "<DOCNO>")
    requires forall k :: 7 <= k < |line| ==> line[k] != '<'
    ensures DocId(line) == Strip(if |line| == 7 then "" else line[7..|line| - 1])
  {
    FindFirst(line, '<', 7);
    assert Slice(line, 7, -1) == if |line| == 7 then "" else line[7..|line| - 1];
  }

  /** Inside a document's text, every line up to `</TEXT>` is appended to
      the text, in order. */
  lemma {:induction false} TextCollects(callback: Callback, f: Fields, lines: seq<string>, i: nat, j: nat)
    requires i <= j <= |lines|
    requires forall k :: i <= k < j ==> !StartsWith(lines[k], "</TEXT>")
    ensures Drive(StepFn(callback), f, Text, lines, i)
         == Drive(StepFn(callback), f.(textlines := f.textlines + lines[i..j]), Text, lines, j)
    decreases j - i
  {
    if i < j {
      var f' := f.(textlines := f.textlines + [lines[i]]);
      TextLineTurn(callback, f, lines, i);
      TextCollects(callback, f', lines, i + 1, j);
      assert f.textlines + [lines[i]] + lines[i + 1..j] == f.textlines + lines[i..j];
    } else {
      assert f.textlines + lines[i..j] == f.textlines;
    }
  }

  /** Lines that do not start a document are ignored while waiting for one. */
  lemma SkipToDocno(callback: Callback, f: Fields, lines: seq<string>, i: nat, j: nat)
    requires i <= j <= |lines|
    requires forall k :: i <= k < j ==> !StartsWith(lines[k], "<DOCNO>")
    ensures Drive(StepFn(callback), f, Misc, lines, i) == Drive(StepFn(callback), f, Misc, lines, j)
  {
    forall n | i <= n < j ensures StepFn(callback)(f, Misc, lines[n]) == (f, Stay) {
      ApplyStep(callback, f, Misc, lines[n]);
    }
    SkipIgnoredLines(StepFn(callback), f, Misc, lines, i, j);
  }

  /** The head of a document: a `<DOCNO>` line at `i`, lines ignored up to
      the `<TEXT>` line at `j`; the docid is set and the text is empty. */
  lemma DocumentHead(callback: Callback, f: Fields, lines: seq<string>, i: nat, j: nat)
    requires i < j < |lines|
    requires StartsWith(lines[i], "<DOCNO>")
    requires forall n :: i < n < j ==> !StartsWith(lines[n], "<TEXT>")
    requires StartsWith(lines[j], "<TEXT>")
    ensures Drive(StepFn(callback), f, Misc, lines, i)
         == Drive(StepFn(callback), f.(docid := Some(DocId(lines[i])), textlines := []), Text, lines, j + 1)
  {
    var f1 := f.(docid := Some(DocId(lines[i])), textlines := []);
    DocnoTurn(callback, f, lines, i);
    SkipToText(callback, f1, lines, i + 1, j);
    TextOpenTurn(callback, f1, lines, j);
  }

  /** The body of a document: text lines from `j` up to the `</TEXT>` line
      at `k`, which hands them over joined. */
  lemma DocumentBody(callback: Callback, f: Fields, lines: seq<string>, j: nat, k: nat)
    requires j <= k < |lines| && f.textlines == []
    requires forall n :: j <= n < k ==> !StartsWith(lines[n], "</TEXT>")
    requires StartsWith(lines[k], "</TEXT>")
    ensures var text := Concat(lines[j..k]);
            var f' := f.(textlines := lines[j..k], emitted := f.emitted + [Record(f.docid, text)]);
            Drive(StepFn(callback), f, Text, lines, j)
              == if callback(f.docid, text) then Halt(f', Text, k + 1, true)
                 else Drive(StepFn(callback), f', Misc, lines, k + 1)
  {
    TextCollects(callback, f, lines, j, k);
    assert [] + lines[j..k] == lines[j..k];
    TextCloseTurn(callback, f.(textlines := lines[j..k]), lines, k);
  }

  /** One whole document: a `<DOCNO>` line at `i`, lines ignored up to the
      `<TEXT>` line at `j`, text lines up to the `</TEXT>` line at `k`. The
      callback receives the docid and the concatenation of exactly the lines
      strictly between `<TEXT>` and `</TEXT>`; if it returns `False` the
      parse stops there, otherwise it goes on in `Misc` after `k`. */
  lemma OneDocument(callback: Callback, f: Fields, lines: seq<string>, i: nat, j: nat, k: nat)
    requires i < j < k < |lines|
    requires StartsWith(lines[i], "<DOCNO>")
    requires forall n :: i < n < j ==> !StartsWith(lines[n], "<TEXT>")
    requires StartsWith(lines[j], "<TEXT>")
    requires forall n :: j < n < k ==> !StartsWith(lines[n], "</TEXT>")
    requires StartsWith(lines[k], "</TEXT>")
    ensures var d := Some(DocId(lines[i]));
            var text := Concat(lines[j + 1..k]);
            var f' := Fields(d, lines[j + 1..k], f.emitted + [Record(d, text)]);
            Drive(StepFn(callback), f, Misc, lines, i)
              == if callback(d, text) then Halt(f', Text, k + 1, true)
                 else Drive(StepFn(callback), f', Misc, lines, k + 1)
  {
    DocumentHead(callback, f, lines, i, j);
    DocumentBody(callback, f.(docid := Some(DocId(lines[i])), textlines := []), lines, j + 1, k);
  }

  lemma ApplyStep(callback: Callback, f: Fields, s: State, line: string)
    ensures StepFn(callback)(f, s, line) == Step(callback, f, s, line)
  {
  }

  lemma DocnoTurn(callback: Callback, f: Fields, lines: seq<string>, i: nat)
    requires i < |lines| && StartsWith(lines[i], "<DOCNO>")
    ensures Drive(StepFn(callback), f, Misc, lines, i)
         == Drive(StepFn(callback), f.(docid := Some(DocId(lines[i])), textlines := []), GotDocId, lines, i + 1)
  {
    var f1 := f.(docid := Some(DocId(lines[i])), textlines := []);
    assert StepFn(callback)(f, Misc, lines[i]) == (f1, Goto(GotDocId)) by {
      ApplyStep(callback, f, Misc, lines[i]);
    }
    DriveTurn(StepFn(callback), f, Misc, lines, i);
  }

  lemma TextOpenTurn(callback: Callback, f: Fields, lines: seq<string>, j: nat)
    requires j < |lines| && StartsWith(lines[j], "<TEXT>")
    ensures Drive(StepFn(callback), f, GotDocId, lines, j) == Drive(StepFn(callback), f, Text, lines, j + 1)
  {
    assert StepFn(callback)(f, GotDocId, lines[j]) == (f, Goto(Text)) by {
      ApplyStep(callback, f, GotDocId, lines[j]);
    }
    DriveTurn(StepFn(callback), f, GotDocId, lines, j);
  }

  lemma TextCloseTurn(callback: Callback, f: Fields, lines: seq<string>, k: nat)
    requires k < |lines| && StartsWith(lines[k], "</TEXT>")
    ensures var text := Concat(f.textlines);
            var f' := f.(emitted := f.emitted + [Record(f.docid, text)]);
            Drive(StepFn(callback), f, Text, lines, k)
              == if callback(f.docid, text) then Halt(f', Text, k + 1, true)
                 else Drive(StepFn(callback), f', Misc, lines, k + 1)
  {
    var text := Concat(f.textlines);
    var f' := f.(emitted := f.emitted + [Record(f.docid, text)]);
    assert StepFn(callback)(f, Text, lines[k]) == (f', if callback(f.docid, text) then Stop else Goto(Misc)) by {
      ApplyStep(callback, f, Text, lines[k]);
    }
    DriveTurn(StepFn(callback), f, Text, lines, k);
  }

  lemma TextLineTurn(callback: Callback, f: Fields, lines: seq<string>, i: nat)
    requires i < |lines| && !StartsWith(lines[i], "</TEXT>")
    ensures Drive(StepFn(callback), f, Text, lines, i)
         == Drive(StepFn(callback), f.(textlines := f.textlines + [lines[i]]), Text, lines, i + 1)
  {
    assert StepFn(callback)(f, Text, lines[i]) == (f.(textlines := f.textlines + [lines[i]]), Stay) by {
      ApplyStep(callback, f, Text, lines[i]);
    }
    DriveTurn(StepFn(callback), f, Text, lines, i);
  }

  /** Lines that do not open the text are ignored while waiting for it. */
  lemma SkipToText(callback: Callback, f: Fields, lines: seq<string>, i: nat, j: nat)
    requires i <= j <= |lines|
    requires forall k :: i <= k < j ==> !StartsWith(lines[k], "<TEXT>")
    ensures Drive(StepFn(callback), f, GotDocId, lines, i) == Drive(StepFn(callback), f, GotDocId, lines, j)
  {
    forall n | i <= n < j ensures StepFn(callback)(f, GotDocId, lines[n]) == (f, Stay) {
      ApplyStep(callback, f, GotDocId, lines[n]);
    }
    SkipIgnoredLines(StepFn(callback), f, GotDocId, lines, i, j);
  }

  const Example: seq<string> := ["<DOCNO> D1 </DOCNO>\n", "<TEXT>\n", "hello\n", "world\n", "</TEXT>\n"]

  lemma ExampleShape()
    ensures |Example| == 5
    ensures StartsWith(Example[0], "<DOCNO>") && StartsWith(Example[1], "<TEXT>") && StartsWith(Example[4], "</TEXT>")
    ensures !StartsWith(Example[2], "</TEXT>") && !StartsWith(Example[3], "</TEXT>")
  {
    assert Example[2][1] == 'e' && Example[3][1] == 'o';
  }

  lemma ExampleDocId()
    ensures DocId(Example[0]) == "D1"
  {
    var line := Example[0];
    assert line == "<DOCNO> D1 </DOCNO>\n";
    assert Find(line, '<', 7) == 11;
    assert Slice(line, 7, 11) == " D1 ";
    assert TrimStart(" D1 ") == "D1 ";
    assert TrimEnd("D1 ") == "D1";
  }

  lemma ExampleText()
    ensures Example[2..4] == ["hello\n", "world\n"]
    ensures Concat(Example[2..4]) == "hello\nworld\n"
  {
    var body := ["hello\n", "world\n"];
    assert Example[2..4] == body;
    assert body[..1] == ["hello\n"] && body[..1][..0] == [];
  }

  /** The loop over the example: it ends after the five lines holding one
      document with docid `D1` and text `hello\nworld\n`, and it has
      stopped iff the callback returned `False`. */
  lemma ExampleLoop(callback: Callback)
    ensures var h := Drive(StepFn(callback), Fields(None, [], []), Misc, Example, 0);
            && h.config == Fields(Some("D1"), ["hello\n", "world\n"], [Record(Some("D1"), "hello\nworld\n")])
            && h.handled == 5
            && h.stopped == callback(Some("D1"), "hello\nworld\n")
  {
    var f' := Fields(Some("D1"), ["hello\n", "world\n"], [Record(Some("D1"), "hello\nworld\n")]);
    ExampleShape();
    ExampleDocId();
    ExampleText();
    OneDocument(callback, Fields(None, [], []), Example, 0, 1, 4);
    if !callback(Some("D1"), "hello\nworld\n") {
      assert Drive(StepFn(callback), f', Misc, Example, 5) == Halt(f', Misc, 5, false);
    }
  }

  /** The documented example yields exactly one call, ("D1", "hello\nworld\n"),
      whatever the callback returns. */
  lemma ExampleDocument(callback: Callback)
    ensures Parsed(callback, Fields(None, [], []), Example)
         == Finished(Fields(Some("D1"), ["hello\n", "world\n"], [Record(Some("D1"), "hello\nworld\n")]))
  {
    ExampleLoop(callback);
  }

  /** A callback that returns `False` on the first record ends the parse:
      whatever input follows, no second record is produced. */
  lemma StopOnFirstRecord(callback: Callback, more: seq<string>)
    requires callback(Some("D1"), "hello\nworld\n")
    ensures Parsed(callback, Fields(None, [], []), Example + more) == Parsed(callback, Fields(None, [], []), Example)
    ensures Parsed(callback, Fields(None, [], []), Example + more).config.emitted == [Record(Some("D1"), "hello\nworld\n")]
  {
    ExampleDocument(callback);
    ExampleLoop(callback);
    RunStopIgnoresLaterLines(StepFn(callback), Finish, Fields(None, [], []), Misc, Example, more);
  }

  /** Outside `Misc` a docid has been read, and every record handed to the
      callback carries one. */
  ghost predicate DocIdsSet(f: Fields, s: State)
  {
    (s != Misc ==> f.docid.Some?) && forall r :: r in f.emitted ==> r.docid.Some?
  }

  /** Every record a parse from a fresh parser hands to the callback carries
      the docid of a `<DOCNO>` line. */
  lemma RecordsHaveDocIds(callback: Callback, lines: seq<string>)
    requires lines != []
    ensures forall r :: r in Parsed(callback, Fields(None, [], []), lines).config.emitted ==> r.docid.Some?
  {
    var inv := (f: Fields, s: State) => DocIdsSet(f, s);
    var step := StepFn(callback);
    forall f: Fields, s: State, line: string | inv(f, s)
      ensures inv(step(f, s, line).0, Next(s, step(f, s, line).1))
    {
      assert step(f, s, line) == Step(callback, f, s, line);
    }
    DriveKeeps(step, inv, Fields(None, [], []), Misc, lines, 0);
  }

  class TrecParser {
    var docid: Option<string>
    var textlines: seq<string>
    var emitted: seq<Record>
    const callback: Callback

    function Current(): Fields
      reads this
    {
      Fields(docid, textlines, emitted)
    }

    constructor (callback: Callback)
      ensures Current() == Fields(None, [], []) && this.callback == callback
    {
      docid := None;
      textlines := [];
      emitted := [];
      this.callback := callback;
    }

    method OnMisc(line: string) returns (t: Transition<State>)
      modifies this
      ensures (Current(), t) == MiscStep(old(Current()), line)
    {
      t := Stay;
      if StartsWith(line, "<DOCNO>") {
        var p := Find(line, '<', 7);
        docid := Some(Strip(Slice(line, 7, p)));
        textlines := [];
        t := Goto(GotDocId);
      }
    }

    method OnGotDocId(line: string) returns (t: Transition<State>)
      ensures t == GotDocIdStep(line)
    {
      t := Stay;
      if StartsWith(line, "<TEXT>") {
        t := Goto(Text);
      }
    }

    method OnText(line: string) returns (t: Transition<State>)
      modifies this
      ensures (Current(), t) == TextStep(callback, old(Current()), line)
    {
      if StartsWith(line, "</TEXT>") {
        var text := Concat(textlines);
        emitted := emitted + [Record(docid, text)];
        var r := callback(docid, text);
        if r {
          return Stop;
        }
        return Goto(Misc);
      } else {
        textlines := textlines + [line];
        t := Stay;
      }
    }

    method Dispatch(s: State, line: string) returns (t: Transition<State>)
      modifies this
      ensures (Current(), t) == Step(callback, old(Current()), s, line)
    {
      match s
      case Misc => t := OnMisc(line);
      case GotDocId => t := OnGotDocId(line);
      case Text => t := OnText(line);
    }

    method Parse(lines: seq<string>) returns (ok: bool)
      modifies this
      ensures ok <==> lines != []
      ensures !ok ==> Current() == old(Current())
      ensures ok ==> Parsed(callback, old(Current()), lines) == Finished(Current())
    {
      if lines == [] {
        return false;
      }
      var step := StepFn(callback);
      var state := Misc;
      var i := 0;
      var stopped := false;
      while i < |lines| && !stopped
        invariant 0 <= i <= |lines|
        invariant stopped ==> 1 <= i && Drive(step, old(Current()), Misc, lines, 0) == Halt(Current(), state, i, true)
        invariant !stopped ==> Drive(step, old(Current()), Misc, lines, 0) == Drive(step, Current(), state, lines, i)
      {
        ghost var before := Current();
        var t := Dispatch(state, lines[i]);
        assert step(before, state, lines[i]) == (Current(), t);
        i := i + 1;
        match t
        case Stop => stopped := true;
        case Stay =>
        case Goto(next) => state := next;
      }
      OnFinish(lines[i - 1]);
      return true;
    }

    /** The inherited `onFinish`: nothing to do. */
    method OnFinish(line: string)
      ensures Current() == Finish(old(Current()), line)
    {
    }
  }
}
