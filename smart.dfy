/** The SMART parser: documents of the form `.I id`, `.C`, a line of
    `label 1` pairs, then sections each opened by a `.X` line, handed to a
    callback as (docid, cats, text). */
module Smart {
  import opened Wrappers
  import opened Strings
  import opened Engine

  datatype State = Misc | GotDocId | SawDotC | SectionHeader | SectionText

  /** One invocation of the callback: its three arguments. */
  datatype Record = Record(docid: Option<string>, cats: Option<seq<string>>, text: string)

  /** The parser's record state, plus the log of callback invocations. */
  datatype Fields = Fields(docid: Option<string>, textlines: seq<string>, cats: Option<seq<string>>,
                           sectionheader: Option<string>, emitted: seq<Record>)

  /** The callback; whatever it returns is ignored. */
  type Callback = (Option<string>, Option<seq<string>>, string) -> bool

  /** The labels of a categories line: the groups of the matches of the
      pattern `([^ ]+) 1`, found left to right without overlap from index
      `p`. A match starting at `p` can only take the whole run of non-space
      characters from `p`, and it needs " 1" right after that run; when
      there is none the search moves on one character. */
  function Cats(line: string, p: nat): seq<string>
    decreases |line| - p
  {
    if p >= |line| then []
    else
      var f := Find(line, ' ', p);
      var q := if f == -1 then |line| else f;
      if p < q && q + 1 < |line| && line[q + 1] == '1' then [line[p..q]] + Cats(line, q + 2)
      else Cats(line, p + 1)
  }

  /** Every label is non-empty and holds no space. */
  lemma {:induction false} CatsLabels(line: string, p: nat)
    ensures forall k :: 0 <= k < |Cats(line, p)| ==> Cats(line, p)[k] != [] && ' ' !in Cats(line, p)[k]
    decreases |line| - p
  {
    if p < |line| {
      var f := Find(line, ' ', p);
      var q := if f == -1 then |line| else f;
      if p < q && q + 1 < |line| && line[q + 1] == '1' {
        CatsLabels(line, q + 2);
        FindFirst(line, ' ', p);
        assert ' ' !in line[p..q];
      } else {
        CatsLabels(line, p + 1);
      }
    }
  }

  /** Whether text of the current section is kept: all sections are kept
      when no list was given, otherwise only the listed ones. */
  predicate Allowed(allowed: Option<seq<string>>, header: Option<string>)
  {
    allowed.None? || (header.Some? && header.value in allowed.value)
  }

  /** `onMisc`: waiting for a new document to start. */
  function MiscStep(f: Fields, line: string): (Fields, Transition<State>)
  {
    if StartsWith(line, ".I") then
      (f.(docid := Some(Strip(Slice(line, 2, |line|))), textlines := [], cats := None, sectionheader := None),
       Goto(GotDocId))
    else (f, Stay)
  }

  /** `onGotDocId`: waiting for the `.C` line. */
  function GotDocIdStep(line: string): Transition<State>
  {
    if StartsWith(line, ".C") then Goto(SawDotC) else Stay
  }

  /** `onSawDotC`: the categories line. */
  function SawDotCStep(f: Fields, line: string): (Fields, Transition<State>)
  {
    (f.(cats := Some(Cats(line, 0))), Goto(SectionHeader))
  }

  /** `onSectionHeader`: whatever the line, its second character names the
      section. */
  function SectionHeaderStep(f: Fields, line: string): (Fields, Transition<State>)
  {
    (f.(sectionheader := Some(Slice(line, 1, 2))), Goto(SectionText))
  }

  /** `doCallBack`: hand the record to the callback if any text was kept. */
  function Flush(f: Fields): (r: Fields)
    ensures r.(emitted := f.emitted) == f
    ensures f.textlines == [] ==> r.emitted == f.emitted
    ensures f.textlines != [] ==> r.emitted == f.emitted + [Record(f.docid, f.cats, Concat(f.textlines))]
  {
    if |f.textlines| > 0 then f.(emitted := f.emitted + [Record(f.docid, f.cats, Concat(f.textlines))])
    else f
  }

  /** `onSectionText`: `.I` ends the document and is then handled as
      `onMisc` handles it; another dot-line is a section header, read in
      place; other lines are kept when their section is allowed. */
  function SectionTextStep(allowed: Option<seq<string>>, f: Fields, line: string): (Fields, Transition<State>)
  {
    if StartsWith(line, ".") then
      if StartsWith(line, ".I") then MiscStep(Flush(f), line)
      else SectionHeaderStep(f, line)
    else if !Allowed(allowed, f.sectionheader) then (f, Stay)
    else (f.(textlines := f.textlines + [line]), Stay)
  }

  /** The handler table: every state has its handler. No handler ever
      stops the parse, and a record is handed over only when a `.I` line
      ends a document that kept some text. */
  function Step(allowed: Option<seq<string>>, f: Fields, s: State, line: string): (r: (Fields, Transition<State>))
    ensures !r.1.Stop?
    ensures r.0.emitted == f.emitted
         || (s == SectionText && StartsWith(line, ".I") && f.textlines != []
             && r.0.emitted == f.emitted + [Record(f.docid, f.cats, Concat(f.textlines))])
  {
    match s
    case Misc => MiscStep(f, line)
    case GotDocId => (f, GotDocIdStep(line))
    case SawDotC => SawDotCStep(f, line)
    case SectionHeader => SectionHeaderStep(f, line)
    case SectionText => SectionTextStep(allowed, f, line)
  }

  function StepFn(allowed: Option<seq<string>>): (Fields, State, string) -> (Fields, Transition<State>)
  {
    (f: Fields, s: State, line: string) => Step(allowed, f, s, line)
  }

  /** `onFinish`: the document still open at the end of the input is
      handed over if it kept some text. */
  function Finish(f: Fields, line: string): Fields
  {
    Flush(f)
  }

  /** What `parse()` computes, starting in `Misc` with record state `f`. */
  function Parsed(allowed: Option<seq<string>>, f: Fields, lines: seq<string>): Outcome<Fields>
  {
    Run(StepFn(allowed), Finish, f, Misc, lines)
  }

  lemma ApplyStep(allowed: Option<seq<string>>, f: Fields, s: State, line: string)
    ensures StepFn(allowed)(f, s, line) == Step(allowed, f, s, line)
  {
  }

  /** One turn of the loop in state `s`. */
  lemma Turn(allowed: Option<seq<string>>, f: Fields, s: State, lines: seq<string>, i: nat)
    requires i < |lines|
    ensures var (f', t) := Step(allowed, f, s, lines[i]);
            Drive(StepFn(allowed), f, s, lines, i) == Drive(StepFn(allowed), f', Next(s, t), lines, i + 1)
  {
    ApplyStep(allowed, f, s, lines[i]);
    DriveTurn(StepFn(allowed), f, s, lines, i);
  }

  /** One turn of the loop, with its outcome given. */
  lemma TurnTo(allowed: Option<seq<string>>, f: Fields, s: State, lines: seq<string>, i: nat, f': Fields, s': State)
    requires i < |lines|
    requires Step(allowed, f, s, lines[i]).0 == f' && Next(s, Step(allowed, f, s, lines[i]).1) == s'
    ensures Drive(StepFn(allowed), f, s, lines, i) == Drive(StepFn(allowed), f', s', lines, i + 1)
  {
    Turn(allowed, f, s, lines, i);
  }

  /** However the callback answers, a SMART parse hands every line to a
      handler. */
  lemma HandlesEveryLine(allowed: Option<seq<string>>, f: Fields, s: State, lines: seq<string>)
    ensures Drive(StepFn(allowed), f, s, lines, 0).handled == |lines|
    ensures !Drive(StepFn(allowed), f, s, lines, 0).stopped
  {
    forall f0: Fields, s0: State, l0: string ensures !StepFn(allowed)(f0, s0, l0).1.Stop? {
      ApplyStep(allowed, f0, s0, l0);
    }
    NeverStopsHandlesAll(StepFn(allowed), f, s, lines, 0);
  }

  /** In a section, a `.I` line ends the document (handing it over if it
      kept text) and is then treated exactly as `onMisc` treats it. */
  lemma DotIRestarts(allowed: Option<seq<string>>, f: Fields, line: string)
    requires StartsWith(line, ".I")
    ensures Step(allowed, f, SectionText, line) == Step(allowed, Flush(f), Misc, line)
    ensures Step(allowed, f, SectionText, line).1 == Goto(GotDocId)
  {
    assert line[..1] == line[..2][..1];
  }

  /** In a section, a `.I` line ends the document: the rest of the parse is
      that of `Misc` after the flush. */
  lemma DotIEndsDocument(allowed: Option<seq<string>>, f: Fields, lines: seq<string>, i: nat)
    requires i < |lines| && StartsWith(lines[i], ".I")
    ensures Drive(StepFn(allowed), f, SectionText, lines, i) == Drive(StepFn(allowed), Flush(f), Misc, lines, i)
  {
    DotIRestarts(allowed, f, lines[i]);
    Turn(allowed, f, SectionText, lines, i);
    Turn(allowed, Flush(f), Misc, lines, i);
  }

  /** In a section, any other dot-line becomes the new section header in
      one step, and the state stays `SectionText`. */
  lemma DotLineSwitchesSection(allowed: Option<seq<string>>, f: Fields, line: string)
    requires StartsWith(line, ".") && !StartsWith(line, ".I")
    ensures Step(allowed, f, SectionText, line) == (f.(sectionheader := Some(Slice(line, 1, 2))), Goto(SectionText))
  {
  }

  /** In an allowed section, a line without a leading dot is appended to
      the text. */
  lemma TextLineKept(allowed: Option<seq<string>>, f: Fields, line: string)
    requires !StartsWith(line, ".") && Allowed(allowed, f.sectionheader)
    ensures Step(allowed, f, SectionText, line) == (f.(textlines := f.textlines + [line]), Stay)
  {
  }

  /** In a section that is not allowed, such a line changes nothing. */
  lemma TextLineDropped(allowed: Option<seq<string>>, f: Fields, line: string)
    requires !StartsWith(line, ".") && !Allowed(allowed, f.sectionheader)
    ensures Step(allowed, f, SectionText, line) == (f, Stay)
  {
  }

  /** The text lines of a section that is not allowed are dropped. */
  lemma {:induction false} FilteredSectionDropped(allowed: Option<seq<string>>, f: Fields, lines: seq<string>, i: nat, j: nat)
    requires i <= j <= |lines|
    requires !Allowed(allowed, f.sectionheader)
    requires forall k :: i <= k < j ==> !StartsWith(lines[k], ".")
    ensures Drive(StepFn(allowed), f, SectionText, lines, i) == Drive(StepFn(allowed), f, SectionText, lines, j)
  {
    forall k | i <= k < j ensures StepFn(allowed)(f, SectionText, lines[k]) == (f, Stay) {
      ApplyStep(allowed, f, SectionText, lines[k]);
    }
    SkipIgnoredLines(StepFn(allowed), f, SectionText, lines, i, j);
  }

  /** The text lines of an allowed section are kept, in order. */
  lemma {:induction false} AllowedSectionKept(allowed: Option<seq<string>>, f: Fields, lines: seq<string>, i: nat, j: nat)
    requires i <= j <= |lines|
    requires Allowed(allowed, f.sectionheader)
    requires forall k :: i <= k < j ==> !StartsWith(lines[k], ".")
    ensures Drive(StepFn(allowed), f, SectionText, lines, i)
         == Drive(StepFn(allowed), f.(textlines := f.textlines + lines[i..j]), SectionText, lines, j)
    decreases j - i
  {
    if i < j {
      var f' := f.(textlines := f.textlines + [lines[i]]);
      TextLineKept(allowed, f, lines[i]);
      TurnTo(allowed, f, SectionText, lines, i, f', SectionText);
      AllowedSectionKept(allowed, f', lines, i + 1, j);
      AppendRun(f.textlines, lines, i, j);
    } else {
      AppendRun(f.textlines, lines, i, j);
    }
  }

  /** Appending `lines[i..j]` is appending its first line and then the rest,
      and appending an empty run appends nothing. */
  lemma AppendRun(text: seq<string>, lines: seq<string>, i: nat, j: nat)
    requires i <= j <= |lines|
    ensures i < j ==> text + [lines[i]] + lines[i + 1..j] == text + lines[i..j]
    ensures i == j ==> text + lines[i..j] == text
  {
    if i < j {
      assert lines[i..j] == [lines[i]] + lines[i + 1..j];
    } else {
      assert lines[i..j] == [];
    }
  }

  /** A document opens with `.I id`, then `.C`, then the categories line:
      the docid is the stripped rest of the `.I` line, the text and the
      header are cleared, and the parser waits for a section header. */
  lemma DocumentOpens(allowed: Option<seq<string>>, f: Fields, lines: seq<string>, i: nat)
    requires i + 2 < |lines|
    requires StartsWith(lines[i], ".I") && StartsWith(lines[i + 1], ".C")
    ensures var f' := Fields(Some(Strip(Slice(lines[i], 2, |lines[i]|))), [], Some(Cats(lines[i + 2], 0)), None, f.emitted);
            Drive(StepFn(allowed), f, Misc, lines, i) == Drive(StepFn(allowed), f', SectionHeader, lines, i + 3)
  {
    var f1 := Fields(Some(Strip(Slice(lines[i], 2, |lines[i]|))), [], None, None, f.emitted);
    TurnTo(allowed, f, Misc, lines, i, f1, GotDocId);
    TurnTo(allowed, f1, GotDocId, lines, i + 1, f1, SawDotC);
    TurnTo(allowed, f1, SawDotC, lines, i + 2, f1.(cats := Some(Cats(lines[i + 2], 0))), SectionHeader);
  }

  /** While waiting for a document, lines not starting with `.I` are
      ignored. */
  lemma SkipToDotI(allowed: Option<seq<string>>, f: Fields, lines: seq<string>, i: nat, j: nat)
    requires i <= j <= |lines|
    requires forall k :: i <= k < j ==> !StartsWith(lines[k], ".I")
    ensures Drive(StepFn(allowed), f, Misc, lines, i) == Drive(StepFn(allowed), f, Misc, lines, j)
  {
    forall n | i <= n < j ensures StepFn(allowed)(f, Misc, lines[n]) == (f, Stay) {
      ApplyStep(allowed, f, Misc, lines[n]);
    }
    SkipIgnoredLines(StepFn(allowed), f, Misc, lines, i, j);
  }

  /** While waiting for the categories, lines not starting with `.C` are
      ignored. */
  lemma SkipToDotC(allowed: Option<seq<string>>, f: Fields, lines: seq<string>, i: nat, j: nat)
    requires i <= j <= |lines|
    requires forall k :: i <= k < j ==> !StartsWith(lines[k], ".C")
    ensures Drive(StepFn(allowed), f, GotDocId, lines, i) == Drive(StepFn(allowed), f, GotDocId, lines, j)
  {
    forall n | i <= n < j ensures StepFn(allowed)(f, GotDocId, lines[n]) == (f, Stay) {
      ApplyStep(allowed, f, GotDocId, lines[n]);
    }
    SkipIgnoredLines(StepFn(allowed), f, GotDocId, lines, i, j);
  }

  /** The same opening with any lines between `.I` at `i` and the `.C`
      line at `c`: those lines are ignored. */
  lemma DocumentOpensAfter(allowed: Option<seq<string>>, f: Fields, lines: seq<string>, i: nat, c: nat)
    requires i < c && c + 1 < |lines|
    requires StartsWith(lines[i], ".I") && StartsWith(lines[c], ".C")
    requires forall k :: i < k < c ==> !StartsWith(lines[k], ".C")
    ensures var f' := Fields(Some(Strip(Slice(lines[i], 2, |lines[i]|))), [], Some(Cats(lines[c + 1], 0)), None, f.emitted);
            Drive(StepFn(allowed), f, Misc, lines, i) == Drive(StepFn(allowed), f', SectionHeader, lines, c + 2)
  {
    var f1 := Fields(Some(Strip(Slice(lines[i], 2, |lines[i]|))), [], None, None, f.emitted);
    TurnTo(allowed, f, Misc, lines, i, f1, GotDocId);
    SkipToDotC(allowed, f1, lines, i + 1, c);
    TurnTo(allowed, f1, GotDocId, lines, c, f1, SawDotC);
    TurnTo(allowed, f1, SawDotC, lines, c + 1, f1.(cats := Some(Cats(lines[c + 1], 0))), SectionHeader);
  }

  /** A section header line names the section by its second character. */
  lemma SectionOpens(allowed: Option<seq<string>>, f: Fields, lines: seq<string>, i: nat)
    requires i < |lines|
    ensures Drive(StepFn(allowed), f, SectionHeader, lines, i)
         == Drive(StepFn(allowed), f.(sectionheader := Some(Slice(lines[i], 1, 2))), SectionText, lines, i + 1)
  {
    TurnTo(allowed, f, SectionHeader, lines, i, f.(sectionheader := Some(Slice(lines[i], 1, 2))), SectionText);
  }

  /** The section header in force after `line`, inside a section: a
      dot-line names a new section by its second character. */
  function NextHeader(h: Option<string>, line: string): Option<string>
  {
    if StartsWith(line, ".") then Some(Slice(line, 1, 2)) else h
  }

  /** The section header in force after a run of lines inside a document. */
  function HeaderAfter(h: Option<string>, run: seq<string>): Option<string>
    decreases |run|
  {
    if run == [] then h else HeaderAfter(NextHeader(h, run[0]), run[1..])
  }

  /** What one line inside a document keeps under header `h`: itself when
      it has no leading dot and its section is allowed. */
  function KeptLine(allowed: Option<seq<string>>, h: Option<string>, line: string): seq<string>
  {
    if !StartsWith(line, ".") && Allowed(allowed, h) then [line] else []
  }

  /** The text a run of lines inside a document keeps, starting with
      header `h`: the lines without a leading dot whose section is
      allowed, in order. */
  function Kept(allowed: Option<seq<string>>, h: Option<string>, run: seq<string>): seq<string>
    decreases |run|
  {
    if run == [] then [] else KeptLine(allowed, h, run[0]) + Kept(allowed, NextHeader(h, run[0]), run[1..])
  }

  /** Every kept line is a line of the run without a leading dot. */
  lemma {:induction false} KeptLines(allowed: Option<seq<string>>, h: Option<string>, run: seq<string>)
    ensures forall l :: l in Kept(allowed, h, run) ==> l in run && !StartsWith(l, ".")
    decreases |run|
  {
    if run != [] {
      KeptLines(allowed, NextHeader(h, run[0]), run[1..]);
    }
  }

  /** With no section list, every line without a leading dot is kept. */
  lemma {:induction false} KeptAll(h: Option<string>, run: seq<string>)
    requires forall k :: 0 <= k < |run| ==> !StartsWith(run[k], ".")
    ensures Kept(None, h, run) == run
    decreases |run|
  {
    if run != [] {
      KeptAll(NextHeader(h, run[0]), run[1..]);
      assert [run[0]] + run[1..] == run;
    }
  }

  /** One line inside a document other than `.I`. */
  lemma SectionTurn(allowed: Option<seq<string>>, f: Fields, lines: seq<string>, i: nat)
    requires i < |lines| && !StartsWith(lines[i], ".I")
    ensures Drive(StepFn(allowed), f, SectionText, lines, i)
         == Drive(StepFn(allowed), f.(textlines := f.textlines + KeptLine(allowed, f.sectionheader, lines[i]),
                                      sectionheader := NextHeader(f.sectionheader, lines[i])), SectionText, lines, i + 1)
  {
    var line := lines[i];
    var f' := f.(textlines := f.textlines + KeptLine(allowed, f.sectionheader, line),
                 sectionheader := NextHeader(f.sectionheader, line));
    if StartsWith(line, ".") {
      DotLineSwitchesSection(allowed, f, line);
      assert f.textlines + [] == f.textlines;
    } else if Allowed(allowed, f.sectionheader) {
      TextLineKept(allowed, f, line);
    } else {
      TextLineDropped(allowed, f, line);
      assert f.textlines + [] == f.textlines;
    }
    TurnTo(allowed, f, SectionText, lines, i, f', SectionText);
  }

  /** Inside a document, up to the next `.I` line, the parse keeps exactly
      the text of the allowed sections, switching sections at every
      dot-line. */
  lemma {:induction false} SectionRun(allowed: Option<seq<string>>, f: Fields, lines: seq<string>, i: nat, j: nat)
    requires i <= j <= |lines|
    requires forall k :: i <= k < j ==> !StartsWith(lines[k], ".I")
    ensures Drive(StepFn(allowed), f, SectionText, lines, i)
         == Drive(StepFn(allowed), f.(textlines := f.textlines + Kept(allowed, f.sectionheader, lines[i..j]),
                                      sectionheader := HeaderAfter(f.sectionheader, lines[i..j])), SectionText, lines, j)
    decreases j - i
  {
    if i == j {
      KeptNone(allowed, f, lines, i);
    } else {
      var f' := f.(textlines := f.textlines + KeptLine(allowed, f.sectionheader, lines[i]),
                   sectionheader := NextHeader(f.sectionheader, lines[i]));
      SectionTurn(allowed, f, lines, i);
      SectionRun(allowed, f', lines, i + 1, j);
      KeptStepAt(allowed, f, lines, i, j);
    }
  }

  /** An empty run keeps nothing and leaves the header. */
  lemma KeptNone(allowed: Option<seq<string>>, f: Fields, lines: seq<string>, i: nat)
    requires i <= |lines|
    ensures f.(textlines := f.textlines + Kept(allowed, f.sectionheader, lines[i..i]),
               sectionheader := HeaderAfter(f.sectionheader, lines[i..i])) == f
  {
    assert lines[i..i] == [];
    assert f.textlines + [] == f.textlines;
  }

  /** `KeptStep` for the run `lines[i..j]` split after its first line. */
  lemma KeptStepAt(allowed: Option<seq<string>>, f: Fields, lines: seq<string>, i: nat, j: nat)
    requires i < j <= |lines|
    ensures var f' := f.(textlines := f.textlines + KeptLine(allowed, f.sectionheader, lines[i]),
                         sectionheader := NextHeader(f.sectionheader, lines[i]));
            f'.(textlines := f'.textlines + Kept(allowed, f'.sectionheader, lines[i + 1..j]),
                sectionheader := HeaderAfter(f'.sectionheader, lines[i + 1..j]))
              == f.(textlines := f.textlines + Kept(allowed, f.sectionheader, lines[i..j]),
                    sectionheader := HeaderAfter(f.sectionheader, lines[i..j]))
  {
    assert lines[i..j] == [lines[i]] + lines[i + 1..j];
    KeptStep(allowed, f, lines[i], lines[i + 1..j]);
  }

  /** Keeping a run line by line is keeping it whole. */
  lemma KeptStep(allowed: Option<seq<string>>, f: Fields, line: string, rest: seq<string>)
    ensures var f' := f.(textlines := f.textlines + KeptLine(allowed, f.sectionheader, line),
                         sectionheader := NextHeader(f.sectionheader, line));
            f'.(textlines := f'.textlines + Kept(allowed, f'.sectionheader, rest),
                sectionheader := HeaderAfter(f'.sectionheader, rest))
              == f.(textlines := f.textlines + Kept(allowed, f.sectionheader, [line] + rest),
                    sectionheader := HeaderAfter(f.sectionheader, [line] + rest))
  {
    var run := [line] + rest;
    assert run[0] == line && run[1..] == rest;
    assert f.textlines + KeptLine(allowed, f.sectionheader, line) + Kept(allowed, NextHeader(f.sectionheader, line), rest)
        == f.textlines + Kept(allowed, f.sectionheader, run);
  }

  /** One whole document: `.I` at `i`, ignored lines, `.C` at `c`, the
      categories line, the first header line at `c + 2`, then sections up
      to `n`, with no `.I` in between. The parse is then in a section with
      the docid, the categories and exactly the kept text. */
  lemma SmartDocument(allowed: Option<seq<string>>, f: Fields, lines: seq<string>, i: nat, c: nat, n: nat)
    requires i < c && c + 2 < n <= |lines|
    requires StartsWith(lines[i], ".I") && StartsWith(lines[c], ".C")
    requires forall k :: i < k < c ==> !StartsWith(lines[k], ".C")
    requires forall k :: c + 3 <= k < n ==> !StartsWith(lines[k], ".I")
    ensures var h := Some(Slice(lines[c + 2], 1, 2));
            var f' := Fields(Some(Strip(Slice(lines[i], 2, |lines[i]|))), Kept(allowed, h, lines[c + 3..n]),
                             Some(Cats(lines[c + 1], 0)), HeaderAfter(h, lines[c + 3..n]), f.emitted);
            Drive(StepFn(allowed), f, Misc, lines, i) == Drive(StepFn(allowed), f', SectionText, lines, n)
  {
    var d := Some(Strip(Slice(lines[i], 2, |lines[i]|)));
    var h := Some(Slice(lines[c + 2], 1, 2));
    var f2 := Fields(d, [], Some(Cats(lines[c + 1], 0)), None, f.emitted);
    DocumentOpensAfter(allowed, f, lines, i, c);
    SectionOpens(allowed, f2, lines, c + 2);
    SectionRun(allowed, f2.(sectionheader := h), lines, c + 3, n);
    assert [] + Kept(allowed, h, lines[c + 3..n]) == Kept(allowed, h, lines[c + 3..n]);
  }

  /** The document is handed over when the next `.I` line, at `n`, starts
      another one: as (docid, categories, joined kept text), and only if
      some text was kept. */
  lemma SmartDocumentRecord(allowed: Option<seq<string>>, f: Fields, lines: seq<string>, i: nat, c: nat, n: nat)
    requires i < c && c + 2 < n < |lines|
    requires StartsWith(lines[i], ".I") && StartsWith(lines[c], ".C")
    requires forall k :: i < k < c ==> !StartsWith(lines[k], ".C")
    requires forall k :: c + 3 <= k < n ==> !StartsWith(lines[k], ".I")
    requires StartsWith(lines[n], ".I")
    ensures var h := Some(Slice(lines[c + 2], 1, 2));
            var text := Kept(allowed, h, lines[c + 3..n]);
            var d := Some(Strip(Slice(lines[i], 2, |lines[i]|)));
            var cats := Some(Cats(lines[c + 1], 0));
            var f' := Fields(d, text, cats, HeaderAfter(h, lines[c + 3..n]), f.emitted);
            Drive(StepFn(allowed), f, Misc, lines, i) == Drive(StepFn(allowed), Flush(f'), Misc, lines, n)
            && Flush(f').emitted == f.emitted + (if text == [] then [] else [Record(d, cats, Concat(text))])
  {
    var h := Some(Slice(lines[c + 2], 1, 2));
    var f' := Fields(Some(Strip(Slice(lines[i], 2, |lines[i]|))), Kept(allowed, h, lines[c + 3..n]),
                     Some(Cats(lines[c + 1], 0)), HeaderAfter(h, lines[c + 3..n]), f.emitted);
    SmartDocument(allowed, f, lines, i, c, n);
    DotIEndsDocument(allowed, f', lines, n);
  }

  /** A parse whose input is one document: `onFinish` hands it over as
      (docid, categories, joined kept text), and only if some text was
      kept. */
  lemma SmartLastDocument(allowed: Option<seq<string>>, f: Fields, lines: seq<string>, c: nat)
    requires 0 < c && c + 2 < |lines|
    requires StartsWith(lines[0], ".I") && StartsWith(lines[c], ".C")
    requires forall k :: 0 < k < c ==> !StartsWith(lines[k], ".C")
    requires forall k :: c + 3 <= k < |lines| ==> !StartsWith(lines[k], ".I")
    ensures var h := Some(Slice(lines[c + 2], 1, 2));
            var text := Kept(allowed, h, lines[c + 3..]);
            var d := Some(Strip(Slice(lines[0], 2, |lines[0]|)));
            var cats := Some(Cats(lines[c + 1], 0));
            var f' := Fields(d, text, cats, HeaderAfter(h, lines[c + 3..]), f.emitted);
            Parsed(allowed, f, lines) == Finished(Flush(f'))
            && Flush(f').emitted == f.emitted + (if text == [] then [] else [Record(d, cats, Concat(text))])
  {
    var h := Some(Slice(lines[c + 2], 1, 2));
    var f' := Fields(Some(Strip(Slice(lines[0], 2, |lines[0]|))), Kept(allowed, h, lines[c + 3..|lines|]),
                     Some(Cats(lines[c + 1], 0)), HeaderAfter(h, lines[c + 3..|lines|]), f.emitted);
    SmartDocument(allowed, f, lines, 0, c, |lines|);
    assert lines[c + 3..] == lines[c + 3..|lines|];
    assert Drive(StepFn(allowed), f', SectionText, lines, |lines|) == Halt(f', SectionText, |lines|, false);
  }

  /** Outside `Misc` a docid has been read; from the header on, the
      categories too; text is only kept in a section; and every record
      handed over carries a docid and categories. */
  ghost predicate Complete(f: Fields, s: State)
  {
    && (s != Misc ==> f.docid.Some?)
    && ((s == SectionHeader || s == SectionText) ==> f.cats.Some?)
    && (f.textlines != [] ==> s == SectionText)
    && forall r :: r in f.emitted ==> r.docid.Some? && r.cats.Some?
  }

  lemma StepKeepsComplete(allowed: Option<seq<string>>, f: Fields, s: State, line: string)
    requires Complete(f, s)
    ensures Complete(Step(allowed, f, s, line).0, Next(s, Step(allowed, f, s, line).1))
  {
    if s == SectionText && StartsWith(line, ".I") {
      DotIRestarts(allowed, f, line);
    }
  }

  /** Every record a parse from a fresh parser hands to the callback,
      including the one flushed at the end, carries the docid of its `.I`
      line and the categories of its `.C` line. */
  lemma RecordsComplete(allowed: Option<seq<string>>, lines: seq<string>)
    requires lines != []
    ensures forall r :: r in Parsed(allowed, Fields(None, [], None, None, []), lines).config.emitted ==>
      r.docid.Some? && r.cats.Some?
  {
    var inv := (f: Fields, s: State) => Complete(f, s);
    var step := StepFn(allowed);
    forall f: Fields, s: State, line: string | inv(f, s)
      ensures inv(step(f, s, line).0, Next(s, step(f, s, line).1))
    {
      ApplyStep(allowed, f, s, line);
      StepKeepsComplete(allowed, f, s, line);
    }
    DriveKeeps(step, inv, Fields(None, [], None, None, []), Misc, lines, 0);
  }

  /** A run of non-space characters from `p` followed by " 1" is a label,
      and the search resumes after the "1". */
  lemma CatsFound(line: string, p: nat, q: nat)
    requires p < q && q + 1 < |line| && line[q] == ' ' && line[q + 1] == '1'
    requires forall k :: p <= k < q ==> line[k] != ' '
    ensures Cats(line, p) == [line[p..q]] + Cats(line, q + 2)
  {
    FindFirst(line, ' ', p);
    assert Find(line, ' ', p) == q;
  }

  /** A run of non-space characters from `p` to `q` that is not followed
      by " 1" holds no match: the search goes on from `q`. */
  lemma {:induction false} CatsNoMatch(line: string, p: nat, q: nat)
    requires p <= q <= |line|
    requires forall k :: p <= k < q ==> line[k] != ' '
    requires q == |line| || (line[q] == ' ' && (q + 1 == |line| || line[q + 1] != '1'))
    ensures Cats(line, p) == Cats(line, q)
    decreases q - p
  {
    if p < q {
      FindFirst(line, ' ', p);
      assert Find(line, ' ', p) == if q == |line| then -1 else q;
      CatsNoMatch(line, p + 1, q);
    }
  }

  /** `line[a..]` begins with a match of `([^ ]+) 1` whose group is `l`. */
  ghost predicate LabelAt(line: string, a: nat, l: string)
  {
    a + |l| + 1 < |line| && line[a..a + |l|] == l && line[a + |l|] == ' ' && line[a + |l| + 1] == '1'
  }

  /** A match found at or after `p'` is also one at or after `p <= p'`. */
  lemma LabelCarries(line: string, p: nat, p': nat, l: string)
    requires p <= p' && exists a: nat :: p' <= a && LabelAt(line, a, l)
    ensures exists a: nat :: p <= a && LabelAt(line, a, l)
  {
  }

  /** Every label is the group of a match at or after `p`. */
  lemma {:induction false} CatsMatchPattern(line: string, p: nat, k: nat)
    requires k < |Cats(line, p)|
    ensures exists a: nat :: p <= a && LabelAt(line, a, Cats(line, p)[k])
    decreases |line| - p, 1
  {
    var f := Find(line, ' ', p);
    var q := if f == -1 then |line| else f;
    FindFirst(line, ' ', p);
    if line[p] == ' ' {
      CatsSkipSpace(line, p);
      CatsMatchPattern(line, p + 1, k);
      LabelCarries(line, p, p + 1, Cats(line, p)[k]);
    } else if q + 1 < |line| && line[q + 1] == '1' {
      CatsMatchAt(line, p, q, k);
    } else {
      CatsNoMatch(line, p, q);
      CatsMatchPattern(line, q, k);
      LabelCarries(line, p, q, Cats(line, p)[k]);
    }
  }

  /** The same, when a match starts at `p` and its run ends at `q`. */
  lemma {:induction false} CatsMatchAt(line: string, p: nat, q: nat, k: nat)
    requires p < q && q + 1 < |line| && line[q] == ' ' && line[q + 1] == '1'
    requires forall n :: p <= n < q ==> line[n] != ' '
    requires k < |Cats(line, p)|
    ensures exists a: nat :: p <= a && LabelAt(line, a, Cats(line, p)[k])
    decreases |line| - p, 0
  {
    CatsFound(line, p, q);
    if k == 0 {
      assert LabelAt(line, p, Cats(line, p)[0]);
    } else {
      CatsMatchPattern(line, q + 2, k - 1);
      assert Cats(line, p)[k] == Cats(line, q + 2)[k - 1];
      LabelCarries(line, p, q + 2, Cats(line, p)[k]);
    }
  }

  /** No match starts at a space. */
  lemma CatsSkipSpace(line: string, p: nat)
    requires p < |line| && line[p] == ' '
    ensures Cats(line, p) == Cats(line, p + 1)
  {
    assert Find(line, ' ', p) == p;
  }

  /** Without a space left there is no label left. */
  lemma {:induction false} CatsNone(line: string, p: nat)
    requires forall k :: p <= k < |line| ==> line[k] != ' '
    ensures Cats(line, p) == []
    decreases |line| - p
  {
    if p < |line| {
      FindFirst(line, ' ', p);
      CatsNone(line, p + 1);
    }
  }


  /** Two documents: the first keeps its `W` section, the second has only a
      `T` section, which the section list filters out. */
  const Example: seq<string> :=
    [".I 1\n", ".C\n", "a 1 b 1\n", ".W\n", "hi\n", ".I 2\n", ".C\n", "\n", ".T\n", "x\n"]

  const ExampleSections: Option<seq<string>> := Some(["W"])

  const ExampleFirst := Record(Some("1"), Some(["a", "b"]), "hi\n")

  /** The state in which the first document's text was read. */
  const ExampleAtFirstText := Fields(Some("1"), ["hi\n"], Some(["a", "b"]), Some("W"), [])

  /** The state at the end of the input. */
  const ExampleAtEnd := Fields(Some("2"), [], Some([]), Some("T"), [ExampleFirst])

  lemma ExampleDotLines()
    ensures |Example| == 10
    ensures StartsWith(Example[0], ".I") && StartsWith(Example[5], ".I")
    ensures StartsWith(Example[1], ".C") && StartsWith(Example[6], ".C")
    ensures StartsWith(Example[3], ".") && !StartsWith(Example[3], ".I")
    ensures StartsWith(Example[8], ".") && !StartsWith(Example[8], ".I")
    ensures !StartsWith(Example[4], ".") && !StartsWith(Example[9], ".")
  {
    assert Example[3][1] == 'W' && Example[8][1] == 'T';
    assert Example[4][0] == 'h' && Example[9][0] == 'x';
  }

  lemma ExampleDocIds()
    ensures Strip(Slice(Example[0], 2, |Example[0]|)) == "1"
    ensures Strip(Slice(Example[5], 2, |Example[5]|)) == "2"
  {
    assert Slice(Example[0], 2, 5) == " 1\n" && Slice(Example[5], 2, 5) == " 2\n";
    assert TrimStart(" 1\n") == "1\n" && TrimEnd("1\n") == "1";
    assert TrimStart(" 2\n") == "2\n" && TrimEnd("2\n") == "2";
  }

  lemma ExampleHeaders()
    ensures Slice(Example[3], 1, 2) == "W" && Slice(Example[8], 1, 2) == "T"
  {
  }

  lemma ExampleCats()
    ensures Cats(Example[2], 0) == ["a", "b"]
  {
    var line := Example[2];
    CatsNone(line, 8);
    CatsFound(line, 4, 5);
    CatsSkipSpace(line, 3);
    CatsFound(line, 0, 1);
    assert line[0..1] == "a" && line[4..5] == "b";
  }

  lemma ExampleNoCats()
    ensures Cats(Example[7], 0) == []
  {
    CatsNone(Example[7], 0);
  }

  lemma ExampleOpening()
    ensures Drive(StepFn(ExampleSections), Fields(None, [], None, None, []), Misc, Example, 0)
         == Drive(StepFn(ExampleSections), ExampleAtFirstText.(textlines := [], sectionheader := None), SectionHeader, Example, 3)
  {
    ExampleDotLines();
    ExampleDocIds();
    ExampleCats();
    DocumentOpens(ExampleSections, Fields(None, [], None, None, []), Example, 0);
  }

  lemma ExampleSectionW()
    ensures Drive(StepFn(ExampleSections), ExampleAtFirstText.(textlines := [], sectionheader := None), SectionHeader, Example, 3)
         == Drive(StepFn(ExampleSections), ExampleAtFirstText.(textlines := []), SectionText, Example, 4)
  {
    ExampleHeaders();
    SectionOpens(ExampleSections, ExampleAtFirstText.(textlines := [], sectionheader := None), Example, 3);
  }

  lemma ExampleFirstLine()
    ensures Drive(StepFn(ExampleSections), ExampleAtFirstText.(textlines := []), SectionText, Example, 4)
         == Drive(StepFn(ExampleSections), ExampleAtFirstText, SectionText, Example, 5)
  {
    var a := ExampleSections;
    var f3 := ExampleAtFirstText.(textlines := []);
    assert !StartsWith(Example[4], ".") by { assert Example[4][0] == 'h'; }
    assert Allowed(a, f3.sectionheader);
    TextLineKept(a, f3, Example[4]);
    assert f3.textlines + [Example[4]] == ExampleAtFirstText.textlines;
    TurnTo(a, f3, SectionText, Example, 4, ExampleAtFirstText, SectionText);
  }

  lemma ExampleFirstSection()
    ensures Drive(StepFn(ExampleSections), ExampleAtFirstText.(textlines := [], sectionheader := None), SectionHeader, Example, 3)
         == Drive(StepFn(ExampleSections), ExampleAtFirstText, SectionText, Example, 5)
  {
    ExampleSectionW();
    ExampleFirstLine();
  }

  lemma ExampleRestart()
    ensures Drive(StepFn(ExampleSections), ExampleAtFirstText, SectionText, Example, 5)
         == Drive(StepFn(ExampleSections), ExampleAtEnd.(sectionheader := None), SectionHeader, Example, 8)
  {
    ExampleDotLines();
    ExampleDocIds();
    ExampleNoCats();
    var a := ExampleSections;
    ConcatOne("hi\n");
    assert Flush(ExampleAtFirstText) == ExampleAtFirstText.(emitted := [ExampleFirst]);
    DotIEndsDocument(a, ExampleAtFirstText, Example, 5);
    DocumentOpens(a, Flush(ExampleAtFirstText), Example, 5);
  }

  lemma ExampleSecondSection()
    ensures Drive(StepFn(ExampleSections), ExampleAtEnd.(sectionheader := None), SectionHeader, Example, 8)
         == Halt(ExampleAtEnd, SectionText, 10, false)
  {
    ExampleDotLines();
    ExampleHeaders();
    var a := ExampleSections;
    SectionOpens(a, ExampleAtEnd.(sectionheader := None), Example, 8);
    assert !Allowed(a, ExampleAtEnd.sectionheader);
    TextLineDropped(a, ExampleAtEnd, Example[9]);
    TurnTo(a, ExampleAtEnd, SectionText, Example, 9, ExampleAtEnd, SectionText);
  }

  /** The first document is handed over when `.I 2` starts the second; the
      second kept no text, so the end of the input hands over nothing. */
  lemma ExampleDocuments()
    ensures Parsed(ExampleSections, Fields(None, [], None, None, []), Example) == Finished(ExampleAtEnd)
    ensures ExampleAtEnd.emitted == [Record(Some("1"), Some(["a", "b"]), "hi\n")]
  {
    ExampleOpening();
    ExampleFirstSection();
    ExampleRestart();
    ExampleSecondSection();
  }

  /** A run not followed by " 1" is skipped: `a b 1` yields only `b`. */
  lemma UnmatchedRunExample()
    ensures Cats("a b 1", 0) == ["b"]
  {
    var line := "a b 1";
    CatsNoMatch(line, 0, 1);
    CatsSkipSpace(line, 1);
    CatsFound(line, 2, 3);
    assert line[2..3] == "b";
  }

  /** A document still open at the end of the input. */
  const LastExample: seq<string> := [".I 7\n", ".C\n", "x 1\n", ".T\n", "z\n"]

  const LastAtEnd := Fields(Some("7"), ["z\n"], Some(["x"]), Some("T"), [])

  lemma LastExampleLines()
    ensures |LastExample| == 5
    ensures StartsWith(LastExample[0], ".I") && StartsWith(LastExample[1], ".C")
    ensures !StartsWith(LastExample[4], ".")
    ensures Strip(Slice(LastExample[0], 2, |LastExample[0]|)) == "7"
    ensures Slice(LastExample[3], 1, 2) == "T"
  {
    assert LastExample[4][0] == 'z';
    assert Slice(LastExample[0], 2, 5) == " 7\n";
    assert TrimStart(" 7\n") == "7\n" && TrimEnd("7\n") == "7";
  }

  lemma LastExampleCats()
    ensures Cats(LastExample[2], 0) == ["x"]
  {
    var line := LastExample[2];
    CatsNone(line, 3);
    CatsFound(line, 0, 1);
    assert line[0..1] == "x";
  }

  lemma LastDocumentOpens()
    ensures Drive(StepFn(None), Fields(None, [], None, None, []), Misc, LastExample, 0)
         == Drive(StepFn(None), LastAtEnd.(textlines := []), SectionText, LastExample, 4)
  {
    LastExampleLines();
    LastExampleCats();
    DocumentOpens(None, Fields(None, [], None, None, []), LastExample, 0);
    SectionOpens(None, LastAtEnd.(textlines := [], sectionheader := None), LastExample, 3);
  }

  lemma LastDocumentText()
    ensures Drive(StepFn(None), LastAtEnd.(textlines := []), SectionText, LastExample, 4)
         == Halt(LastAtEnd, SectionText, 5, false)
  {
    var f3 := LastAtEnd.(textlines := []);
    assert !StartsWith(LastExample[4], ".") by { assert LastExample[4][0] == 'z'; }
    TextLineKept(None, f3, LastExample[4]);
    assert f3.textlines + [LastExample[4]] == LastAtEnd.textlines;
    TurnTo(None, f3, SectionText, LastExample, 4, LastAtEnd, SectionText);
  }

  /** With no section list every section is kept, and the last document is
      handed over by `onFinish`. */
  lemma LastDocumentFlushed()
    ensures Parsed(None, Fields(None, [], None, None, []), LastExample)
         == Finished(LastAtEnd.(emitted := [Record(Some("7"), Some(["x"]), "z\n")]))
  {
    LastDocumentOpens();
    LastDocumentText();
    ConcatOne("z\n");
    assert Flush(LastAtEnd) == LastAtEnd.(emitted := [Record(Some("7"), Some(["x"]), "z\n")]);
  }

  class SmartParser {
    var docid: Option<string>
    var cats: Option<seq<string>>
    var textlines: seq<string>
    var sectionheader: Option<string>
    var emitted: seq<Record>
    const callback: Callback
    const allowedsections: Option<seq<string>>

    function Current(): Fields
      reads this
    {
      Fields(docid, textlines, cats, sectionheader, emitted)
    }

    constructor (callback: Callback, sections: Option<seq<string>>)
      ensures Current() == Fields(None, [], None, None, [])
      ensures this.callback == callback && allowedsections == sections
    {
      docid := None;
      cats := None;
      textlines := [];
      sectionheader := None;
      emitted := [];
      this.callback := callback;
      allowedsections := sections;
    }

    method OnMisc(line: string) returns (t: Transition<State>)
      modifies this
      ensures (Current(), t) == MiscStep(old(Current()), line)
    {
      t := Stay;
      if StartsWith(line, ".I") {
        docid := Some(Strip(Slice(line, 2, |line|)));
        textlines := [];
        cats := None;
        sectionheader := None;
        t := Goto(GotDocId);
      }
    }

    method OnGotDocId(line: string) returns (t: Transition<State>)
      ensures t == GotDocIdStep(line)
    {
      t := Stay;
      if StartsWith(line, ".C") {
        t := Goto(SawDotC);
      }
    }

    method OnSawDotC(line: string) returns (t: Transition<State>)
      modifies this
      ensures (Current(), t) == SawDotCStep(old(Current()), line)
    {
      cats := Some(Cats(line, 0));
      t := Goto(SectionHeader);
    }

    method OnSectionHeader(line: string) returns (t: Transition<State>)
      modifies this
      ensures (Current(), t) == SectionHeaderStep(old(Current()), line)
    {
      sectionheader := Some(Slice(line, 1, 2));
      t := Goto(SectionText);
    }

    method OnSectionText(line: string) returns (t: Transition<State>)
      modifies this
      ensures (Current(), t) == SectionTextStep(allowedsections, old(Current()), line)
    {
      if StartsWith(line, ".") {
        if StartsWith(line, ".I") {
          DoCallBack();
          t := OnMisc(line);
        } else {
          t := OnSectionHeader(line);
        }
        return;
      }
      if !Allowed(allowedsections, sectionheader) {
        return Stay;
      }
      textlines := textlines + [line];
      t := Stay;
    }

    method OnFinish(line: string)
      modifies this
      ensures Current() == Finish(old(Current()), line)
    {
      DoCallBack();
    }

    method DoCallBack()
      modifies this
      ensures Current() == Flush(old(Current()))
    {
      if |textlines| > 0 {
        var text := Concat(textlines);
        emitted := emitted + [Record(docid, cats, text)];
        var _ := callback(docid, cats, text);
      }
    }

    method Dispatch(s: State, line: string) returns (t: Transition<State>)
      modifies this
      ensures (Current(), t) == Step(allowedsections, old(Current()), s, line)
    {
      match s
      case Misc => t := OnMisc(line);
      case GotDocId => t := OnGotDocId(line);
      case SawDotC => t := OnSawDotC(line);
      case SectionHeader => t := OnSectionHeader(line);
      case SectionText => t := OnSectionText(line);
    }

    method Parse(lines: seq<string>) returns (ok: bool)
      modifies this
      ensures ok <==> lines != []
      ensures !ok ==> Current() == old(Current())
      ensures ok ==> Parsed(allowedsections, old(Current()), lines) == Finished(Current())
    {
      if lines == [] {
        return false;
      }
      var step := StepFn(allowedsections);
      var state := Misc;
      var i := 0;
      var stopped := false;
      while i < |lines| && !stopped
        invariant 0 <= i <= |lines|
        invariant stopped ==> 1 <= i && Drive(step, old(Current()), Misc, lines, 0) == Halt(Current(), state, i, true)
        invariant !stopped ==> Drive(step, old(Current()), Misc, lines, 0) == Drive(step, Current(), state, lines, i)
      {
        ghost var before := Current();
        var t := Dispatch(state, lines[i]);
        ApplyStep(allowedsections, before, state, lines[i]);
        DriveTurn(step, before, state, lines, i);
        i := i + 1;
        match t
        case Stop => stopped := true;
        case Stay =>
        case Goto(next) => state := next;
      }
      OnFinish(lines[i - 1]);
      return true;
    }
  }
}
