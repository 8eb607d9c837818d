/** Appending a fix at the end of the plan's tasks. */
module PlanFix {
  import opened Text
  import opened LineStream
  import opened PlanText
  import opened PlanDocument
  import opened PlanLayout

  const DEFAULT_FILES := "TBD"
  const DEFAULT_APPROACH := "Patch the smallest " + "relevant surface and " + "rerun verification."

  function FixLine(task: string): string {
    OPEN_BOX + ("[Fix] " + task)
  }

  function FilesLine(files: string): string {
    "  - Files: " + (if files == "" then DEFAULT_FILES else files)
  }

  function ApproachLine(approach: string): string {
    "  - Approach: " + (if approach == "" then DEFAULT_APPROACH else approach)
  }

  function FixBlock(task: string, files: string, approach: string): string {
    FixLine(task) + "\n" + (FilesLine(files) + "\n" + (ApproachLine(approach) + "\n"))
  }

  /** Where the next section after the tasks heading begins, one character past its start. */
  function CutAfterTasks(plan: string): Cut {
    CutMeans(plan, TASKS);
    match CutAt(plan, TASKS)
    case Absent => CutAt(plan, "\n" + SECTION)
    case At(before, rest) => After(before + rest[..1], CutAt(rest[1..], "\n" + SECTION))
  }

  /** Appends a fix at the end of the tasks. */
  function AppendFix(plan: string, task: string, files: string, approach: string): string {
    match CutAfterTasks(plan)
    case Absent => Trim(plan) + "\n" + FixBlock(task, files, approach)
    case At(before, rest) => Trim(before) + "\n" + FixBlock(task, files, approach) + rest
  }

  predicate AllSpace(s: string) {
    s == "" || (IsSpace(s[|s| - 1]) && AllSpace(s[..|s| - 1]))
  }

  lemma {:induction false} TrimEndDrops(x: string, space: string)
    requires AllSpace(space) && x != "" && !IsSpace(x[|x| - 1])
    ensures TrimEnd(x + space) == x
  {
    if space == "" {
      assert x + space == x;
    } else {
      assert (x + space)[..|x + space| - 1] == x + space[..|space| - 1];
      TrimEndDrops(x, space[..|space| - 1]);
    }
  }

  lemma TrimDrops(x: string, space: string)
    requires AllSpace(space) && x != "" && !IsSpace(x[0]) && !IsSpace(x[|x| - 1])
    ensures Trim(x + space) == x
  {
    TrimStartDrops(x + space);
    assert (x + space)[0] == x[0];
    TrimEndDrops(x, space);
  }

  predicate Blank(lines: seq<string>) {
    lines == [] || (AllSpace(lines[0]) && Blank(lines[1..]))
  }

  lemma {:induction false} AllSpaceJoin(a: string, b: string)
    requires AllSpace(a) && AllSpace(b)
    ensures AllSpace(a + b)
  {
    if b == "" {
      assert a + b == a;
    } else {
      assert (a + b)[..|a + b| - 1] == a + b[..|b| - 1];
      AllSpaceJoin(a, b[..|b| - 1]);
    }
  }

  lemma {:induction false} BlankJoin(lines: seq<string>)
    requires Blank(lines)
    ensures AllSpace(Join(lines))
  {
    if |lines| > 1 {
      BlankJoin(lines[1..]);
      assert AllSpace("\n") by { assert "\n"[..0] == ""; }
      AllSpaceJoin(lines[0], "\n");
      AllSpaceJoin(lines[0] + "\n", Join(lines[1..]));
    }
  }

  /** The blank lines below the tasks. */
  function Gap(blank: seq<string>): string {
    if blank == [] then "" else "\n" + Join(blank)
  }

  lemma GapIsSpace(blank: seq<string>)
    requires Blank(blank)
    ensures AllSpace(Gap(blank))
  {
    if blank != [] {
      BlankJoin(blank);
      assert AllSpace("\n") by { assert "\n"[..0] == ""; }
      AllSpaceJoin("\n", Join(blank));
    }
  }

  lemma {:induction false} JoinEnds(lines: seq<string>)
    requires lines != [] && lines[|lines| - 1] != ""
    ensures Join(lines) != "" && Join(lines)[|Join(lines)| - 1] == lines[|lines| - 1][|lines[|lines| - 1]| - 1]
  {
    if |lines| > 1 {
      assert lines[1..][|lines| - 2] == lines[|lines| - 1];
      JoinEnds(lines[1..]);
    }
  }

  lemma HashFirst(d: Doc)
    ensures var inner := Join(["# Tasks"] + d.tasks);
            && TaskPart(d) == "#" + inner
            && FromTasks(d)[..1] == "#" && FromTasks(d)[1..] == inner + "\n" + FromMiddle(d)
  {
    JoinPrefix("#", "# Tasks", d.tasks);
    assert "#" + "# Tasks" == TASKS;
    var inner := Join(["# Tasks"] + d.tasks);
    assert "#" + inner + "\n" + FromMiddle(d) == "#" + (inner + "\n" + FromMiddle(d));
    Prefixed("#", inner + "\n" + FromMiddle(d));
  }

  lemma CutsNextSection(d: Doc)
    requires Readable(d)
    ensures CutAfterTasks(Render(d)) == At(d.head + "\n" + TaskPart(d), "\n" + FromMiddle(d))
  {
    HeadingsArePlain();
    CutsTasks(d);
    HashFirst(d);
    Prefixed(SECTION, d.middle[|SECTION|..]);
    CutAtSection("# Tasks", d.tasks, FromMiddle(d), SECTION);
    AfterHash(d.head + "\n", Join(["# Tasks"] + d.tasks), "\n" + FromMiddle(d));
  }

  lemma AfterHash(head: string, inner: string, rest: string)
    ensures After(head + "#", At(inner, rest)) == At(head + ("#" + inner), rest)
  {
    assert head + "#" + inner == head + ("#" + inner);
  }

  /** The lines a fix adds below the tasks. */
  function FixLines(task: string, files: string, approach: string): seq<string> {
    [FixLine(task), FilesLine(files), ApproachLine(approach), ""]
  }

  lemma JoinFix(task: string, files: string, approach: string)
    ensures Join(FixLines(task, files, approach)) == FixBlock(task, files, approach)
  {
    var fix, file, how := FixLine(task), FilesLine(files), ApproachLine(approach);
    assert Join([how, ""]) == how + "\n" by { assert [how, ""][1..] == [""] && how + "\n" + "" == how + "\n"; }
    assert Join([file, how, ""]) == file + "\n" + (how + "\n") by { assert [file, how, ""][1..] == [how, ""]; }
    assert FixLines(task, files, approach)[1..] == [file, how, ""];
  }

  lemma JoinGap(lines: seq<string>, blank: seq<string>)
    requires lines != []
    ensures Join(lines + blank) == Join(lines) + Gap(blank)
  {
    if blank == [] {
      assert lines + blank == lines && Join(lines) + "" == Join(lines);
    } else {
      JoinAppend(lines, blank);
      assert Join(lines) + ("\n" + Join(blank)) == Join(lines) + "\n" + Join(blank);
    }
  }

  /** The tasks end in a line that does not end in space, with only blank lines below, and
      the document starts with a character that is no space. */
  predicate Settled(d: Doc, body: seq<string>, blank: seq<string>) {
    && d.tasks == body + blank && Blank(blank)
    && body != [] && body[|body| - 1] != "" && !IsSpace(body[|body| - 1][|body[|body| - 1]| - 1])
    && d.head != "" && !IsSpace(d.head[0])
  }

  lemma TrimsToBody(d: Doc, body: seq<string>, blank: seq<string>)
    requires Settled(d, body, blank)
    ensures Trim(d.head + "\n" + TaskPart(d)) == d.head + "\n" + Join([TASKS] + body)
  {
    TaskPartGap(d, body, blank);
    BodyEnds(body);
    GapIsSpace(blank);
    TrimsTo(d.head, Join([TASKS] + body), Gap(blank));
  }

  lemma TaskPartGap(d: Doc, body: seq<string>, blank: seq<string>)
    requires d.tasks == body + blank
    ensures TaskPart(d) == Join([TASKS] + body) + Gap(blank)
  {
    assert [TASKS] + d.tasks == ([TASKS] + body) + blank;
    JoinGap([TASKS] + body, blank);
  }

  lemma BodyEnds(body: seq<string>)
    requires body != [] && body[|body| - 1] != "" && !IsSpace(body[|body| - 1][|body[|body| - 1]| - 1])
    ensures var text := Join([TASKS] + body); text != "" && !IsSpace(text[|text| - 1])
  {
    var lines := [TASKS] + body;
    assert lines[|lines| - 1] == body[|body| - 1];
    JoinEnds(lines);
  }

  lemma TrimsTo(head: string, text: string, space: string)
    requires head != "" && !IsSpace(head[0]) && text != "" && !IsSpace(text[|text| - 1]) && AllSpace(space)
    ensures Trim(head + "\n" + (text + space)) == head + "\n" + text
  {
    var x := head + "\n" + text;
    assert x[0] == head[0] && x[|x| - 1] == text[|text| - 1];
    assert head + "\n" + (text + space) == x + space;
    TrimDrops(x, space);
  }

  /** The document with the fix below its tasks. */
  function Fixed(d: Doc, body: seq<string>, task: string, files: string, approach: string): Doc {
    d.(tasks := body + FixLines(task, files, approach))
  }

  lemma AppendsBelowTasks(d: Doc, body: seq<string>, blank: seq<string>, task: string, files: string, approach: string)
    requires Readable(d) && Settled(d, body, blank)
    ensures AppendFix(Render(d), task, files, approach) == Render(Fixed(d, body, task, files, approach))
  {
    CutsNextSection(d);
    TrimsToBody(d, body, blank);
    FixedTaskPart(d, body, FixLines(task, files, approach));
    JoinFix(task, files, approach);
    FixedText(d.head, Join([TASKS] + body), FixBlock(task, files, approach), FromMiddle(d));
  }

  lemma FixedTaskPart(d: Doc, body: seq<string>, fix: seq<string>)
    requires fix != []
    ensures var f := d.(tasks := body + fix);
            TaskPart(f) == Join([TASKS] + body) + "\n" + Join(fix) && FromMiddle(f) == FromMiddle(d)
  {
    assert [TASKS] + (body + fix) == ([TASKS] + body) + fix;
    JoinAppend([TASKS] + body, fix);
  }

  lemma FixedText(head: string, body: string, block: string, middle: string)
    ensures head + "\n" + body + "\n" + block + ("\n" + middle) == head + "\n" + ((body + "\n" + block) + "\n" + middle)
  {
  }

  predicate OneLiners(task: string, files: string, approach: string) {
    Plain(task) && Plain(files) && Plain(approach)
  }

  lemma FixLinePlain(task: string)
    requires Plain(task)
    ensures Plain(FixLine(task))
  {
    PlainTogether("[Fix] ", task);
    PlainTogether(OPEN_BOX, "[Fix] " + task);
  }

  lemma FilesLinePlain(files: string)
    requires Plain(files)
    ensures Plain(FilesLine(files))
  {
    PlainTogether("  - Files: ", if files == "" then DEFAULT_FILES else files);
  }

  lemma DefaultApproachPlain()
    ensures Plain(DEFAULT_APPROACH)
  {
    PlainTogether("Patch the smallest ", "relevant surface and ");
    PlainTogether("Patch the smallest " + "relevant surface and ", "rerun verification.");
  }

  lemma ApproachLinePlain(approach: string)
    requires Plain(approach)
    ensures Plain(ApproachLine(approach))
  {
    DefaultApproachPlain();
    PlainTogether("  - Approach: ", if approach == "" then DEFAULT_APPROACH else approach);
  }

  lemma FixLinesPlain(task: string, files: string, approach: string)
    requires OneLiners(task, files, approach)
    ensures AllPlain(FixLines(task, files, approach))
  {
    FixLinePlain(task);
    FilesLinePlain(files);
    ApproachLinePlain(approach);
    AllFourPlain(FixLine(task), FilesLine(files), ApproachLine(approach));
  }

  lemma AllFourPlain(a: string, b: string, c: string)
    requires Plain(a) && Plain(b) && Plain(c)
    ensures AllPlain([a, b, c, ""])
  {
  }

  lemma FixLineIsTask(task: string)
    ensures IsOpen(FixLine(task)) && IsTask(FixLine(task)) && TaskText(FixLine(task)) == Trim("[Fix] " + task)
  {
    Prefixed(OPEN_BOX, "[Fix] " + task);
  }

  lemma FieldsAreNoBoxes(files: string, approach: string)
    ensures !IsBox(FilesLine(files)) && !IsBox(ApproachLine(approach)) && !IsBox("")
  {
    assert FilesLine(files)[0] == ' ' && ApproachLine(approach)[0] == ' ' && OPEN_BOX[0] == '-' && DONE_BOX[0] == '-';
  }

  lemma IndentedFields(files: string, approach: string)
    ensures "- Files:" <= TrimStart(FilesLine(files)) && "- Approach:" <= TrimStart(ApproachLine(approach))
    ensures !IsSection(FilesLine(files)) && !IsSection(ApproachLine(approach)) && !IsSection("")
    ensures !(SECTION <= FilesLine(files)) && !(SECTION <= ApproachLine(approach)) && !(SECTION <= "")
  {
    Indented("- Files: ", if files == "" then DEFAULT_FILES else files);
    Indented("- Approach: ", if approach == "" then DEFAULT_APPROACH else approach);
    assert "  - Files: " == "  " + "- Files: " && "  - Approach: " == "  " + "- Approach: ";
  }

  lemma Indented(field: string, value: string)
    requires field != "" && field[0] == '-'
    ensures TrimStart("  " + field + value) == field + value
    ensures !IsSection("  " + field + value) && !(SECTION <= "  " + field + value)
  {
    var line := "  " + field + value;
    assert line[1..] == " " + (field + value) && line[1..][1..] == field + value;
    TrimStartDrops(field + value);
    assert TrimStart(line) == TrimStart(line[1..]) == TrimStart(line[1..][1..]);
    TrimEndKeepsFirst(field + value);
    assert line[0] == ' ';
  }

  // ---------- what a fix changes ----------

  /** The tasks, checked and unchecked, as the readers see them. */
  lemma {:induction false} BoxesJoin(a: seq<string>, b: seq<string>)
    ensures CriteriaIn(a + b) == CriteriaIn(a) + CriteriaIn(b)
  {
    if a == [] {
      assert a + b == b && CriteriaIn(a) + CriteriaIn(b) == CriteriaIn(b);
    } else {
      assert (a + b)[1..] == a[1..] + b;
      BoxesJoin(a[1..], b);
      BoxesStep(a, b, CriteriaIn(a[1..]), CriteriaIn(b));
    }
  }

  lemma BoxesStep(a: seq<string>, b: seq<string>, rest: seq<Criterion>, others: seq<Criterion>)
    requires a != [] && CriteriaIn(a[1..]) == rest && CriteriaIn((a + b)[1..]) == rest + others
    ensures CriteriaIn(a + b) == CriteriaIn(a) + others
  {
    var box := Criterion(DONE_BOX <= a[0], TaskText(a[0]));
    assert [box] + (rest + others) == [box] + rest + others;
  }

  lemma SpaceIsNoBox(line: string)
    requires AllSpace(line)
    ensures !IsBox(line) && !IsOpen(line)
  {
    if line != "" { AllSpaceFirst(line); }
  }

  lemma {:induction false} AllSpaceFirst(line: string)
    requires AllSpace(line) && line != ""
    ensures IsSpace(line[0])
  {
    if |line| > 1 {
      AllSpaceFirst(line[..|line| - 1]);
    }
  }

  lemma {:induction false} BlankHasNothing(blank: seq<string>)
    requires Blank(blank)
    ensures CriteriaIn(blank) == [] && FirstOpen(blank) == |blank|
  {
    if blank != [] {
      SpaceIsNoBox(blank[0]);
      BlankHasNothing(blank[1..]);
    }
  }

  lemma {:induction false} FirstOpenJoin(a: seq<string>, b: seq<string>)
    ensures FirstOpen(a) <= |a|
    ensures FirstOpen(a + b) == if FirstOpen(a) < |a| then FirstOpen(a) else |a| + FirstOpen(b)
  {
    if a == [] {
      assert a + b == b;
    } else {
      assert (a + b)[1..] == a[1..] + b;
      FirstOpenJoin(a[1..], b);
    }
  }

  lemma FixBoxes(task: string, files: string, approach: string)
    ensures CriteriaIn(FixLines(task, files, approach)) == [Criterion(false, Trim("[Fix] " + task))]
    ensures FirstOpen(FixLines(task, files, approach)) == 0
  {
    FixLineIsTask(task);
    FieldsAreNoBoxes(files, approach);
    var how := ApproachLine(approach);
    assert [how, ""][1..] == [""] && [""][1..] == [];
    assert CriteriaIn([how, ""]) == [];
    assert [FilesLine(files), how, ""][1..] == [how, ""];
    assert FixLines(task, files, approach)[1..] == [FilesLine(files), how, ""];
    assert FixLine(task)[3] == ' ' && DONE_BOX[3] == 'x';
  }

  /** A fix adds one unchecked task after all others; the current task stays, if there was
      one, and otherwise is the fix. */
  lemma FixIsLastTask(d: Doc, body: seq<string>, blank: seq<string>, task: string, files: string, approach: string)
    requires Settled(d, body, blank)
    ensures var f := Fixed(d, body, task, files, approach);
            && CriteriaIn(f.tasks) == CriteriaIn(d.tasks) + [Criterion(false, Trim("[Fix] " + task))]
            && (FirstOpen(d.tasks) < |d.tasks| ==> FirstOpen(f.tasks) == FirstOpen(d.tasks) < |body|)
            && (FirstOpen(d.tasks) == |d.tasks| ==> FirstOpen(f.tasks) == |body| && f.tasks[|body|] == FixLine(task))
  {
    BlankHasNothing(blank);
    BoxesJoin(body, blank);
    BoxesJoin(body, FixLines(task, files, approach));
    FixBoxes(task, files, approach);
    FirstOpenJoin(body, blank);
    FirstOpenJoin(body, FixLines(task, files, approach));
    assert CriteriaIn(body) + [] == CriteriaIn(body);
  }

  // ---------- a fix keeps the plan valid ----------

  lemma {:induction false} SpaceTrims(s: string)
    requires AllSpace(s)
    ensures TrimStart(s) == ""
  {
    if s != "" {
      AllSpaceFirst(s);
      AllSpaceRest(s);
      SpaceTrims(s[1..]);
    }
  }

  lemma {:induction false} AllSpaceRest(s: string)
    requires AllSpace(s) && s != ""
    ensures AllSpace(s[1..])
  {
    if |s| > 1 {
      AllSpaceRest(s[..|s| - 1]);
      assert s[1..][..|s| - 2] == s[..|s| - 1][1..];
    }
  }

  /** What a block holds does not depend on the blank lines, or the next box, below the body. */
  lemma {:induction false} BlockWithinBody(a: seq<string>, blank: seq<string>, fix: seq<string>, field: string)
    requires Blank(blank) && fix != [] && IsBox(fix[0]) && field != ""
    ensures Mentions(UntilBox(a + blank), field) == Mentions(UntilBox(a), field)
    ensures UntilBox(a + fix) == UntilBox(a)
  {
    if a == [] {
      assert a + blank == blank && a + fix == fix;
      BlankUntilBox(blank, field);
    } else {
      assert (a + blank)[1..] == a[1..] + blank && (a + fix)[1..] == a[1..] + fix;
      BlockWithinBody(a[1..], blank, fix, field);
      if !IsBox(a[0]) { MentionsFirst(a[0], UntilBox(a[1..] + blank), UntilBox(a[1..]), field); }
    }
  }

  lemma MentionsFirst(line: string, x: seq<string>, y: seq<string>, field: string)
    requires Mentions(x, field) == Mentions(y, field)
    ensures Mentions([line] + x, field) == Mentions([line] + y, field)
  {
    assert ([line] + x)[1..] == x && ([line] + y)[1..] == y;
  }

  lemma {:induction false} BlankUntilBox(blank: seq<string>, field: string)
    requires Blank(blank) && field != ""
    ensures !Mentions(UntilBox(blank), field)
  {
    if blank != [] {
      SpaceIsNoBox(blank[0]);
      SpaceTrims(blank[0]);
      BlankUntilBox(blank[1..], field);
      assert ([blank[0]] + UntilBox(blank[1..]))[1..] == UntilBox(blank[1..]);
    }
  }

  lemma BodyBlockKept(body: seq<string>, blank: seq<string>, fix: seq<string>, i: nat, field: string)
    requires Blank(blank) && fix != [] && IsBox(fix[0]) && field != "" && i < |body|
    ensures Mentions(BlockAt(body + fix, i), field) == Mentions(BlockAt(body + blank, i), field)
  {
    assert (body + fix)[i + 1..] == body[i + 1..] + fix && (body + blank)[i + 1..] == body[i + 1..] + blank;
    BlockWithinBody(body[i + 1..], blank, fix, field);
    MentionsFirst(body[i], UntilBox(body[i + 1..] + fix), UntilBox(body[i + 1..] + blank), field);
  }

  lemma FixBlockComplete(body: seq<string>, task: string, files: string, approach: string)
    ensures var lines := body + FixLines(task, files, approach);
            forall i :: |body| <= i < |lines| ==> BlockComplete(lines, i)
    ensures IsTask((body + FixLines(task, files, approach))[|body|])
  {
    var fix := FixLines(task, files, approach);
    var lines := body + fix;
    FixLineIsTask(task);
    FieldsAreNoBoxes(files, approach);
    IndentedFields(files, approach);
    FixBlockLines(task, files, approach);
    assert lines[|body| + 1..] == fix[1..];
    assert BlockComplete(lines, |body|);
    assert lines[|body| + 1] == FilesLine(files) && lines[|body| + 2] == ApproachLine(approach);
    assert lines[|body| + 3] == "";
  }

  lemma FixBlockLines(task: string, files: string, approach: string)
    ensures var block := [FixLine(task)] + UntilBox(FixLines(task, files, approach)[1..]);
            Mentions(block, "- Files:") && Mentions(block, "- Approach:")
  {
    var how := ApproachLine(approach);
    FieldsAreNoBoxes(files, approach);
    IndentedFields(files, approach);
    assert FixLines(task, files, approach)[1..] == [FilesLine(files), how, ""];
    assert [FilesLine(files), how, ""][1..] == [how, ""] && [how, ""][1..] == [""];
    var rest := UntilBox([how, ""]);
    assert rest[0] == how;
    assert UntilBox([FilesLine(files), how, ""]) == [FilesLine(files)] + rest;
    assert ([FilesLine(files)] + rest)[1..] == rest;
    assert ([FixLine(task)] + ([FilesLine(files)] + rest))[1..] == [FilesLine(files)] + rest;
  }

  lemma FixKeepsValid(d: Doc, body: seq<string>, blank: seq<string>, task: string, files: string, approach: string)
    requires Settled(d, body, blank) && TasksValid(d.tasks)
    ensures TasksValid(Fixed(d, body, task, files, approach).tasks)
  {
    var fix := FixLines(task, files, approach);
    var lines := body + fix;
    FixLineIsTask(task);
    FixBlockComplete(body, task, files, approach);
    forall i | 0 <= i < |body| ensures BlockComplete(lines, i) {
      assert BlockComplete(d.tasks, i) && lines[i] == d.tasks[i];
      BodyBlockKept(body, blank, fix, i, "- Files:");
      BodyBlockKept(body, blank, fix, i, "- Approach:");
    }
    assert IsTask(lines[|body|]);
  }

  lemma {:induction false} AppendReadable(body: seq<string>, blank: seq<string>, fix: seq<string>)
    requires NoneStarts(body + blank, SECTION) && NoneSection(body + blank)
    requires NoneStarts(fix, SECTION) && NoneSection(fix)
    ensures NoneStarts(body + fix, SECTION) && NoneSection(body + fix)
  {
    if body == [] {
      assert body + fix == fix;
    } else {
      assert (body + blank)[1..] == body[1..] + blank && (body + fix)[1..] == body[1..] + fix;
      AppendReadable(body[1..], blank, fix);
    }
  }

  lemma FixLinesNoSection(task: string, files: string, approach: string)
    ensures NoneStarts(FixLines(task, files, approach), SECTION) && NoneSection(FixLines(task, files, approach))
  {
    FixLineIsTask(task);
    BoxIsNoSection(FixLine(task));
    IndentedFields(files, approach);
    assert FixLine(task)[0] == '-';
    var how := ApproachLine(approach);
    assert FixLines(task, files, approach)[1..] == [FilesLine(files), how, ""];
    assert [FilesLine(files), how, ""][1..] == [how, ""] && [how, ""][1..] == [""] && [""][1..] == [];
    assert NoneStarts([how, ""], SECTION) && NoneSection([how, ""]);
  }

  lemma FixedReadable(d: Doc, body: seq<string>, blank: seq<string>, task: string, files: string, approach: string)
    requires Readable(d) && Settled(d, body, blank) && OneLiners(task, files, approach)
    ensures Readable(Fixed(d, body, task, files, approach))
  {
    FixLinesPlain(task, files, approach);
    FixLinesNoSection(task, files, approach);
    AppendReadable(body, blank, FixLines(task, files, approach));
    forall i | 0 <= i < |body| ensures Plain(body[i]) {
      assert body[i] == d.tasks[i];
    }
  }

  lemma CurrentAfterFix(d: Doc, body: seq<string>, blank: seq<string>, task: string, files: string, approach: string)
    requires Settled(d, body, blank)
    ensures var before, after := OpenTask(d.tasks), OpenTask(Fixed(d, body, task, files, approach).tasks);
            after.Some? && after.value.text == if before.Some? then before.value.text else Trim("[Fix] " + task)
  {
    FixIsLastTask(d, body, blank, task, files, approach);
    FixLineIsTask(task);
    FirstOpenJoin(d.tasks, []);
  }

  /** Appending a fix to a valid plan: the plan stays valid, the acceptance criteria and all
      tasks read as before, and the fix is one more unchecked task at the end. */
  lemma AppendFixAddsOneTask(d: Doc, body: seq<string>, blank: seq<string>, task: string, files: string,
                             approach: string, namesIssue: string -> bool)
    requires Readable(d) && Titled(d, namesIssue) && Settled(d, body, blank) && OneLiners(task, files, approach)
    requires Valid(Render(d), namesIssue)
    ensures var plan := AppendFix(Render(d), task, files, approach);
            && Valid(plan, namesIssue)
            && AcceptanceCriteria(plan) == AcceptanceCriteria(Render(d))
            && CriteriaIn(TaskLines(plan))
               == CriteriaIn(TaskLines(Render(d))) + [Criterion(false, Trim("[Fix] " + task))]
            && OpenTask(TaskLines(plan)).Some?
            && OpenTask(TaskLines(plan)).value.text
               == if OpenTask(TaskLines(Render(d))).Some?
                  then OpenTask(TaskLines(Render(d))).value.text
                  else Trim("[Fix] " + task)
  {
    var f := Fixed(d, body, task, files, approach);
    AppendsBelowTasks(d, body, blank, task, files, approach);
    FixedReadable(d, body, blank, task, files, approach);
    ReadsDocument(d, namesIssue);
    ReadsDocument(f, namesIssue);
    FixKeepsValid(d, body, blank, task, files, approach);
    FixIsLastTask(d, body, blank, task, files, approach);
    CurrentAfterFix(d, body, blank, task, files, approach);
  }
}
