/** Marking a task done: an edit of the plan's text, and the tool around it. */
module PlanMarking {
  import opened Text
  import opened LineStream
  import opened PlanText
  import opened PlanDocument
  import opened PlanLayout

  datatype Edit = Edited(plan: string) | MissingTasks | TaskNotFound | MissingLog | NotFirstTask

  // ---------- the edit ----------

  function Flip(line: string): string
    requires IsOpen(line)
  {
    DONE_BOX + line[6..]
  }

  predicate Marks(line: string, prefix: string) {
    IsOpen(line) && prefix <= line[6..]
  }

  function FirstMatch(lines: seq<string>, prefix: string): nat {
    if lines == [] || Marks(lines[0], prefix) then 0 else 1 + FirstMatch(lines[1..], prefix)
  }

  /** The spaces a text starts with. */
  function Leading(s: string): string {
    if s != "" && IsSpace(s[0]) then [s[0]] + Leading(s[1..]) else ""
  }

  /** What `replace` makes of a replacement text: `$` patterns stand for parts of the match. */
  function Expand(log: string, matched: string, before: string, after: string): string {
    if log == "" then ""
    else if |log| >= 2 && log[0] == '$' then
      if log[1] == '$' then "$" + Expand(log[2..], matched, before, after)
      else if log[1] == '&' || log[1] == '1' then matched + Expand(log[2..], matched, before, after)
      else if log[1] == '`' then before + Expand(log[2..], matched, before, after)
      else if log[1] == '\'' then after + Expand(log[2..], matched, before, after)
      else if log[1] == '0' && |log| >= 3 && log[2] == '1' then matched + Expand(log[3..], matched, before, after)
      else "$" + Expand(log[1..], matched, before, after)
    else [log[0]] + Expand(log[1..], matched, before, after)
  }

  /** A log entry goes below the heading and the blank space that follows it. */
  function InsertEntry(tail: string, entry: string): string {
    Leading(tail) + ("\n" + entry + "\n" + TrimStart(tail))
  }

  function Logged(updated: string, log: string): Edit {
    CutMeans(updated, LOG);
    match CutAt(updated, LOG)
    case Absent => MissingLog
    case At(before, rest) =>
      var tail := rest[|LOG|..];
      var entry := Expand(Trim(log), LOG + Leading(tail), before, TrimStart(tail));
      Edited(before + (LOG + InsertEntry(tail, entry)))
  }

  /** The tasks text, from its heading to the next section, and what follows it. */
  function TasksText(rest: string): (string, string)
    requires TASKS <= rest
  {
    match CutAt(rest[|TASKS|..], "\n" + SECTION)
    case Absent => (rest, "")
    case At(inner, after) => (TASKS + inner, after)
  }

  function Marked(plan: string, prefix: string, log: string): Edit {
    CutMeans(plan, TASKS);
    match CutAt(plan, TASKS)
    case Absent => MissingTasks
    case At(before, rest) =>
      var (tasks, after) := TasksText(rest);
      var lines := SplitLines(tasks);
      FirstMatchMeans(lines, prefix);
      var index := FirstMatch(lines, prefix);
      if index == |lines| then TaskNotFound
      else Logged(before + Join(lines[index := Flip(lines[index])]) + after, log)
  }

  lemma {:induction false} FirstMatchMeans(lines: seq<string>, prefix: string)
    ensures FirstMatch(lines, prefix) <= |lines|
    ensures FirstMatch(lines, prefix) < |lines| ==> Marks(lines[FirstMatch(lines, prefix)], prefix)
    ensures forall i :: 0 <= i < FirstMatch(lines, prefix) ==> !Marks(lines[i], prefix)
  {
    if lines != [] && !Marks(lines[0], prefix) { FirstMatchMeans(lines[1..], prefix); }
  }

  method FindTask(lines: seq<string>, prefix: string) returns (index: nat)
    ensures index == FirstMatch(lines, prefix) <= |lines|
  {
    index := 0;
    while index < |lines| && !Marks(lines[index], prefix)
      invariant index <= |lines| && FirstMatch(lines, prefix) == index + FirstMatch(lines[index..], prefix)
    {
      assert lines[index..][1..] == lines[index + 1..];
      index := index + 1;
    }
  }

  /** Checks the box of the first unchecked task that starts with the prefix, and logs it. */
  method MarkDone(plan: string, prefix: string, log: string) returns (r: Edit)
    ensures r == Marked(plan, prefix, log)
  {
    var cut := CutAt(plan, TASKS);
    if cut.Absent? { return MissingTasks; }
    CutMeans(plan, TASKS);
    var (tasks, after) := TasksText(cut.rest);
    var lines := SplitLines(tasks);
    var index := FindTask(lines, prefix);
    if index == |lines| { return TaskNotFound; }
    FirstMatchMeans(lines, prefix);
    lines := lines[index := Flip(lines[index])];
    r := Logged(cut.before + Join(lines) + after, log);
  }

  // ---------- the edit on a canonical document ----------

  lemma SplitsTasks(d: Doc)
    requires Readable(d) && TASKS <= FromTasks(d)
    ensures TasksText(FromTasks(d)) == (TaskPart(d), "\n" + FromMiddle(d))
  {
    HeadingsArePlain();
    TaskPartStarts(d);
    Prefixed(TASKS, Join([""] + d.tasks) + "\n" + FromMiddle(d));
    Prefixed(SECTION, d.middle[|SECTION|..]);
    assert SECTION <= FromMiddle(d);
    CutAtSection("", d.tasks, FromMiddle(d), SECTION);
  }

  function FlipAt(tasks: seq<string>, i: nat): seq<string>
    requires i < |tasks| && IsOpen(tasks[i])
  {
    tasks[i := Flip(tasks[i])]
  }

  lemma FlipLine(line: string)
    requires IsOpen(line)
    ensures IsBox(Flip(line)) && !IsOpen(Flip(line)) && |Flip(line)| == |line| && TaskText(Flip(line)) == TaskText(line)
    ensures Plain(line) ==> Plain(Flip(line))
    ensures !(SECTION <= Flip(line))
  {
    Prefixed(DONE_BOX, line[6..]);
    assert Flip(line)[0] == '-' && Flip(line)[3] == 'x' && line[3] == ' ';
  }

  lemma FlipHidesNoLog(line: string)
    requires IsOpen(line) && !Contains(line, LOG)
    ensures !Contains(Flip(line), LOG)
  {
    ContainsAfter(OPEN_BOX, line[6..], LOG);
    assert line == OPEN_BOX + line[6..];
    ContainsAfter(DONE_BOX, line[6..], LOG);
  }

  lemma {:induction false} FlipCanonical(tasks: seq<string>, i: nat)
    requires i < |tasks| && IsOpen(tasks[i])
    requires NoneStarts(tasks, SECTION) && NoneSection(tasks) && NoneContains(tasks, LOG)
    ensures NoneStarts(FlipAt(tasks, i), SECTION) && NoneSection(FlipAt(tasks, i))
    ensures NoneContains(FlipAt(tasks, i), LOG)
  {
    var flipped := FlipAt(tasks, i);
    if i == 0 {
      FlipLine(tasks[0]);
      BoxIsNoSection(Flip(tasks[0]));
      FlipHidesNoLog(tasks[0]);
      assert flipped[1..] == tasks[1..];
    } else {
      FlipCanonical(tasks[1..], i - 1);
      assert flipped[1..] == FlipAt(tasks[1..], i - 1);
    }
  }

  lemma FlipTasksCanonical(tasks: seq<string>, i: nat)
    requires i < |tasks| && IsOpen(tasks[i]) && TasksReadable(tasks) && NoneContains(tasks, LOG)
    ensures TasksReadable(FlipAt(tasks, i)) && NoneContains(FlipAt(tasks, i), LOG)
  {
    FlipCanonical(tasks, i);
    FlipLine(tasks[i]);
  }

  /** Everything before the log heading's line. */
  function AboveLog(d: Doc): string {
    d.head + "\n" + (TaskPart(d) + "\n" + d.middle)
  }

  lemma RenderAboveLog(d: Doc)
    ensures Render(d) == AboveLog(d) + "\n" + FromLog(d)
  {
    Regroup(TaskPart(d), d.middle, FromLog(d));
    Regroup(d.head, TaskPart(d) + "\n" + d.middle, FromLog(d));
  }

  lemma NoLogAbove(d: Doc)
    requires Canonical(d)
    ensures !Contains(AboveLog(d), LOG)
  {
    HeadingsArePlain();
    var lines := [TASKS] + d.tasks;
    assert lines[1..] == d.tasks;
    TasksHideNoLog();
    JoinContains(lines, LOG);
    ContainsAcross(TaskPart(d), d.middle, LOG);
    ContainsAcross(d.head, TaskPart(d) + "\n" + d.middle, LOG);
  }

  lemma TasksHideNoLog()
    ensures !Contains(TASKS, LOG)
  {
    assert TASKS[3] != LOG[3];
    assert TASKS == "##" + " Tasks";
    assert !(LOG <= TASKS);
    assert TASKS[1..] == "# Tasks" && !(LOG <= "# Tasks");
    assert "# Tasks"[1..] == " Tasks";
    ContainsAfter(" Tasks", "", LOG);
    assert " Tasks" + "" == " Tasks";
  }

  /** The entry as it lands in the document, with its `$` patterns expanded. */
  function EntryFor(d: Doc, log: string): string {
    Expand(Trim(log), LOG + Leading(d.tail), AboveLog(d) + "\n", TrimStart(d.tail))
  }

  lemma LogsBelowHeading(d: Doc, log: string)
    requires Canonical(d)
    ensures Logged(Render(d), log) == Edited(Render(d.(tail := InsertEntry(d.tail, EntryFor(d, log)))))
  {
    HeadingsArePlain();
    RenderAboveLog(d);
    NoLogAbove(d);
    Prefixed(LOG, d.tail);
    CutInNextLine(AboveLog(d), FromLog(d), LOG);
    var t := d.(tail := InsertEntry(d.tail, EntryFor(d, log)));
    RenderAboveLog(t);
    assert AboveLog(t) == AboveLog(d);
  }

  /** Entries go below the log heading exactly when nothing above mentions it. */
  lemma LogPlacedExactly(d: Doc)
    ensures CutAt(Render(d), LOG) == At(AboveLog(d) + "\n", FromLog(d)) <==> !Contains(AboveLog(d), LOG)
  {
    HeadingsArePlain();
    RenderAboveLog(d);
    if Contains(AboveLog(d), LOG) {
      CutEarlier(AboveLog(d), "\n" + FromLog(d), LOG);
      assert AboveLog(d) + "\n" + FromLog(d) == AboveLog(d) + ("\n" + FromLog(d));
      assert |AboveLog(d) + "\n"| > |AboveLog(d)|;
    } else {
      Prefixed(LOG, d.tail);
      CutInNextLine(AboveLog(d), FromLog(d), LOG);
    }
  }

  lemma {:induction false} ContainsEnd(x: string, y: string, p: string)
    requires Contains(y, p)
    ensures Contains(x + y, p)
  {
    if x == "" {
      assert x + y == y;
    } else {
      assert (x + y)[1..] == x[1..] + y;
      ContainsEnd(x[1..], y, p);
    }
  }

  lemma {:induction false} LineInJoin(lines: seq<string>, i: nat, p: string)
    requires i < |lines| && Contains(lines[i], p) && p != "" && '\n' !in p
    ensures Contains(Join(lines), p)
  {
    if |lines| > 1 {
      ContainsAcross(lines[0], Join(lines[1..]), p);
      if i > 0 { LineInJoin(lines[1..], i - 1, p); }
    }
  }

  /** So a task that mentions the heading, with any text around it, draws entries to itself. */
  lemma MentionMisplacesEntries(d: Doc, i: nat, before: string, after: string)
    requires i < |d.tasks| && d.tasks[i] == before + (LOG + after)
    ensures CutAt(Render(d), LOG) != At(AboveLog(d) + "\n", FromLog(d))
  {
    HeadingsArePlain();
    Prefixed(LOG, after);
    ContainsEnd(before, LOG + after, LOG);
    var lines := [TASKS] + d.tasks;
    assert lines[i + 1] == d.tasks[i];
    LineInJoin(lines, i + 1, LOG);
    ContainsAcross(TaskPart(d), d.middle, LOG);
    ContainsAcross(d.head, TaskPart(d) + "\n" + d.middle, LOG);
    LogPlacedExactly(d);
  }

  lemma {:induction false} FirstMatchIs(lines: seq<string>, prefix: string, i: nat)
    requires i < |lines| && FirstOpen(lines) == i && IsOpen(lines[i]) && prefix <= lines[i][6..]
    ensures FirstMatch(lines, prefix) == i
  {
    if i > 0 { FirstMatchIs(lines[1..], prefix, i - 1); }
  }

  lemma MatchBelowHeading(tasks: seq<string>, prefix: string)
    ensures FirstMatch([TASKS] + tasks, prefix) == 1 + FirstMatch(tasks, prefix)
  {
    assert ([TASKS] + tasks)[1..] == tasks;
    assert !IsOpen(TASKS) by { assert TASKS[0] != OPEN_BOX[0]; }
  }

  lemma TailStarts(tail: string, entry: string)
    requires tail == "" || tail[0] == '\n'
    ensures InsertEntry(tail, entry) != "" && InsertEntry(tail, entry)[0] == '\n'
  {
    if tail == "" {
      assert Leading(tail) == "" && TrimStart(tail) == "";
    } else {
      assert Leading(tail)[0] == '\n';
    }
  }

  /** The document after its i-th line is checked off and logged. */
  function Checked(d: Doc, i: nat, log: string): Doc
    requires i < |d.tasks| && IsOpen(d.tasks[i])
  {
    var flipped := d.(tasks := FlipAt(d.tasks, i));
    flipped.(tail := InsertEntry(d.tail, EntryFor(flipped, log)))
  }

  lemma FlippedText(d: Doc, i: nat)
    requires i < |d.tasks| && IsOpen(d.tasks[i])
    ensures d.head + "\n" + Join(([TASKS] + d.tasks)[i + 1 := Flip(d.tasks[i])]) + ("\n" + FromMiddle(d))
            == Render(d.(tasks := FlipAt(d.tasks, i)))
  {
    assert ([TASKS] + d.tasks)[i + 1 := Flip(d.tasks[i])] == [TASKS] + FlipAt(d.tasks, i);
    var f := d.(tasks := FlipAt(d.tasks, i));
    assert FromMiddle(f) == FromMiddle(d);
    assert d.head + "\n" + TaskPart(f) + ("\n" + FromMiddle(d)) == d.head + "\n" + (TaskPart(f) + "\n" + FromMiddle(d));
  }

  /** On a canonical document, marking checks the first unchecked line that starts with the
      prefix, logs below the heading, and changes nothing else; or there is no such line. */
  lemma MarksFirstMatch(d: Doc, prefix: string, log: string)
    requires Canonical(d)
    ensures FirstMatch(d.tasks, prefix) == |d.tasks| ==> Marked(Render(d), prefix, log) == TaskNotFound
    ensures FirstMatch(d.tasks, prefix) < |d.tasks| ==>
              && IsOpen(d.tasks[FirstMatch(d.tasks, prefix)])
              && Marked(Render(d), prefix, log) == Edited(Render(Checked(d, FirstMatch(d.tasks, prefix), log)))
              && Canonical(Checked(d, FirstMatch(d.tasks, prefix), log))
  {
    FirstMatchMeans(d.tasks, prefix);
    MarkedIs(d, prefix, log, FirstMatch(d.tasks, prefix));
    if FirstMatch(d.tasks, prefix) < |d.tasks| { MatchedLineChecked(d, FirstMatch(d.tasks, prefix), log); }
  }

  /** The lines that the edit sees in a readable document. */
  lemma TaskLinesSeen(d: Doc)
    requires Readable(d)
    ensures CutAt(Render(d), TASKS) == At(d.head + "\n", FromTasks(d)) && TASKS <= FromTasks(d)
    ensures TasksText(FromTasks(d)) == (TaskPart(d), "\n" + FromMiddle(d))
    ensures SplitLines(TaskPart(d)) == [TASKS] + d.tasks
  {
    CutsTasks(d);
    SplitsTasks(d);
    PlainTasks(d.tasks);
    SplitJoin([TASKS] + d.tasks);
  }

  /** The edit, given what it cuts out. */
  lemma MarkedOn(plan: string, prefix: string, log: string, before: string, rest: string, tasks: string, after: string,
                 lines: seq<string>, index: nat)
    requires TASKS <= rest && CutAt(plan, TASKS) == At(before, rest) && TasksText(rest) == (tasks, after)
    requires SplitLines(tasks) == lines && FirstMatch(lines, prefix) == index
    requires index <= |lines| && (index < |lines| ==> IsOpen(lines[index]))
    ensures Marked(plan, prefix, log)
            == if index == |lines| then TaskNotFound
               else Logged(before + Join(lines[index := Flip(lines[index])]) + after, log)
  {
    FirstMatchMeans(lines, prefix);
  }

  lemma MarkedIs(d: Doc, prefix: string, log: string, i: nat)
    requires Readable(d) && FirstMatch(d.tasks, prefix) == i <= |d.tasks|
    requires i < |d.tasks| ==> IsOpen(d.tasks[i])
    ensures Marked(Render(d), prefix, log)
            == if i == |d.tasks| then TaskNotFound
               else
                 var lines := ([TASKS] + d.tasks)[i + 1 := Flip(d.tasks[i])];
                 Logged(d.head + "\n" + Join(lines) + ("\n" + FromMiddle(d)), log)
  {
    TaskLinesSeen(d);
    MatchBelowHeading(d.tasks, prefix);
    MarkedOn(Render(d), prefix, log, d.head + "\n", FromTasks(d), TaskPart(d), "\n" + FromMiddle(d),
             [TASKS] + d.tasks, i + 1);
  }

  lemma MatchedLineChecked(d: Doc, i: nat, log: string)
    requires Canonical(d) && i < |d.tasks| && IsOpen(d.tasks[i])
    ensures var lines := [TASKS] + d.tasks;
            Logged(d.head + "\n" + Join(lines[i + 1 := Flip(d.tasks[i])]) + ("\n" + FromMiddle(d)), log)
            == Edited(Render(Checked(d, i, log)))
    ensures Canonical(Checked(d, i, log))
  {
    var flipped := d.(tasks := FlipAt(d.tasks, i));
    FlippedText(d, i);
    FlipTasksCanonical(d.tasks, i);
    LogsBelowHeading(flipped, log);
    TailStarts(d.tail, EntryFor(flipped, log));
  }

  /** A prefix of the first unchecked line marks that line. */
  lemma MarksFirstOpen(d: Doc, prefix: string, log: string)
    requires Canonical(d) && FirstOpen(d.tasks) < |d.tasks|
    requires IsOpen(d.tasks[FirstOpen(d.tasks)]) && prefix <= d.tasks[FirstOpen(d.tasks)][6..]
    ensures Marked(Render(d), prefix, log) == Edited(Render(Checked(d, FirstOpen(d.tasks), log)))
    ensures Canonical(Checked(d, FirstOpen(d.tasks), log))
  {
    FirstMatchIs(d.tasks, prefix, FirstOpen(d.tasks));
    MarksFirstMatch(d, prefix, log);
  }

  // ---------- the tool ----------

  /** The tool accepts a prefix only of the first unchecked task. */
  function MarkTool(plan: string, prefix: string, log: string): Edit {
    var task := OpenTask(TaskLines(plan));
    if task.None? || !(prefix <= task.value.text) then NotFirstTask else Marked(plan, prefix, log)
  }

  /** Nothing separates the box from the text. */
  predicate Tight(line: string) {
    IsOpen(line) ==> |line| > 6 && !IsSpace(line[6])
  }

  predicate AllTight(lines: seq<string>) {
    lines == [] || (Tight(lines[0]) && AllTight(lines[1..]))
  }

  /** A prefix of the task as it is read is a prefix of its line exactly when the line has no
      extra space before the text. */
  lemma PrefixFitsExactly(line: string, prefix: string)
    requires IsOpen(line) && prefix != "" && prefix <= TaskText(line)
    ensures prefix <= line[6..] <==> Tight(line)
  {
    var rest := line[6..];
    TrimStartDrops(rest);
    TrimEndIsPrefix(TrimStart(rest));
    assert prefix[0] == TrimStart(rest)[0];
    assert rest != "" && rest[0] == line[6];
    if prefix <= rest { assert prefix[0] == rest[0]; }
  }

  function OpenCount(lines: seq<string>): nat {
    if lines == [] then 0 else (if IsOpen(lines[0]) then 1 else 0) + OpenCount(lines[1..])
  }

  lemma {:induction false} NoneOpenExactly(lines: seq<string>)
    ensures OpenCount(lines) == 0 <==> FirstOpen(lines) == |lines|
    ensures FirstOpen(lines) <= |lines|
  {
    if lines != [] { NoneOpenExactly(lines[1..]); }
  }

  lemma {:induction false} FlipTakesOne(tasks: seq<string>, i: nat)
    requires i < |tasks| && IsOpen(tasks[i])
    ensures OpenCount(FlipAt(tasks, i)) == OpenCount(tasks) - 1
    ensures AllTight(tasks) ==> AllTight(FlipAt(tasks, i))
  {
    FlipLine(tasks[i]);
    if i == 0 {
      assert FlipAt(tasks, 0)[1..] == tasks[1..];
    } else {
      FlipTakesOne(tasks[1..], i - 1);
      assert FlipAt(tasks, i)[1..] == FlipAt(tasks[1..], i - 1);
    }
  }

  lemma {:induction false} BlocksEndAlike(lines: seq<string>, i: nat)
    requires i < |lines| && IsOpen(lines[i])
    ensures UntilBox(FlipAt(lines, i)) == UntilBox(lines)
  {
    FlipLine(lines[i]);
    if i > 0 && !IsBox(lines[0]) {
      BlocksEndAlike(lines[1..], i - 1);
      assert FlipAt(lines, i)[1..] == FlipAt(lines[1..], i - 1);
    }
  }

  lemma BoxMentionsNothing(line: string, field: string)
    requires IsBox(line) && |field| > 2 && field[2] != '['
    ensures !(field <= TrimStart(line))
  {
    assert line[0] == '-' && line[2] == '[';
    TrimStartDrops(line);
  }

  lemma FlipKeepsBlock(lines: seq<string>, i: nat, j: nat, field: string)
    requires i < |lines| && IsOpen(lines[i]) && j < |lines| && |field| > 2 && field[2] != '['
    ensures Mentions(BlockAt(FlipAt(lines, i), j), field) == Mentions(BlockAt(lines, j), field)
  {
    var flipped := FlipAt(lines, i);
    FlipLine(lines[i]);
    if j < i {
      assert flipped[j + 1..] == FlipAt(lines[j + 1..], i - j - 1);
      BlocksEndAlike(lines[j + 1..], i - j - 1);
    } else {
      assert flipped[j + 1..] == lines[j + 1..];
      if j == i {
        BoxMentionsNothing(lines[i], field);
        BoxMentionsNothing(Flip(lines[i]), field);
        assert BlockAt(flipped, i)[1..] == UntilBox(lines[i + 1..]);
        assert BlockAt(lines, i)[1..] == UntilBox(lines[i + 1..]);
      }
    }
  }

  lemma FlipKeepsValid(lines: seq<string>, i: nat)
    requires i < |lines| && IsOpen(lines[i])
    ensures TasksValid(FlipAt(lines, i)) <==> TasksValid(lines)
  {
    var flipped := FlipAt(lines, i);
    FlipLine(lines[i]);
    assert forall j :: 0 <= j < |lines| ==> IsTask(flipped[j]) == IsTask(lines[j]);
    forall j | 0 <= j < |lines| ensures BlockComplete(flipped, j) <==> BlockComplete(lines, j) {
      FlipKeepsBlock(lines, i, j, "- Files:");
      FlipKeepsBlock(lines, i, j, "- Approach:");
    }
    if k :| 0 <= k < |lines| && IsTask(lines[k]) { assert IsTask(flipped[k]); }
    if k :| 0 <= k < |lines| && IsTask(flipped[k]) { assert IsTask(lines[k]); }
  }

  /** The tool accepts any prefix of the current task and edits that task's line. */
  lemma ToolMarksFirst(d: Doc, prefix: string, log: string)
    requires Canonical(d) && FirstOpen(d.tasks) < |d.tasks|
    requires IsOpen(d.tasks[FirstOpen(d.tasks)]) && Tight(d.tasks[FirstOpen(d.tasks)])
    requires prefix != "" && prefix <= TaskText(d.tasks[FirstOpen(d.tasks)])
    ensures MarkTool(Render(d), prefix, log) == Edited(Render(Checked(d, FirstOpen(d.tasks), log)))
    ensures Canonical(Checked(d, FirstOpen(d.tasks), log))
  {
    ReadsTasks(d);
    PrefixFitsExactly(d.tasks[FirstOpen(d.tasks)], prefix);
    MarksFirstOpen(d, prefix, log);
  }

  /** Marking two different lines gives two different texts. */
  lemma ChecksDiffer(d: Doc, i: nat, j: nat, log: string)
    requires Canonical(d) && i < |d.tasks| && j < |d.tasks| && i != j && IsOpen(d.tasks[i]) && IsOpen(d.tasks[j])
    requires Canonical(Checked(d, i, log)) && Canonical(Checked(d, j, log))
    ensures Render(Checked(d, i, log)) != Render(Checked(d, j, log))
  {
    ReadsTasks(Checked(d, i, log));
    ReadsTasks(Checked(d, j, log));
    FlipLine(d.tasks[i]);
    assert FlipAt(d.tasks, i)[i] != FlipAt(d.tasks, j)[i];
  }

  /** Given any prefix of the current task as it is read, the tool checks that task if and only
      if no extra space stands before its text; otherwise it checks another or finds none. */
  lemma MarkToolExactly(d: Doc, prefix: string, log: string)
    requires Canonical(d) && FirstOpen(d.tasks) < |d.tasks| && IsOpen(d.tasks[FirstOpen(d.tasks)])
    requires prefix != "" && prefix <= TaskText(d.tasks[FirstOpen(d.tasks)])
    ensures MarkTool(Render(d), prefix, log) == Edited(Render(Checked(d, FirstOpen(d.tasks), log)))
            <==> Tight(d.tasks[FirstOpen(d.tasks)])
  {
    var i := FirstOpen(d.tasks);
    if Tight(d.tasks[i]) {
      ToolMarksFirst(d, prefix, log);
    } else {
      ReadsTasks(d);
      PrefixFitsExactly(d.tasks[i], prefix);
      FirstMatchMeans(d.tasks, prefix);
      MarksFirstMatch(d, prefix, log);
      MatchedLineChecked(d, i, log);
      var j := FirstMatch(d.tasks, prefix);
      if j < |d.tasks| { ChecksDiffer(d, i, j, log); }
    }
  }

  /** With extra space the tool checks off the first later task whose line the prefix fits,
      instead of the one it was checked against; without such a line it finds none. */
  lemma LooseTaskMarksAnother(d: Doc, prefix: string, log: string)
    requires Canonical(d) && FirstOpen(d.tasks) < |d.tasks| && IsOpen(d.tasks[FirstOpen(d.tasks)])
    requires prefix != "" && prefix <= TaskText(d.tasks[FirstOpen(d.tasks)]) && !Tight(d.tasks[FirstOpen(d.tasks)])
    ensures var i, j := FirstOpen(d.tasks), FirstMatch(d.tasks, prefix);
            if j == |d.tasks| then MarkTool(Render(d), prefix, log) == TaskNotFound
            else
              && i < j < |d.tasks| && Marks(d.tasks[j], prefix)
              && MarkTool(Render(d), prefix, log) == Edited(Render(Checked(d, j, log)))
  {
    ReadsTasks(d);
    PrefixFitsExactly(d.tasks[FirstOpen(d.tasks)], prefix);
    MatchIsLater(d.tasks, prefix);
    MarksFirstMatch(d, prefix, log);
  }

  lemma MatchIsLater(lines: seq<string>, prefix: string)
    requires FirstOpen(lines) < |lines| && IsOpen(lines[FirstOpen(lines)])
    requires !(prefix <= lines[FirstOpen(lines)][6..])
    ensures FirstMatch(lines, prefix) <= |lines|
    ensures FirstMatch(lines, prefix) < |lines| ==>
              FirstOpen(lines) < FirstMatch(lines, prefix) && Marks(lines[FirstMatch(lines, prefix)], prefix)
  {
    FirstMatchMeans(lines, prefix);
    if FirstMatch(lines, prefix) < |lines| { FirstOpenIsFirst(lines, FirstMatch(lines, prefix)); }
  }

  lemma {:induction false} FirstOpenIsFirst(lines: seq<string>, j: nat)
    requires j < |lines| && IsOpen(lines[j])
    ensures FirstOpen(lines) <= j
  {
    if j > 0 && !IsOpen(lines[0]) { FirstOpenIsFirst(lines[1..], j - 1); }
  }

  /** Two documents that readers tell apart only by their tasks, and that are equally valid. */
  ghost predicate ReadsAs(d: Doc, after: Doc, namesIssue: string -> bool) {
    && TaskLines(Render(after)) == after.tasks
    && AcceptanceCriteria(Render(after)) == AcceptanceCriteria(Render(d))
    && (Valid(Render(after), namesIssue) <==> Valid(Render(d), namesIssue))
  }

  lemma SameReading(d: Doc, after: Doc, namesIssue: string -> bool)
    requires Readable(d) && Titled(d, namesIssue) && Readable(after)
    requires after.head == d.head && after.middle == d.middle && (TasksValid(after.tasks) <==> TasksValid(d.tasks))
    ensures ReadsAs(d, after, namesIssue) && Titled(after, namesIssue)
  {
    ReadsDocument(d, namesIssue);
    ReadsDocument(after, namesIssue);
  }

  /** Marking a task done through the tool: the first unchecked task, and it alone, becomes
      checked; every reader otherwise sees the same plan, and it stays as valid as it was. */
  lemma MarkToolChecksFirst(d: Doc, prefix: string, log: string, namesIssue: string -> bool)
    requires Canonical(d) && Titled(d, namesIssue) && FirstOpen(d.tasks) < |d.tasks|
    requires IsOpen(d.tasks[FirstOpen(d.tasks)]) && Tight(d.tasks[FirstOpen(d.tasks)])
    requires prefix != "" && prefix <= TaskText(d.tasks[FirstOpen(d.tasks)])
    ensures var after := Checked(d, FirstOpen(d.tasks), log);
            && MarkTool(Render(d), prefix, log) == Edited(Render(after))
            && after.tasks == FlipAt(d.tasks, FirstOpen(d.tasks))
            && ReadsAs(d, after, namesIssue) && Canonical(after) && Titled(after, namesIssue)
  {
    ToolMarksFirst(d, prefix, log);
    FlipKeepsValid(d.tasks, FirstOpen(d.tasks));
    SameReading(d, Checked(d, FirstOpen(d.tasks), log), namesIssue);
  }

  datatype Mark = Mark(prefix: string, log: string)

  function MarkAll(plan: string, marks: seq<Mark>): Edit
    decreases |marks|
  {
    if marks == [] then Edited(plan)
    else
      var next := MarkTool(plan, marks[0].prefix, marks[0].log);
      if next.Edited? then MarkAll(next.plan, marks[1..]) else next
  }

  /** Each mark names the task that is current when its turn comes. */
  ghost predicate Guided(d: Doc, marks: seq<Mark>)
    decreases |marks|
  {
    marks == [] ||
    (var i := FirstOpen(d.tasks);
     && i < |d.tasks| && IsOpen(d.tasks[i])
     && marks[0].prefix != "" && marks[0].prefix <= TaskText(d.tasks[i])
     && Guided(Checked(d, i, marks[0].log), marks[1..]))
  }

  lemma {:induction false} AllTightAt(lines: seq<string>, i: nat)
    requires AllTight(lines) && i < |lines|
    ensures Tight(lines[i])
  {
    if i > 0 { AllTightAt(lines[1..], i - 1); }
  }

  /** Marking the current task again and again works, whatever is logged, and reaches a plan
      without a current task after exactly as many marks as there were unchecked tasks. */
  lemma {:induction false} MarksDrainThePlan(d: Doc, marks: seq<Mark>, namesIssue: string -> bool)
    requires Canonical(d) && Titled(d, namesIssue) && AllTight(d.tasks) && Guided(d, marks)
    ensures |marks| <= OpenCount(d.tasks)
    ensures var r := MarkAll(Render(d), marks);
            && r.Edited?
            && (OpenTask(TaskLines(r.plan)).None? <==> |marks| == OpenCount(d.tasks))
            && (Valid(r.plan, namesIssue) <==> Valid(Render(d), namesIssue))
            && AcceptanceCriteria(r.plan) == AcceptanceCriteria(Render(d))
            && |TaskLines(r.plan)| == |d.tasks|
    decreases |marks|
  {
    NoneOpenExactly(d.tasks);
    ReadsDocument(d, namesIssue);
    if marks != [] {
      var i := FirstOpen(d.tasks);
      AllTightAt(d.tasks, i);
      MarkToolChecksFirst(d, marks[0].prefix, marks[0].log, namesIssue);
      FlipTakesOne(d.tasks, i);
      MarksDrainThePlan(Checked(d, i, marks[0].log), marks[1..], namesIssue);
    }
  }

  // ---------- the log entry ----------

  /** A `$` pattern that `replace` acts on stands first: `$$`, `$&`, `$1`, `$01`, or one for the
      text before or after the match. */
  predicate ActiveFirst(log: string) {
    |log| >= 2 && log[0] == '$' &&
    (log[1] in {'$', '&', '1', '`', '\''} || (log[1] == '0' && |log| >= 3 && log[2] == '1'))
  }

  predicate SomeActive(log: string) {
    log != "" && (ActiveFirst(log) || SomeActive(log[1..]))
  }

  lemma {:induction false} SomeActiveMeans(log: string)
    ensures SomeActive(log) <==> exists i :: 0 <= i < |log| && ActiveFirst(log[i..])
  {
    if log != "" {
      SomeActiveMeans(log[1..]);
      assert log[0..] == log;
      assert forall i :: 0 <= i < |log| - 1 ==> log[1..][i..] == log[i + 1..];
      if i :| 0 <= i < |log| && ActiveFirst(log[i..]) {
        assert i > 0 ==> log[1..][i - 1..] == log[i..];
      }
    }
  }

  /** An entry without an active pattern, dollar signs or not, is logged as it was given. */
  lemma {:induction false} PlainEntryIsVerbatim(log: string, matched: string, before: string, after: string)
    requires !SomeActive(log)
    ensures Expand(log, matched, before, after) == log
  {
    if log != "" {
      PlainEntryIsVerbatim(log[1..], matched, before, after);
      assert log == [log[0]] + log[1..];
    }
  }

  lemma {:induction false} EmptyExpandsShorter(log: string)
    ensures |Expand(log, "", "", "")| <= |log|
    decreases |log|
  {
    if log != "" {
      EmptyExpandsShorter(log[1..]);
      if |log| >= 2 { EmptyExpandsShorter(log[2..]); }
      if |log| >= 3 { EmptyExpandsShorter(log[3..]); }
    }
  }

  /** One with an active pattern is rewritten: where there is nothing to stand for, it shrinks. */
  lemma {:induction false} DollarEntryIsRewritten(log: string)
    requires SomeActive(log)
    ensures |Expand(log, "", "", "")| < |log|
  {
    if ActiveFirst(log) {
      EmptyExpandsShorter(log[2..]);
      if |log| >= 3 { EmptyExpandsShorter(log[3..]); }
    } else {
      DollarEntryIsRewritten(log[1..]);
    }
  }

  /** What each pattern stands for: a dollar sign, what precedes or follows the match, or the
      match, which the pattern's one group is all of. */
  function StandsFor(pattern: string, matched: string, before: string, after: string): string {
    if pattern == "$$" then "$" else if pattern == "$`" then before else if pattern == "$'" then after else matched
  }

  predicate IsPattern(text: string) {
    text == "$$" || text == "$`" || text == "$'" || text == "$&" || text == "$1" || text == "$01"
  }

  /** Each pattern is replaced by what it stands for, and what follows it is read anew. */
  lemma PatternIsReplaced(pattern: string, rest: string, matched: string, before: string, after: string)
    requires IsPattern(pattern)
    ensures Expand(pattern + rest, matched, before, after)
            == StandsFor(pattern, matched, before, after) + Expand(rest, matched, before, after)
  {
    assert (pattern + rest)[|pattern|..] == rest;
    assert forall i :: 0 <= i < |pattern| ==> (pattern + rest)[i] == pattern[i];
  }

  /** Text without dollar signs before the rest of an entry stays as it is. */
  lemma {:induction false} TextStays(text: string, rest: string, matched: string, before: string, after: string)
    requires '$' !in text
    ensures Expand(text + rest, matched, before, after) == text + Expand(rest, matched, before, after)
  {
    if text == "" {
      assert text + rest == rest;
    } else {
      assert (text + rest)[1..] == text[1..] + rest && (text + rest)[0] == text[0];
      TextStays(text[1..], rest, matched, before, after);
      var expanded := Expand(rest, matched, before, after);
      assert [text[0]] + (text[1..] + expanded) == text + expanded;
    }
  }

  ghost predicate AlwaysVerbatim(log: string) {
    forall matched, before, after :: Expand(log, matched, before, after) == log
  }

  /** An entry is logged as given, whatever surrounds the log heading, if and only if no active
      pattern stands anywhere in it. */
  lemma VerbatimExactly(log: string)
    ensures AlwaysVerbatim(log) <==> !exists i :: 0 <= i < |log| && ActiveFirst(log[i..])
  {
    SomeActiveMeans(log);
    if SomeActive(log) {
      DollarEntryIsRewritten(log);
      assert Expand(log, "", "", "") != log;
    } else {
      forall matched, before, after ensures Expand(log, matched, before, after) == log {
        PlainEntryIsVerbatim(log, matched, before, after);
      }
    }
  }

  lemma AmpersandExpands(matched: string, before: string, after: string)
    ensures Expand("$&", matched, before, after) == matched
  {
    assert "$&"[2..] == "" && Expand("", matched, before, after) == "";
    assert matched + "" == matched;
  }

  /** In a document the heading itself stands for `$&`, so such an entry never lands as given. */
  lemma HeadingIsInserted(d: Doc)
    ensures EntryFor(d, "$&") == LOG + Leading(d.tail) != "$&"
  {
    var log, matched := "$&", LOG + Leading(d.tail);
    TightIsTrimmed(log);
    AmpersandExpands(matched, AboveLog(d) + "\n", TrimStart(d.tail));
    assert matched[0] == '#' && log[0] == '$';
  }
}
