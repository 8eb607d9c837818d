/** Plan documents with their headings in order: their text and what readers see of it. */
module PlanLayout {
  import opened Text
  import opened LineStream
  import opened PlanText
  import opened PlanDocument

  /** A plan in parts: everything before the tasks heading, the lines of the tasks, everything
      up to the log heading, and everything after it. */
  datatype Doc = Doc(head: string, tasks: seq<string>, middle: string, tail: string)

  function FromLog(d: Doc): string {
    LOG + d.tail
  }

  function FromMiddle(d: Doc): string {
    d.middle + "\n" + FromLog(d)
  }

  function TaskPart(d: Doc): string {
    Join([TASKS] + d.tasks)
  }

  function FromTasks(d: Doc): string {
    TaskPart(d) + "\n" + FromMiddle(d)
  }

  function Render(d: Doc): string {
    d.head + "\n" + FromTasks(d)
  }

  predicate NoneMatches(lines: seq<string>, heading: string) {
    lines == [] || (!Matches(lines[0], heading) && NoneMatches(lines[1..], heading))
  }

  predicate NoneSection(lines: seq<string>) {
    lines == [] || (!IsSection(lines[0]) && NoneSection(lines[1..]))
  }

  predicate TasksReadable(tasks: seq<string>) {
    tasks != [] && AllPlain(tasks) && NoneStarts(tasks, SECTION) && NoneSection(tasks)
  }

  /** Each heading stands at the start of a line of its own, in this order: tasks, acceptance
      criteria, log; and the tasks heading is not mentioned before. */
  predicate Readable(d: Doc) {
    && Closed(d.head) && !Contains(d.head, TASKS)
    && NoneMatches(SplitLines(d.head), TASKS) && NoneMatches(SplitLines(d.head), ACCEPTANCE)
    && TasksReadable(d.tasks)
    && Closed(d.middle) && SECTION <= d.middle
    && IsSection(SplitLines(d.middle)[0]) && HasHeading(SplitLines(d.middle), ACCEPTANCE)
    && (d.tail == "" || d.tail[0] == '\n')
  }

  /** Nor is the log heading mentioned before it stands there. */
  predicate Canonical(d: Doc) {
    Readable(d) && !Contains(d.head, LOG) && NoneContains(d.tasks, LOG) && !Contains(d.middle, LOG)
  }

  lemma HeadingsArePlain()
    ensures Plain(TASKS) && Plain(LOG) && TASKS[|TASKS|..] == ""
    ensures TASKS != "" && LOG != "" && SECTION != "" && Plain(SECTION)
  {
  }

  /** The lines of a rendered plan. */
  lemma RenderedLines(d: Doc)
    requires Readable(d)
    ensures SplitLines(Render(d))
            == SplitLines(d.head) + (([TASKS] + d.tasks) + (SplitLines(d.middle) + SplitLines(FromLog(d))))
  {
    SplitAfter(d.head, FromTasks(d));
    HeadingsArePlain();
    PlainTasks(d.tasks);
    JoinClosed([TASKS] + d.tasks);
    SplitJoin([TASKS] + d.tasks);
    SplitAfter(TaskPart(d), FromMiddle(d));
    SplitAfter(d.middle, FromLog(d));
  }

  lemma PlainTasks(tasks: seq<string>)
    requires AllPlain(tasks)
    ensures AllPlain([TASKS] + tasks)
  {
    HeadingsArePlain();
  }

  /** The log heading is a line of its own. */
  lemma LogLine(d: Doc)
    requires Readable(d)
    ensures SplitLines(FromLog(d))[0] == LOG
  {
    HeadingsArePlain();
    FirstLineBefore(LOG, d.tail);
  }

  lemma FirstLineBefore(line: string, tail: string)
    requires Plain(line) && (tail == "" || tail[0] == '\n')
    ensures SplitLines(line + tail)[0] == line
  {
    PlainIsClosed(line);
    if tail == "" {
      assert line + tail == line;
    } else {
      SplitAfter(line, tail[1..]);
      BreakFirst(line, tail);
    }
  }

  lemma BreakFirst(line: string, tail: string)
    requires tail != "" && tail[0] == '\n'
    ensures line + "\n" + tail[1..] == line + tail
  {
    assert tail == "\n" + tail[1..];
  }

  // ---------- reading ----------

  lemma {:induction false} SkipToHeading(lines: seq<string>, rest: seq<string>, heading: string)
    requires NoneMatches(lines, heading)
    ensures SectionLines(lines + rest, heading) == SectionLines(rest, heading)
    ensures HasHeading(lines + rest, heading) == HasHeading(rest, heading)
  {
    if lines == [] {
      assert lines + rest == rest;
    } else {
      assert (lines + rest)[1..] == lines[1..] + rest;
      SkipToHeading(lines[1..], rest, heading);
    }
  }

  lemma {:induction false} SectionStops(lines: seq<string>, rest: seq<string>)
    requires NoneSection(lines) && rest != [] && IsSection(rest[0])
    ensures UntilSection(lines + rest) == lines
  {
    if lines == [] {
      assert lines + rest == rest;
    } else {
      assert (lines + rest)[1..] == lines[1..] + rest;
      SectionStops(lines[1..], rest);
      assert lines == [lines[0]] + lines[1..];
    }
  }

  /** A section that starts before a section line depends on nothing beyond it. */
  lemma {:induction false} SectionIsLocal(lines: seq<string>, rest: seq<string>, other: seq<string>, heading: string)
    requires HasHeading(lines, heading) && rest != [] && other != [] && IsSection(rest[0]) && IsSection(other[0])
    ensures SectionLines(lines + rest, heading) == SectionLines(lines + other, heading)
    ensures HasHeading(lines + rest, heading)
  {
    assert (lines + rest)[1..] == lines[1..] + rest && (lines + other)[1..] == lines[1..] + other;
    if Matches(lines[0], heading) {
      UntilIsLocal(lines[1..], rest, other);
    } else {
      SectionIsLocal(lines[1..], rest, other, heading);
    }
  }

  lemma {:induction false} UntilIsLocal(lines: seq<string>, rest: seq<string>, other: seq<string>)
    requires rest != [] && other != [] && IsSection(rest[0]) && IsSection(other[0])
    ensures UntilSection(lines + rest) == UntilSection(lines + other)
  {
    if lines == [] {
      assert lines + rest == rest && lines + other == other;
    } else {
      assert (lines + rest)[1..] == lines[1..] + rest && (lines + other)[1..] == lines[1..] + other;
      UntilIsLocal(lines[1..], rest, other);
    }
  }

  /** A line that matches a heading of ours is a section line. */
  lemma MatchIsSection(line: string, heading: string)
    requires Matches(line, heading) && |Trim(heading)| > 2 && SECTION <= Trim(heading)
    ensures IsSection(line)
  {
    var t, h := Trim(line), Trim(heading);
    assert |Lower(t)| == |t| && |Lower(h)| == |h|;
    assert forall i :: 0 <= i < 3 ==> Lower(h)[i] == LowerChar(h[i]) && Lower(t)[i] == LowerChar(t[i]);
  }

  lemma {:induction false} NoSectionNoMatch(lines: seq<string>, heading: string)
    requires NoneSection(lines) && |Trim(heading)| > 2 && SECTION <= Trim(heading)
    ensures NoneMatches(lines, heading)
  {
    if lines != [] {
      if Matches(lines[0], heading) { MatchIsSection(lines[0], heading); }
      NoSectionNoMatch(lines[1..], heading);
    }
  }

  lemma TightIsTrimmed(s: string)
    requires s != "" && !IsSpace(s[0]) && !IsSpace(s[|s| - 1])
    ensures Trim(s) == s
  {
  }

  lemma HeadingFacts()
    ensures Trim(TASKS) == TASKS && Trim(ACCEPTANCE) == ACCEPTANCE && Trim(LOG) == LOG
    ensures IsSection(TASKS) && IsSection(LOG)
    ensures SECTION <= TASKS && SECTION <= ACCEPTANCE && SECTION <= LOG
  {
    TightIsTrimmed(TASKS);
    TightIsTrimmed(ACCEPTANCE);
    TightIsTrimmed(LOG);
  }

  lemma TasksAreNotAcceptance()
    ensures !Matches(TASKS, ACCEPTANCE)
  {
    HeadingFacts();
    assert Lower(TASKS)[3] != Lower(ACCEPTANCE)[3];
  }

  lemma TasksIn(head: seq<string>, rest: seq<string>, tasks: seq<string>)
    requires NoneMatches(head, TASKS) && rest != [] && rest[0] == TASKS && UntilSection(rest[1..]) == tasks
    ensures SectionLines(head + rest, TASKS) == tasks && HasHeading(head + rest, TASKS)
  {
    HeadingFirst(rest, rest[1..]);
    SkipToHeading(head, rest, TASKS);
  }

  lemma HeadingFirst(lines: seq<string>, rest: seq<string>)
    requires |lines| == |rest| + 1 && lines[0] == TASKS && lines[1..] == rest
    ensures SectionLines(lines, TASKS) == UntilSection(rest) && HasHeading(lines, TASKS)
  {
    assert Matches(lines[0], TASKS);
  }

  lemma Shift<T>(x: T, a: seq<T>, b: seq<T>)
    ensures var all := ([x] + a) + b; all != [] && all[0] == x && all[1..] == a + b
  {
  }

  lemma FirstOfMiddle(d: Doc)
    requires Readable(d)
    ensures IsSection((SplitLines(d.middle) + SplitLines(FromLog(d)))[0])
  {
  }

  /** Readers see exactly the task lines. */
  lemma ReadsTasks(d: Doc)
    requires Readable(d)
    ensures TaskLines(Render(d)) == d.tasks && HasHeading(SplitLines(Render(d)), TASKS)
  {
    RenderedLines(d);
    FirstOfMiddle(d);
    var below := SplitLines(d.middle) + SplitLines(FromLog(d));
    SectionStops(d.tasks, below);
    Shift(TASKS, d.tasks, below);
    TasksIn(SplitLines(d.head), ([TASKS] + d.tasks) + below, d.tasks);
    SplitJoin(d.tasks);
  }

  /** The lines that decide the acceptance criteria: nothing outside the middle. */
  function CriteriaLines(d: Doc): seq<string> {
    SectionLines(SplitLines(d.middle) + [LOG], ACCEPTANCE)
  }

  lemma ReadsCriteria(d: Doc)
    requires Readable(d)
    ensures SectionLines(SplitLines(Render(d)), ACCEPTANCE) == CriteriaLines(d)
    ensures HasHeading(SplitLines(Render(d)), ACCEPTANCE)
  {
    RenderedLines(d);
    LogLine(d);
    HeadingFacts();
    TasksAreNotAcceptance();
    var head, tasks := SplitLines(d.head), [TASKS] + d.tasks;
    var below := SplitLines(d.middle) + SplitLines(FromLog(d));
    SkipToHeading(head, tasks + below, ACCEPTANCE);
    NoSectionNoMatch(d.tasks, ACCEPTANCE);
    assert tasks[1..] == d.tasks;
    SkipToHeading(tasks, below, ACCEPTANCE);
    SectionIsLocal(SplitLines(d.middle), SplitLines(FromLog(d)), [LOG], ACCEPTANCE);
  }

  lemma {:induction false} HeadingDeeper(lines: seq<string>, rest: seq<string>, heading: string)
    requires HasHeading(rest, heading)
    ensures HasHeading(lines + rest, heading)
  {
    if lines == [] {
      assert lines + rest == rest;
    } else {
      assert (lines + rest)[1..] == lines[1..] + rest;
      HeadingDeeper(lines[1..], rest, heading);
    }
  }

  lemma ReadsLog(d: Doc)
    requires Readable(d)
    ensures HasHeading(SplitLines(Render(d)), LOG)
  {
    RenderedLines(d);
    LogLine(d);
    var log := SplitLines(FromLog(d));
    HeadingDeeper(SplitLines(d.middle), log, LOG);
    HeadingDeeper([TASKS] + d.tasks, SplitLines(d.middle) + log, LOG);
    HeadingDeeper(SplitLines(d.head), ([TASKS] + d.tasks) + (SplitLines(d.middle) + log), LOG);
  }

  lemma {:induction false} LineFound(lines: seq<string>, rest: seq<string>, p: string -> bool)
    requires SomeLine(lines, p)
    ensures SomeLine(lines + rest, p)
  {
    assert (lines + rest)[1..] == lines[1..] + rest;
    if !p(lines[0]) { LineFound(lines[1..], rest, p); }
  }

  /** The title, the goal and the issue stand before the tasks. */
  predicate Titled(d: Doc, namesIssue: string -> bool) {
    Contains(d.head, "# Plan:") && Contains(d.head, "**Goal:**") && SomeLine(SplitLines(d.head), namesIssue)
  }

  function DocCriteria(d: Doc): seq<Criterion> {
    CriteriaIn(SplitLines(Join(CriteriaLines(d))))
  }

  /** What every reader and the validator make of a canonical document. */
  lemma ReadsDocument(d: Doc, namesIssue: string -> bool)
    requires Readable(d) && Titled(d, namesIssue)
    ensures TaskLines(Render(d)) == d.tasks
    ensures AcceptanceCriteria(Render(d)) == DocCriteria(d)
    ensures Valid(Render(d), namesIssue) <==> TasksValid(d.tasks) && DocCriteria(d) != []
  {
    ReadsTasks(d);
    ReadsCriteria(d);
    ReadsLog(d);
    RenderedLines(d);
    LineFound(SplitLines(d.head), ([TASKS] + d.tasks) + (SplitLines(d.middle) + SplitLines(FromLog(d))), namesIssue);
    InHead(d.head, FromTasks(d), "# Plan:");
    InHead(d.head, FromTasks(d), "**Goal:**");
  }

  lemma InHead(head: string, rest: string, p: string)
    requires Contains(head, p)
    ensures Contains(head + "\n" + rest, p)
  {
    ContainsBefore(head, "\n" + rest, p);
    assert head + "\n" + rest == head + ("\n" + rest);
  }

  // ---------- where the tasks begin ----------

  lemma Prefixed(a: string, b: string)
    ensures a <= a + b && (a + b)[|a|..] == b
  {
  }

  lemma JoinPrefix(a: string, b: string, lines: seq<string>)
    ensures Join([a + b] + lines) == a + Join([b] + lines)
  {
    assert ([a + b] + lines)[1..] == lines && ([b] + lines)[1..] == lines;
    if lines != [] {
      assert a + b + "\n" + Join(lines) == a + (b + "\n" + Join(lines));
    }
  }

  lemma TaskPartStarts(d: Doc)
    ensures TaskPart(d) == TASKS + Join([""] + d.tasks)
    ensures FromTasks(d) == TASKS + (Join([""] + d.tasks) + "\n" + FromMiddle(d))
  {
    assert TASKS + "" == TASKS;
    JoinPrefix(TASKS, "", d.tasks);
    var inner := Join([""] + d.tasks);
    assert TASKS + inner + "\n" + FromMiddle(d) == TASKS + (inner + "\n" + FromMiddle(d));
  }

  lemma CutsTasks(d: Doc)
    requires Readable(d)
    ensures CutAt(Render(d), TASKS) == At(d.head + "\n", FromTasks(d)) && TASKS <= FromTasks(d)
  {
    HeadingsArePlain();
    TaskPartStarts(d);
    Prefixed(TASKS, Join([""] + d.tasks) + "\n" + FromMiddle(d));
    CutInNextLine(d.head, FromTasks(d), TASKS);
  }

  lemma BoxIsNoSection(line: string)
    requires IsBox(line)
    ensures !IsSection(line)
  {
    var t := TrimStart(line);
    assert t == line && line[0] == '-';
    TrimEndKeepsFirst(line);
  }

  lemma {:induction false} TrimEndKeepsFirst(s: string)
    requires s != "" && !IsSpace(s[0])
    ensures TrimEnd(s) != "" && TrimEnd(s)[0] == s[0]
  {
    if IsSpace(s[|s| - 1]) { TrimEndKeepsFirst(s[..|s| - 1]); }
  }

  lemma {:induction false} TrimStartDrops(s: string)
    ensures TrimStart(s) != "" ==> !IsSpace(TrimStart(s)[0])
    ensures s != "" && !IsSpace(s[0]) ==> TrimStart(s) == s
  {
    if s != "" && IsSpace(s[0]) { TrimStartDrops(s[1..]); }
  }

  lemma {:induction false} TrimEndIsPrefix(s: string)
    ensures TrimEnd(s) <= s
  {
    if s != "" && IsSpace(s[|s| - 1]) { TrimEndIsPrefix(s[..|s| - 1]); }
  }

  lemma PlainTogether(a: string, b: string)
    requires Plain(a) && Plain(b)
    ensures Plain(a + b)
  {
  }

  // ---------- ordinary plans ----------

  /** Two adjacent number signs, without which nothing can be mistaken for a section heading.
      Single ones, as in an issue number or a title, do no harm. */
  const HASHES := "##"

  lemma {:induction false} ContainsLess(s: string, p: string, less: string)
    requires Contains(s, p) && less <= p
    ensures Contains(s, less)
  {
    if p <= s {
      assert less <= s;
    } else {
      ContainsLess(s[1..], p, less);
    }
  }

  lemma {:induction false} TrimStartContains(s: string, p: string)
    requires Contains(TrimStart(s), p)
    ensures Contains(s, p)
  {
    if s != "" && IsSpace(s[0]) { TrimStartContains(s[1..], p); }
  }

  lemma {:induction false} TrimEndContains(s: string, p: string)
    requires Contains(TrimEnd(s), p)
    ensures Contains(s, p)
  {
    if s != "" && IsSpace(s[|s| - 1]) {
      TrimEndContains(s[..|s| - 1], p);
      ContainsBefore(s[..|s| - 1], s[|s| - 1..], p);
      assert s == s[..|s| - 1] + s[|s| - 1..];
    }
  }

  lemma HeadingsHaveHashes()
    ensures HASHES <= SECTION && HASHES <= TASKS && HASHES <= LOG && HASHES <= ACCEPTANCE
    ensures HASHES != "" && '\n' !in HASHES
  {
  }

  lemma NoHashesNoSection(line: string)
    requires !Contains(line, HASHES)
    ensures !IsSection(line) && !(SECTION <= line)
  {
    HeadingsHaveHashes();
    if IsSection(line) {
      assert HASHES <= Trim(line);
      TrimEndContains(TrimStart(line), HASHES);
      TrimStartContains(line, HASHES);
    }
    if SECTION <= line { ContainsLess(line, SECTION, HASHES); }
  }

  lemma {:induction false} NoHashesLines(lines: seq<string>, p: string)
    requires NoneContains(lines, HASHES) && HASHES <= p
    ensures NoneSection(lines) && NoneStarts(lines, SECTION) && NoneContains(lines, p)
  {
    if lines != [] {
      NoHashesNoSection(lines[0]);
      if Contains(lines[0], p) { ContainsLess(lines[0], p, HASHES); }
      NoHashesLines(lines[1..], p);
    }
  }

  lemma NoHashHides(line: string, p: string)
    requires '#' !in line && p != "" && p[0] == '#'
    ensures !Contains(line, p)
  {
    ContainsAfter(line, "", p);
    assert line + "" == line;
  }

  lemma AcceptanceHidesLog()
    ensures !Contains(ACCEPTANCE, LOG)
  {
    var rest := " Acceptance Criteria";
    assert ACCEPTANCE == "##" + rest && ACCEPTANCE[1..] == "#" + rest;
    assert ACCEPTANCE[3] == 'A' && LOG[3] == 'L';
    OneHashHides(rest, LOG);
  }

  lemma OneHashHides(name: string, p: string)
    requires '#' !in name && name != "" && |p| > 1 && p[0] == '#' && p[1] == '#'
    ensures !Contains("#" + name, p)
  {
    assert ("#" + name)[1] == name[0] && ("#" + name)[1..] == name;
    NoHashHides(name, p);
  }

  lemma OrdinaryHead(head: seq<string>)
    requires head != [] && AllPlain(head) && NoneContains(head, HASHES)
    ensures var text := Join(head);
            && Closed(text) && !Contains(text, TASKS) && !Contains(text, LOG)
            && NoneMatches(SplitLines(text), TASKS) && NoneMatches(SplitLines(text), ACCEPTANCE)
  {
    HeadingsHaveHashes();
    HeadingsArePlain();
    JoinClosed(head);
    SplitJoin(head);
    NoHashesLines(head, TASKS);
    NoHashesLines(head, LOG);
    JoinContains(head, TASKS);
    JoinContains(head, LOG);
    HeadingFacts();
    NoSectionNoMatch(head, TASKS);
    NoSectionNoMatch(head, ACCEPTANCE);
  }

  lemma StartsWithFirst(line: string, lines: seq<string>)
    ensures line <= Join([line] + lines)
  {
    if lines != [] { JoinFirst(line, lines); } else { assert [line] + lines == [line]; }
  }

  lemma OrdinaryLines(criteria: seq<string>)
    requires AllPlain(criteria)
    ensures AllPlain([ACCEPTANCE] + criteria) && SplitLines(Join([ACCEPTANCE] + criteria)) == [ACCEPTANCE] + criteria
    ensures IsSection(([ACCEPTANCE] + criteria)[0]) && HasHeading([ACCEPTANCE] + criteria, ACCEPTANCE)
  {
    AcceptanceIsPlain();
    SplitJoin([ACCEPTANCE] + criteria);
    HeadingFacts();
    MatchIsSection(ACCEPTANCE, ACCEPTANCE);
    assert Matches(ACCEPTANCE, ACCEPTANCE);
  }

  lemma OrdinaryMiddle(criteria: seq<string>)
    requires AllPlain(criteria) && NoneContains(criteria, HASHES)
    ensures var middle := Join([ACCEPTANCE] + criteria);
            && Closed(middle) && SECTION <= middle && !Contains(middle, LOG)
            && IsSection(SplitLines(middle)[0]) && HasHeading(SplitLines(middle), ACCEPTANCE)
  {
    OrdinaryLines(criteria);
    JoinClosed([ACCEPTANCE] + criteria);
    StartsWithFirst(ACCEPTANCE, criteria);
    SectionFirst(ACCEPTANCE, Join([ACCEPTANCE] + criteria));
    OrdinaryHidesLog(criteria);
  }

  lemma SectionFirst(heading: string, text: string)
    requires heading == ACCEPTANCE && heading <= text
    ensures SECTION <= text
  {
    assert SECTION <= heading;
  }

  lemma OrdinaryHidesLog(criteria: seq<string>)
    requires NoneContains(criteria, HASHES)
    ensures !Contains(Join([ACCEPTANCE] + criteria), LOG)
  {
    HeadingsArePlain();
    HeadingsHaveHashes();
    NoHashesLines(criteria, LOG);
    AcceptanceHidesLog();
    assert ([ACCEPTANCE] + criteria)[1..] == criteria;
    JoinContains([ACCEPTANCE] + criteria, LOG);
  }

  lemma AcceptanceIsPlain()
    ensures Plain(ACCEPTANCE)
  {
    PlainTogether("## Acceptance", " Criteria");
  }

  /** Every plan of the ordinary shape is canonical: any head of title, goal and issue lines,
      tasks, criteria and a log, where only the section headings have two number signs in a
      row. The log may hold anything. */
  lemma OrdinaryPlanIsCanonical(head: seq<string>, tasks: seq<string>, criteria: seq<string>, log: string)
    requires head != [] && AllPlain(head) && NoneContains(head, HASHES)
    requires tasks != [] && AllPlain(tasks) && NoneContains(tasks, HASHES)
    requires AllPlain(criteria) && NoneContains(criteria, HASHES)
    requires log == "" || log[0] == '\n'
    ensures Canonical(Doc(Join(head), tasks, Join([ACCEPTANCE] + criteria), log))
  {
    OrdinaryHead(head);
    HeadingsHaveHashes();
    NoHashesLines(tasks, LOG);
    OrdinaryMiddle(criteria);
  }
}
