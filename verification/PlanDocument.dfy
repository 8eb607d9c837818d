/** Reading the plan document and the edits that mark a task done or append a fix. */
module PlanDocument {
  import opened Text
  import opened LineStream
  import opened PlanText

  const TASKS := "## Tasks"
  const ACCEPTANCE := "## Acceptance Criteria"
  const LOG := "## Log"
  const SECTION := "## "
  const OPEN_BOX := "- [ ] "
  const DONE_BOX := "- [x] "

  // ---------- reading ----------

  function LowerChar(c: char): char {
    if 'A' <= c <= 'Z' then c - 'A' + 'a' else c
  }

  function Lower(s: string): string {
    seq(|s|, i requires 0 <= i < |s| => LowerChar(s[i]))
  }

  /** A line is a heading when it reads the same, up to case and surrounding space. */
  predicate Matches(line: string, heading: string) {
    Lower(Trim(line)) == Lower(Trim(heading))
  }

  /** `/^##\s+/` on the trimmed line. */
  predicate IsSection(line: string) {
    var t := Trim(line);
    |t| > 2 && t[0] == '#' && t[1] == '#' && IsSpace(t[2])
  }

  function UntilSection(lines: seq<string>): seq<string> {
    if lines == [] || IsSection(lines[0]) then [] else [lines[0]] + UntilSection(lines[1..])
  }

  function SectionLines(lines: seq<string>, heading: string): seq<string> {
    if lines == [] then []
    else if Matches(lines[0], heading) then UntilSection(lines[1..])
    else SectionLines(lines[1..], heading)
  }

  predicate HasHeading(lines: seq<string>, heading: string) {
    lines != [] && (Matches(lines[0], heading) || HasHeading(lines[1..], heading))
  }

  /** The body of a section. */
  method Section(plan: string, heading: string) returns (body: string)
    ensures body == Join(SectionLines(SplitLines(plan), heading))
  {
    var lines := SplitLines(plan);
    var start := HeadingIndex(lines, heading);
    if start == |lines| { return ""; }
    var end := SectionEnd(lines, start + 1);
    body := Join(lines[start + 1..end]);
  }

  method HeadingIndex(lines: seq<string>, heading: string) returns (start: nat)
    ensures start <= |lines|
    ensures SectionLines(lines, heading) == if start < |lines| then UntilSection(lines[start + 1..]) else []
  {
    start := 0;
    while start < |lines| && !Matches(lines[start], heading)
      invariant start <= |lines| && SectionLines(lines, heading) == SectionLines(lines[start..], heading)
    {
      assert lines[start..][1..] == lines[start + 1..];
      start := start + 1;
    }
    if start < |lines| { assert lines[start..][1..] == lines[start + 1..]; }
  }

  method SectionEnd(lines: seq<string>, start: nat) returns (end: nat)
    requires start <= |lines|
    ensures start <= end <= |lines| && lines[start..end] == UntilSection(lines[start..])
  {
    end := start;
    while end < |lines| && !IsSection(lines[end])
      invariant start <= end <= |lines|
      invariant UntilSection(lines[start..]) == lines[start..end] + UntilSection(lines[end..])
    {
      NotASection(lines[end..]);
      Slices(lines, start, end, UntilSection(lines[end + 1..]));
      end := end + 1;
    }
  }

  lemma NotASection(lines: seq<string>)
    requires lines != [] && !IsSection(lines[0])
    ensures UntilSection(lines) == [lines[0]] + UntilSection(lines[1..])
  {
  }

  lemma Slices(lines: seq<string>, start: nat, end: nat, rest: seq<string>)
    requires start <= end < |lines|
    ensures lines[end..][1..] == lines[end + 1..] && lines[end..][0] == lines[end]
    ensures lines[start..end] + ([lines[end]] + rest) == lines[start..end + 1] + rest
  {
  }

  predicate IsOpen(line: string) {
    OPEN_BOX <= line
  }

  predicate IsBox(line: string) {
    OPEN_BOX <= line || DONE_BOX <= line
  }

  datatype Task = Task(text: string, block: seq<string>)

  function FirstOpen(lines: seq<string>): nat {
    if lines == [] || IsOpen(lines[0]) then 0 else 1 + FirstOpen(lines[1..])
  }

  function UntilBox(lines: seq<string>): seq<string> {
    if lines == [] || IsBox(lines[0]) then [] else [lines[0]] + UntilBox(lines[1..])
  }

  /** A checkbox line with the lines below it, up to the next checkbox. */
  function BlockAt(lines: seq<string>, i: nat): seq<string>
    requires i < |lines|
  {
    [lines[i]] + UntilBox(lines[i + 1..])
  }

  function TaskText(line: string): string {
    if |line| < 6 then "" else Trim(line[6..])
  }

  function OpenTask(lines: seq<string>): Option<Task> {
    var i := FirstOpen(lines);
    if i < |lines| then Some(Task(TaskText(lines[i]), BlockAt(lines, i))) else None
  }

  /** What the plan's readers see: the lines of its tasks section. */
  function TaskLines(plan: string): seq<string> {
    SplitLines(Join(SectionLines(SplitLines(plan), TASKS)))
  }

  /** The first unchecked task. */
  method CurrentTask(plan: string) returns (task: Option<Task>)
    ensures task == OpenTask(TaskLines(plan))
  {
    var body := Section(plan, TASKS);
    var lines := SplitLines(body);
    var start := FindOpen(lines);
    if start == |lines| { return None; }
    var block := CollectBlock(lines, start);
    task := Some(Task(TaskText(lines[start]), block));
  }

  method FindOpen(lines: seq<string>) returns (start: nat)
    ensures start == FirstOpen(lines) <= |lines|
  {
    start := 0;
    while start < |lines| && !IsOpen(lines[start])
      invariant start <= |lines| && FirstOpen(lines) == start + FirstOpen(lines[start..])
    {
      assert lines[start..][1..] == lines[start + 1..];
      start := start + 1;
    }
  }

  method CollectBlock(lines: seq<string>, start: nat) returns (block: seq<string>)
    requires start < |lines|
    ensures block == BlockAt(lines, start)
  {
    var index := start + 1;
    block := [lines[start]];
    while index < |lines| && !IsBox(lines[index])
      invariant start < index <= |lines| && BlockAt(lines, start) == block + UntilBox(lines[index..])
    {
      assert lines[index..][1..] == lines[index + 1..];
      block := block + [lines[index]];
      index := index + 1;
    }
  }

  datatype Criterion = Criterion(checked: bool, text: string)

  function CriteriaIn(lines: seq<string>): seq<Criterion> {
    if lines == [] then []
    else
      var rest := CriteriaIn(lines[1..]);
      if IsBox(lines[0]) && |lines[0]| > 6 then [Criterion(DONE_BOX <= lines[0], TaskText(lines[0]))] + rest else rest
  }

  function AcceptanceCriteria(plan: string): seq<Criterion> {
    CriteriaIn(SplitLines(Join(SectionLines(SplitLines(plan), ACCEPTANCE))))
  }

  // ---------- validity ----------

  predicate Mentions(block: seq<string>, field: string) {
    block != [] && (field <= TrimStart(block[0]) || Mentions(block[1..], field))
  }

  /** A task line with text. */
  predicate IsTask(line: string) {
    IsBox(line) && |line| > 6
  }

  predicate BlockComplete(lines: seq<string>, i: nat)
    requires i < |lines|
  {
    IsTask(lines[i]) ==> Mentions(BlockAt(lines, i), "- Files:") && Mentions(BlockAt(lines, i), "- Approach:")
  }

  ghost predicate TasksValid(lines: seq<string>) {
    && (exists i :: 0 <= i < |lines| && IsTask(lines[i]))
    && (forall i :: 0 <= i < |lines| ==> BlockComplete(lines, i))
  }

  predicate SomeLine(lines: seq<string>, p: string -> bool) {
    lines != [] && (p(lines[0]) || SomeLine(lines[1..], p))
  }

  /** `namesIssue` recognises the plan's GitHub issue line. */
  ghost predicate Valid(plan: string, namesIssue: string -> bool) {
    var lines := SplitLines(plan);
    && Contains(plan, "# Plan:") && Contains(plan, "**Goal:**")
    && HasHeading(lines, TASKS) && HasHeading(lines, ACCEPTANCE) && HasHeading(lines, LOG)
    && SomeLine(lines, namesIssue)
    && TasksValid(TaskLines(plan))
    && AcceptanceCriteria(plan) != []
  }

  datatype PlanError =
    | MissingToken(token: string) | MissingHeading(heading: string) | MissingIssue
    | NoTasks | MissingFiles(task: string) | MissingApproach(task: string) | NoCriteria

  // ---------- what a valid plan is ----------

  ghost predicate Occurs(s: string, p: string) {
    exists i :: 0 <= i <= |s| && p <= s[i..]
  }

  ghost predicate HeadingLine(lines: seq<string>, heading: string) {
    exists i :: 0 <= i < |lines| && Matches(lines[i], heading)
  }

  /** A checkbox line with text. */
  predicate TaskAt(lines: seq<string>, i: nat) {
    i < |lines| && ("- [ ] " <= lines[i] || "- [x] " <= lines[i]) && |lines[i]| > 6
  }

  /** Some line of the task, before the next checkbox, begins with the field. */
  ghost predicate FieldAt(lines: seq<string>, i: nat, field: string) {
    exists j :: i <= j < |lines| && field <= TrimStart(lines[j]) && NoBoxBetween(lines, i, j)
  }

  predicate NoBoxBetween(lines: seq<string>, i: nat, j: nat)
    requires j < |lines|
  {
    forall k :: i < k <= j ==> !("- [ ] " <= lines[k]) && !("- [x] " <= lines[k])
  }

  ghost predicate SomeTask(lines: seq<string>) {
    exists i: nat :: TaskAt(lines, i)
  }

  /** What makes the tasks of a plan complete. */
  ghost predicate TasksComplete(lines: seq<string>) {
    && SomeTask(lines)
    && forall i: nat :: TaskAt(lines, i) ==> FieldAt(lines, i, "- Files:") && FieldAt(lines, i, "- Approach:")
  }

  lemma {:induction false} OccursMeans(s: string, p: string)
    ensures Contains(s, p) <==> Occurs(s, p)
  {
    assert s[0..] == s;
    if s != "" {
      OccursMeans(s[1..], p);
      assert forall i :: 0 <= i <= |s| - 1 ==> s[1..][i..] == s[i + 1..];
      if i :| 0 <= i <= |s| && p <= s[i..] {
        if i > 0 { assert s[1..][i - 1..] == s[i..]; }
      }
    }
  }

  lemma {:induction false} HeadingMeans(lines: seq<string>, heading: string)
    ensures HasHeading(lines, heading) <==> HeadingLine(lines, heading)
  {
    if lines != [] {
      HeadingMeans(lines[1..], heading);
      if i :| 0 <= i < |lines| && Matches(lines[i], heading) {
        if i > 0 { assert lines[1..][i - 1] == lines[i]; }
      }
      if i :| 0 <= i < |lines[1..]| && Matches(lines[1..][i], heading) { assert lines[i + 1] == lines[1..][i]; }
    }
  }

  lemma {:induction false} SomeLineMeans(lines: seq<string>, p: string -> bool)
    ensures SomeLine(lines, p) <==> exists i :: 0 <= i < |lines| && p(lines[i])
  {
    if lines != [] {
      SomeLineMeans(lines[1..], p);
      if i :| 0 <= i < |lines| && p(lines[i]) {
        if i > 0 { assert lines[1..][i - 1] == lines[i]; }
      }
      if i :| 0 <= i < |lines[1..]| && p(lines[1..][i]) { assert lines[i + 1] == lines[1..][i]; }
    }
  }

  /** A field is mentioned up to the next checkbox. */
  lemma {:induction false} MentionedBelow(lines: seq<string>, first: nat, field: string)
    requires first <= |lines|
    ensures Mentions(UntilBox(lines[first..]), field)
            <==> exists j :: first <= j < |lines| && field <= TrimStart(lines[j])
                             && forall k :: first <= k <= j ==> !IsBox(lines[k])
    decreases |lines| - first
  {
    if first < |lines| && !IsBox(lines[first]) {
      MentionedBelow(lines, first + 1, field);
      assert lines[first..][1..] == lines[first + 1..];
      var block := UntilBox(lines[first..]);
      assert block[0] == lines[first] && block[1..] == UntilBox(lines[first + 1..]);
    }
  }

  lemma FieldMeans(lines: seq<string>, i: nat, field: string)
    requires i < |lines|
    ensures Mentions(BlockAt(lines, i), field) <==> FieldAt(lines, i, field)
  {
    MentionedBelow(lines, i + 1, field);
    var block := BlockAt(lines, i);
    assert block[0] == lines[i] && block[1..] == UntilBox(lines[i + 1..]);
    if j :| i <= j < |lines| && field <= TrimStart(lines[j]) && NoBoxBetween(lines, i, j) {
      if j > i {
        forall k | i + 1 <= k <= j ensures !IsBox(lines[k]) {}
      }
    }
    if j :| i + 1 <= j < |lines| && field <= TrimStart(lines[j]) && forall k :: i + 1 <= k <= j ==> !IsBox(lines[k]) {
      assert NoBoxBetween(lines, i, j);
    }
    if field <= TrimStart(lines[i]) { assert NoBoxBetween(lines, i, i); }
  }

  lemma TasksMean(lines: seq<string>)
    ensures TasksValid(lines) <==> TasksComplete(lines)
  {
    forall i | 0 <= i < |lines|
      ensures BlockComplete(lines, i)
              <==> (TaskAt(lines, i) ==> FieldAt(lines, i, "- Files:") && FieldAt(lines, i, "- Approach:"))
    {
      FieldMeans(lines, i, "- Files:");
      FieldMeans(lines, i, "- Approach:");
    }
    if i :| 0 <= i < |lines| && IsTask(lines[i]) { assert TaskAt(lines, i); }
    if i: nat :| TaskAt(lines, i) { assert IsTask(lines[i]); }
  }

  lemma {:induction false} CriteriaMean(lines: seq<string>)
    ensures CriteriaIn(lines) != [] <==> SomeTask(lines)
  {
    if lines != [] {
      CriteriaMean(lines[1..]);
      if i: nat :| TaskAt(lines, i) {
        if i > 0 { assert TaskAt(lines[1..], i - 1); } else { assert IsBox(lines[0]); }
      }
      if i: nat :| TaskAt(lines[1..], i) { assert TaskAt(lines, i + 1); }
      if IsBox(lines[0]) && |lines[0]| > 6 { assert TaskAt(lines, 0); }
    }
  }

  lemma HeadingsMean(lines: seq<string>)
    ensures HasHeading(lines, TASKS) <==> HeadingLine(lines, "## Tasks")
    ensures HasHeading(lines, ACCEPTANCE) <==> HeadingLine(lines, "## Acceptance Criteria")
    ensures HasHeading(lines, LOG) <==> HeadingLine(lines, "## Log")
  {
    HeadingMeans(lines, TASKS);
    HeadingMeans(lines, ACCEPTANCE);
    HeadingMeans(lines, LOG);
  }

  /** A plan is valid if and only if both tokens occur in it, each heading is a line of it, some
      line names its issue, it has a task, each task names its files and its approach before the
      next checkbox, and there is a criterion. */
  lemma ValidExactly(plan: string, namesIssue: string -> bool)
    ensures var lines := SplitLines(plan);
            Valid(plan, namesIssue)
            <==> && Occurs(plan, "# Plan:") && Occurs(plan, "**Goal:**")
                 && HeadingLine(lines, "## Tasks") && HeadingLine(lines, "## Acceptance Criteria")
                 && HeadingLine(lines, "## Log")
                 && (exists i :: 0 <= i < |lines| && namesIssue(lines[i]))
                 && TasksComplete(TaskLines(plan))
                 && SomeTask(SplitLines(Join(SectionLines(lines, "## Acceptance Criteria"))))
  {
    var lines := SplitLines(plan);
    OccursMeans(plan, "# Plan:");
    OccursMeans(plan, "**Goal:**");
    HeadingsMean(lines);
    SomeLineMeans(lines, namesIssue);
    TasksMean(TaskLines(plan));
    CriteriaMean(SplitLines(Join(SectionLines(lines, ACCEPTANCE))));
  }

  method ValidatePlan(plan: string, namesIssue: string -> bool) returns (errors: seq<PlanError>)
    ensures errors == [] <==> Valid(plan, namesIssue)
  {
    var lines := SplitLines(plan);
    var structure := ValidateStructure(plan, lines, namesIssue);
    var body := Section(plan, TASKS);
    var tasks := ValidateTasks(SplitLines(body));
    errors := structure + tasks;
    if AcceptanceCriteria(plan) == [] { errors := errors + [NoCriteria]; }
  }

  method ValidateStructure(plan: string, lines: seq<string>, namesIssue: string -> bool)
    returns (errors: seq<PlanError>)
    ensures errors == [] <==>
              && Contains(plan, "# Plan:") && Contains(plan, "**Goal:**")
              && HasHeading(lines, TASKS) && HasHeading(lines, ACCEPTANCE) && HasHeading(lines, LOG)
              && SomeLine(lines, namesIssue)
  {
    errors := [];
    if !Contains(plan, "# Plan:") { errors := errors + [MissingToken("# Plan:")]; }
    if !Contains(plan, "**Goal:**") { errors := errors + [MissingToken("**Goal:**")]; }
    if !HasHeading(lines, TASKS) { errors := errors + [MissingHeading(TASKS)]; }
    if !HasHeading(lines, ACCEPTANCE) { errors := errors + [MissingHeading(ACCEPTANCE)]; }
    if !HasHeading(lines, LOG) { errors := errors + [MissingHeading(LOG)]; }
    if !SomeLine(lines, namesIssue) { errors := errors + [MissingIssue]; }
  }

  method ValidateTasks(lines: seq<string>) returns (errors: seq<PlanError>)
    ensures errors == [] <==> TasksValid(lines)
  {
    errors := [];
    var found := false;
    for i := 0 to |lines|
      invariant found <==> exists j :: 0 <= j < i && IsTask(lines[j])
      invariant errors == [] <==> forall j :: 0 <= j < i ==> BlockComplete(lines, j)
    {
      if IsTask(lines[i]) {
        found := true;
        var block := BlockAt(lines, i);
        var files, approach := Mentions(block, "- Files:"), Mentions(block, "- Approach:");
        assert BlockComplete(lines, i) <==> files && approach;
        if !files { errors := errors + [MissingFiles(TaskText(lines[i]))]; }
        if !approach { errors := errors + [MissingApproach(TaskText(lines[i]))]; }
      } else {
        assert BlockComplete(lines, i);
      }
    }
    if !found { errors := errors + [NoTasks]; }
  }
}
