/** The verification report: computed and written by the verify action, re-read by the archive gate. */
module VerificationReport {
  import opened Text

  const ACCEPTANCE_EVIDENCE_POLICY := "structured-v1"
  const MIN_CONCRETE_EVIDENCE_LENGTH: nat := 20

  datatype Verdict = Pass | Fail | External | Unproven

  datatype Status = PassStatus | FailStatus | NeedsReview

  datatype Criterion = Criterion(checked: bool, text: string)

  datatype ReviewVerdict = ReviewPass | ReviewFail | ReviewExternal

  datatype Scope = Local | Composed

  datatype Review = Review(criterion: string, verdict: ReviewVerdict, evidence: string, scope: Option<Scope>)

  datatype Row = Row(criterion: string, verdict: Verdict, evidence: string)

  /** The wording classifiers and the commands, which this model leaves open. */
  datatype Oracle = Oracle(
    finalExternal: string -> bool,          // the final-verification classifier
    external: string -> bool,               // an external gate that is no repository policy
    emptyClaim: string -> bool,             // evidence that only claims completion
    provenanceGap: (string, string) -> bool,
    needsComposed: string -> bool,
    run: string -> (bool, string),          // exit status and failure evidence
    grep: string -> bool,
    explain: (Criterion, Option<Review>) -> string,  // fixed explanations of a verdict other than PASS
    authorityText: string -> string)        // the wording compared with the live issue

  // ---------- computing verdicts ----------

  function CompactFrom(s: string, afterSpace: bool): string {
    if s == "" then ""
    else if IsSpace(s[0]) then (if afterSpace then "" else " ") + CompactFrom(s[1..], true)
    else [s[0]] + CompactFrom(s[1..], false)
  }

  function Compact(s: string): string {
    CompactFrom(Trim(s), false)
  }

  function FindReview(reviews: seq<Review>, criterion: string): Option<Review> {
    if reviews == [] then None
    else if reviews[0].criterion == criterion then Some(reviews[0])
    else FindReview(reviews[1..], criterion)
  }

  function OrElse(s: string, fallback: string): string {
    if s != "" then s else fallback
  }

  function ScopeName(scope: Option<Scope>): string {
    if scope == Some(Composed) then "composed/system-level" else "local"
  }

  function ManualVerdict(o: Oracle, criterion: Criterion, reviews: seq<Review>): Verdict {
    var check := criterion.text;
    var review := FindReview(reviews, check);
    if o.external(check) then External
    else if review.None? then Unproven
    else
      var evidence := Compact(review.value.evidence);
      if review.value.verdict == ReviewFail then Fail
      else if review.value.verdict == ReviewExternal then External
      else if |evidence| < MIN_CONCRETE_EVIDENCE_LENGTH || o.emptyClaim(evidence) then Unproven
      else if o.provenanceGap(check, evidence) then Unproven
      else if o.needsComposed(check) && review.value.scope != Some(Composed) then Unproven
      else Pass
  }

  /** The evidence beside a manual verdict; explanations of a refused review are left open. */
  function ManualEvidence(o: Oracle, criterion: Criterion, reviews: seq<Review>): string {
    var review := FindReview(reviews, criterion.text);
    if o.external(criterion.text) || review.None? || ManualVerdict(o, criterion, reviews) == Unproven
    then o.explain(criterion, review)
    else
      var evidence := Compact(review.value.evidence);
      if review.value.verdict == ReviewPass then ScopeName(review.value.scope) + " evidence: " + evidence
      else OrElse(evidence, o.explain(criterion, review))
  }

  predicate IsMechanical(text: string) {
    "run:" <= text || "grep:" <= text || "commit:" <= text
  }

  function SemanticReviews(reviews: seq<Review>): seq<Review> {
    if reviews == [] then []
    else
      var front := SemanticReviews(reviews[..|reviews| - 1]);
      if IsMechanical(reviews[|reviews| - 1].criterion) then front else front + [reviews[|reviews| - 1]]
  }

  function PlannedTexts(o: Oracle, criteria: seq<Criterion>): set<string> {
    set c | c in criteria && !IsMechanical(c.text) :: o.authorityText(c.text)
  }

  function NotPlanned(o: Oracle, authoritative: seq<string>, planned: set<string>): seq<string> {
    if authoritative == [] then []
    else
      var rest := NotPlanned(o, authoritative[1..], planned);
      if o.authorityText(authoritative[0]) in planned then rest else [authoritative[0]] + rest
  }

  /** The authoritative criteria that the plan omits or rewords. */
  function MissingCriteria(o: Oracle, authoritative: seq<string>, criteria: seq<Criterion>): seq<string> {
    NotPlanned(o, authoritative, PlannedTexts(o, criteria))
  }

  function VerdictFor(o: Oracle, criterion: Criterion, reviews: seq<Review>): Verdict {
    var check := criterion.text;
    if !o.finalExternal(check) && "run:" <= check then
      if o.run(Trim(check[4..])).0 then Pass else Fail
    else if !o.finalExternal(check) && "grep:" <= check then
      if o.grep(Trim(check[5..])) then Pass else Fail
    else ManualVerdict(o, criterion, reviews)
  }

  function EvidenceFor(o: Oracle, criterion: Criterion, reviews: seq<Review>): string {
    var check := criterion.text;
    if !o.finalExternal(check) && "run:" <= check then
      var (ok, output) := o.run(Trim(check[4..]));
      if ok then "exit 0" else output
    else if !o.finalExternal(check) && "grep:" <= check then
      if o.grep(Trim(check[5..])) then "matched" else "not matched"
    else ManualEvidence(o, criterion, reviews)
  }

  function RowFor(o: Oracle, criterion: Criterion, reviews: seq<Review>): Row {
    Row(criterion.text, VerdictFor(o, criterion, reviews), EvidenceFor(o, criterion, reviews))
  }

  function MissingRow(criterion: string): Row {
    Row("GitHub authority: " + criterion, Fail, "authoritative issue criterion is missing or reworded in PLAN.md")
  }

  function MissingRows(missing: seq<string>): seq<Row> {
    if missing == [] then [] else [MissingRow(missing[0])] + MissingRows(missing[1..])
  }

  function RowsFor(o: Oracle, criteria: seq<Criterion>, reviews: seq<Review>): seq<Row> {
    if criteria == [] then []
    else RowsFor(o, criteria[..|criteria| - 1], reviews) + [RowFor(o, criteria[|criteria| - 1], reviews)]
  }

  /** What the verify action learnt and decided. */
  datatype Verification = Verification(status: Status, rows: seq<Row>, missing: seq<string>)

  /** A criterion that counts as proven. */
  predicate Proven(o: Oracle, criterion: Criterion, reviews: seq<Review>) {
    !o.finalExternal(criterion.text) && VerdictFor(o, criterion, reviews) == Pass
  }

  /** The rows list what is missing and every criterion; PASS means that authority was
      read, there are criteria, none is missing and each is proven. */
  ghost predicate Decided(o: Oracle, criteria: seq<Criterion>, allReviews: seq<Review>, live: Option<seq<string>>,
                          v: Verification) {
    var reviews := SemanticReviews(allReviews);
    && v.missing == (if live.Some? then MissingCriteria(o, live.value, criteria) else [])
    && v.rows == MissingRows(v.missing) + RowsFor(o, criteria, reviews)
    && (v.status == PassStatus <==>
          && live.Some? && criteria != [] && v.missing == []
          && forall c :: c in criteria ==> Proven(o, c, reviews))
    && (v.status == FailStatus <==> v.missing != [] || exists c :: c in criteria && Fails(o, c, reviews))
  }

  /** The verify action. `live` is the live issue's criteria, when authority could be read. */
  method Verify(o: Oracle, criteria: seq<Criterion>, allReviews: seq<Review>, live: Option<seq<string>>)
    returns (v: Verification)
    ensures Decided(o, criteria, allReviews, live, v)
    ensures VerificationMeans(o, criteria, allReviews, live, v)
  {
    var reviews := SemanticReviews(allReviews);
    var missing := if live.Some? then MissingCriteria(o, live.value, criteria) else [];
    var rows, failed, unresolved := Judge(o, criteria, reviews);
    failed := failed || |missing| > 0;
    unresolved := unresolved || criteria == [] || live.None?;
    FlagsMean(o, criteria, reviews);
    v := Verification(if failed then FailStatus else if unresolved then NeedsReview else PassStatus,
                      MissingRows(missing) + rows, missing);
    DecidedMeans(o, criteria, allReviews, live, v);
  }

  method Judge(o: Oracle, criteria: seq<Criterion>, reviews: seq<Review>)
    returns (rows: seq<Row>, failed: bool, unresolved: bool)
    ensures rows == RowsFor(o, criteria, reviews)
    ensures failed == SomeFails(o, criteria, reviews) && unresolved == SomeUnresolved(o, criteria, reviews)
  {
    rows, failed, unresolved := [], false, false;
    for i := 0 to |criteria|
      invariant rows == RowsFor(o, criteria[..i], reviews)
      invariant failed == SomeFails(o, criteria[..i], reviews)
      invariant unresolved == SomeUnresolved(o, criteria[..i], reviews)
    {
      assert criteria[..i + 1][..i] == criteria[..i];
      var verdict := VerdictFor(o, criteria[i], reviews);
      if o.finalExternal(criteria[i].text) {
        unresolved := true;
      } else {
        if verdict == Fail { failed := true; }
        if verdict == External || verdict == Unproven { unresolved := true; }
      }
      rows := rows + [Row(criteria[i].text, verdict, EvidenceFor(o, criteria[i], reviews))];
    }
    assert criteria[..|criteria|] == criteria;
  }

  predicate Fails(o: Oracle, criterion: Criterion, reviews: seq<Review>) {
    !o.finalExternal(criterion.text) && VerdictFor(o, criterion, reviews) == Fail
  }

  predicate SomeFails(o: Oracle, criteria: seq<Criterion>, reviews: seq<Review>) {
    criteria != [] &&
    (SomeFails(o, criteria[..|criteria| - 1], reviews) || Fails(o, criteria[|criteria| - 1], reviews))
  }

  predicate SomeUnresolved(o: Oracle, criteria: seq<Criterion>, reviews: seq<Review>) {
    criteria != [] &&
    var last := criteria[|criteria| - 1];
    SomeUnresolved(o, criteria[..|criteria| - 1], reviews) || (!Fails(o, last, reviews) && !Proven(o, last, reviews))
  }

  lemma {:induction false} FlagsMean(o: Oracle, criteria: seq<Criterion>, reviews: seq<Review>)
    ensures SomeFails(o, criteria, reviews) <==> exists c :: c in criteria && Fails(o, c, reviews)
    ensures !SomeFails(o, criteria, reviews) && !SomeUnresolved(o, criteria, reviews)
            <==> forall c :: c in criteria ==> Proven(o, c, reviews)
  {
    if criteria != [] {
      var front, last := criteria[..|criteria| - 1], criteria[|criteria| - 1];
      FlagsMean(o, front, reviews);
      assert criteria == front + [last];
      assert forall c :: c in criteria <==> c in front || c == last;
    }
  }

  /** Concrete evidence that a review gives for a criterion. */
  predicate Concrete(o: Oracle, check: string, r: Review) {
    var evidence := Compact(r.evidence);
    && r.criterion == check && r.verdict == ReviewPass
    && |evidence| >= MIN_CONCRETE_EVIDENCE_LENGTH && !o.emptyClaim(evidence) && !o.provenanceGap(check, evidence)
    && (o.needsComposed(check) ==> r.scope == Some(Composed))
  }

  lemma {:induction false} FoundIsListed(reviews: seq<Review>, criterion: string)
    requires FindReview(reviews, criterion).Some?
    ensures FindReview(reviews, criterion).value in reviews
    ensures FindReview(reviews, criterion).value.criterion == criterion
  {
    if reviews[0].criterion != criterion {
      FoundIsListed(reviews[1..], criterion);
      assert reviews == [reviews[0]] + reviews[1..];
    }
  }

  lemma {:induction false} SemanticAreReviews(reviews: seq<Review>, r: Review)
    requires r in SemanticReviews(reviews)
    ensures r in reviews && !IsMechanical(r.criterion)
  {
    var front, last := reviews[..|reviews| - 1], reviews[|reviews| - 1];
    assert reviews == front + [last];
    if r in SemanticReviews(front) { SemanticAreReviews(front, r); }
  }

  /** A criterion that no command decides passes only on concrete evidence of a submitted
      review; a checked box proves nothing, and an external criterion cannot pass at all. */
  lemma PassNeedsEvidence(o: Oracle, criterion: Criterion, allReviews: seq<Review>, checked: bool)
    requires !IsMechanical(criterion.text)
    requires Proven(o, criterion, SemanticReviews(allReviews))
    ensures !o.external(criterion.text)
    ensures exists r :: r in allReviews && Concrete(o, criterion.text, r)
    ensures Proven(o, criterion.(checked := checked), SemanticReviews(allReviews))
  {
    var reviews := SemanticReviews(allReviews);
    FoundIsListed(reviews, criterion.text);
    var r := FindReview(reviews, criterion.text).value;
    SemanticAreReviews(allReviews, r);
    assert Concrete(o, criterion.text, r);
  }

  /** A `commit:` criterion counts as mechanical, so its reviews are dropped, but no
      branch evaluates it: it can never be proven. */
  lemma CommitCriterionNeverProven(o: Oracle, criterion: Criterion, allReviews: seq<Review>)
    requires "commit:" <= criterion.text
    ensures !Proven(o, criterion, SemanticReviews(allReviews))
  {
    NoMechanicalReview(allReviews, criterion.text);
    assert criterion.text[0] == 'c';
    assert !("run:" <= criterion.text) && !("grep:" <= criterion.text);
  }

  // ---------- what a verification means ----------

  predicate Mechanical(text: string) {
    "run:" <= text || "grep:" <= text || "commit:" <= text
  }

  /** Some criterion of the plan, other than a mechanical one, has the wording of this one. */
  ghost predicate Planned(o: Oracle, criteria: seq<Criterion>, authoritative: string) {
    exists c :: c in criteria && !Mechanical(c.text) && o.authorityText(c.text) == o.authorityText(authoritative)
  }

  /** These positions, in ascending order, are exactly those of the criteria with another wording
      than these, not counting the first ones. */
  predicate OthersAt(at: seq<nat>, o: Oracle, live: seq<string>, planned: set<string>, first: nat) {
    && (forall i :: 0 <= i < |at| ==> first <= at[i] < |live| && o.authorityText(live[at[i]]) !in planned)
    && (forall i, j :: 0 <= i < j < |at| ==> at[i] < at[j])
    && (forall k :: first <= k < |live| && o.authorityText(live[k]) !in planned ==> k in at)
  }

  predicate Picks(missing: seq<string>, live: seq<string>, at: seq<nat>) {
    && |at| == |missing|
    && (forall i, j :: 0 <= i < j < |at| ==> at[i] < at[j])
    && forall i :: 0 <= i < |at| ==> at[i] < |live| && missing[i] == live[at[i]]
  }

  /** The criteria of the issue that the plan does not have, in the issue's order, each as often
      as the issue lists it. */
  ghost predicate Unplanned(o: Oracle, live: seq<string>, criteria: seq<Criterion>, missing: seq<string>) {
    && (forall x :: x in missing <==> x in live && !Planned(o, criteria, x))
    && exists at :: Picks(missing, live, at)
                    && forall k :: 0 <= k < |live| && !Planned(o, criteria, live[k]) ==> k in at
  }

  /** The first review submitted for the criterion. */
  predicate FirstReview(reviews: seq<Review>, text: string, k: nat) {
    k < |reviews| && reviews[k].criterion == text && forall j :: 0 <= j < k ==> reviews[j].criterion != text
  }

  /** Its command succeeds, or the first review for it is concrete evidence. */
  ghost predicate ProvenBy(o: Oracle, criterion: Criterion, reviews: seq<Review>) {
    var text := criterion.text;
    && !o.finalExternal(text)
    && if "run:" <= text then o.run(Trim(text[4..])).0
       else if "grep:" <= text then o.grep(Trim(text[5..]))
       else && !Mechanical(text) && !o.external(text)
            && exists k: nat :: FirstReview(reviews, text, k) && Concrete(o, text, reviews[k])
  }

  /** Its command fails, or the first review for it says that it fails. */
  ghost predicate RefutedBy(o: Oracle, criterion: Criterion, reviews: seq<Review>) {
    var text := criterion.text;
    && !o.finalExternal(text)
    && if "run:" <= text then !o.run(Trim(text[4..])).0
       else if "grep:" <= text then !o.grep(Trim(text[5..]))
       else && !Mechanical(text) && !o.external(text)
            && exists k: nat :: FirstReview(reviews, text, k) && reviews[k].verdict == ReviewFail
  }

  /** PASS: authority was read, the plan has every criterion of the issue and at least one, and
      each is proven. FAIL: the plan lacks one, or one is refuted. */
  ghost predicate VerificationMeans(o: Oracle, criteria: seq<Criterion>, reviews: seq<Review>,
                                    live: Option<seq<string>>, v: Verification) {
    && (if live.Some? then Unplanned(o, live.value, criteria, v.missing) else v.missing == [])
    && (v.status == PassStatus <==>
          && live.Some? && criteria != [] && (forall x :: x in live.value ==> Planned(o, criteria, x))
          && forall c :: c in criteria ==> ProvenBy(o, c, reviews))
    && (v.status == FailStatus <==>
          || (live.Some? && exists x :: x in live.value && !Planned(o, criteria, x))
          || exists c :: c in criteria && RefutedBy(o, c, reviews))
    && |v.rows| == |v.missing| + |criteria|
    && (forall i :: 0 <= i < |v.missing| ==> AboveMeans(v.missing[i], v.rows[i]))
    && (forall i :: 0 <= i < |criteria| ==> RowMeans(o, criteria[i], reviews, v.rows[|v.missing| + i]))
  }

  predicate AboveMeans(missing: string, row: Row) {
    row.verdict == Fail && row.criterion == "GitHub authority: " + missing
  }

  ghost predicate RowMeans(o: Oracle, criterion: Criterion, reviews: seq<Review>, row: Row) {
    && row.criterion == criterion.text
    && (row.verdict == Pass && !o.finalExternal(criterion.text) <==> ProvenBy(o, criterion, reviews))
    && (row.verdict == Fail && !o.finalExternal(criterion.text) <==> RefutedBy(o, criterion, reviews))
    && EvidenceMeans(o, criterion, reviews, row)
  }

  /** A command's row shows its outcome, and one proven by a review what the review gave, and
      at which scope. */
  ghost predicate EvidenceMeans(o: Oracle, criterion: Criterion, reviews: seq<Review>, row: Row) {
    var text := criterion.text;
    && (!o.finalExternal(text) && "run:" <= text ==>
          row.evidence == if o.run(Trim(text[4..])).0 then "exit 0" else o.run(Trim(text[4..])).1)
    && (!o.finalExternal(text) && "grep:" <= text ==>
          row.evidence == if o.grep(Trim(text[5..])) then "matched" else "not matched")
    && (!Mechanical(text) && row.verdict == Pass ==>
          exists k: nat :: FirstReview(reviews, text, k) && row.evidence == Quoted(reviews[k]))
  }

  function Quoted(review: Review): string {
    (if review.scope == Some(Composed) then "composed/system-level evidence: " else "local evidence: ")
    + Compact(review.evidence)
  }

  lemma {:induction false} MissingMeans(o: Oracle, live: seq<string>, planned: set<string>, first: nat)
    returns (at: seq<nat>)
    requires first <= |live|
    ensures var missing := NotPlanned(o, live[first..], planned);
            && |at| == |missing| && OthersAt(at, o, live, planned, first)
            && forall i :: 0 <= i < |at| ==> missing[i] == live[at[i]]
    decreases |live| - first
  {
    at := [];
    if first < |live| {
      var rest := MissingMeans(o, live, planned, first + 1);
      assert live[first..][1..] == live[first + 1..];
      if o.authorityText(live[first]) in planned {
        at := rest;
      } else {
        at := [first] + rest;
        forall k | first <= k < |live| && o.authorityText(live[k]) !in planned ensures k in at {
          assert k == first || k in rest;
        }
      }
    }
  }

  lemma PlannedMeans(o: Oracle, criteria: seq<Criterion>, x: string)
    ensures o.authorityText(x) in PlannedTexts(o, criteria) <==> Planned(o, criteria, x)
  {
  }

  lemma MissingIsUnplanned(o: Oracle, live: seq<string>, criteria: seq<Criterion>)
    ensures Unplanned(o, live, criteria, MissingCriteria(o, live, criteria))
  {
    var missing, planned := MissingCriteria(o, live, criteria), PlannedTexts(o, criteria);
    var at := MissingMeans(o, live, planned, 0);
    assert live[0..] == live;
    forall x ensures o.authorityText(x) in planned <==> Planned(o, criteria, x) { PlannedMeans(o, criteria, x); }
    forall x ensures x in missing <==> x in live && o.authorityText(x) !in planned {
      MissingMembers(o, live, planned, x);
    }
    assert Picks(missing, live, at);
  }

  lemma {:induction false} MissingMembers(o: Oracle, live: seq<string>, planned: set<string>, x: string)
    ensures x in NotPlanned(o, live, planned) <==> x in live && o.authorityText(x) !in planned
  {
    if live != [] {
      MissingMembers(o, live[1..], planned, x);
      assert live == [live[0]] + live[1..];
    }
  }

  lemma {:induction false} FindMeans(reviews: seq<Review>, text: string)
    ensures FindReview(reviews, text).None? <==> forall j :: 0 <= j < |reviews| ==> reviews[j].criterion != text
    ensures FindReview(reviews, text).Some? ==>
              exists k: nat :: FirstReview(reviews, text, k) && reviews[k] == FindReview(reviews, text).value
  {
    if reviews != [] && reviews[0].criterion != text {
      FindMeans(reviews[1..], text);
      forall j | 0 <= j < |reviews| - 1 ensures reviews[1..][j] == reviews[j + 1] {}
      if FindReview(reviews, text).Some? {
        var k: nat :| FirstReview(reviews[1..], text, k) && reviews[1..][k] == FindReview(reviews, text).value;
        forall j | 0 <= j < k + 1 ensures reviews[j].criterion != text {
          if j > 0 { assert reviews[1..][j - 1] == reviews[j]; }
        }
        assert FirstReview(reviews, text, k + 1);
      } else {
        forall j | 0 <= j < |reviews| ensures reviews[j].criterion != text {
          if j > 0 { assert reviews[1..][j - 1] == reviews[j]; }
        }
      }
    } else if reviews != [] {
      assert FirstReview(reviews, text, 0);
    }
  }

  /** Dropping the reviews of mechanical criteria leaves those of any other as they are. */
  lemma {:induction false} SemanticFind(reviews: seq<Review>, text: string)
    ensures FindReview(SemanticReviews(reviews), text) == if Mechanical(text) then None else FindReview(reviews, text)
  {
    if reviews != [] {
      var n := |reviews| - 1;
      SemanticFind(reviews[..n], text);
      FindAppend(reviews[..n], reviews[n], text);
      FindAppend(SemanticReviews(reviews[..n]), reviews[n], text);
      assert reviews == reviews[..n] + [reviews[n]];
    }
  }

  lemma CriterionMeans(o: Oracle, criterion: Criterion, reviews: seq<Review>)
    ensures Proven(o, criterion, SemanticReviews(reviews)) <==> ProvenBy(o, criterion, reviews)
    ensures Fails(o, criterion, SemanticReviews(reviews)) <==> RefutedBy(o, criterion, reviews)
  {
    var text := criterion.text;
    SemanticFind(reviews, text);
    FindMeans(reviews, text);
    if FindReview(reviews, text).Some? {
      var k: nat :| FirstReview(reviews, text, k) && reviews[k] == FindReview(reviews, text).value;
      forall i: nat | FirstReview(reviews, text, i) ensures i == k {}
    }
  }

  lemma {:induction false} RowsMean(o: Oracle, criteria: seq<Criterion>, reviews: seq<Review>)
    ensures var rows := RowsFor(o, criteria, SemanticReviews(reviews));
            |rows| == |criteria| && forall i :: 0 <= i < |criteria| ==> RowMeans(o, criteria[i], reviews, rows[i])
  {
    if criteria != [] {
      var n := |criteria| - 1;
      RowsMean(o, criteria[..n], reviews);
      OneRowMeans(o, criteria[n], reviews);
      forall i | 0 <= i < n ensures criteria[..n][i] == criteria[i] {}
    }
  }

  lemma {:induction false} MissingRowsMean(missing: seq<string>)
    ensures |MissingRows(missing)| == |missing|
    ensures forall i :: 0 <= i < |missing| ==> AboveMeans(missing[i], MissingRows(missing)[i])
  {
    if missing != [] { MissingRowsMean(missing[1..]); }
  }

  lemma DecidedMeans(o: Oracle, criteria: seq<Criterion>, allReviews: seq<Review>, live: Option<seq<string>>,
                     v: Verification)
    requires Decided(o, criteria, allReviews, live, v)
    ensures VerificationMeans(o, criteria, allReviews, live, v)
  {
    StatusMeans(o, criteria, allReviews, live, v);
    TableMeans(o, criteria, allReviews, live, v);
  }

  lemma StatusMeans(o: Oracle, criteria: seq<Criterion>, allReviews: seq<Review>, live: Option<seq<string>>,
                    v: Verification)
    requires Decided(o, criteria, allReviews, live, v)
    ensures if live.Some? then Unplanned(o, live.value, criteria, v.missing) else v.missing == []
    ensures v.status == PassStatus <==>
              && live.Some? && criteria != [] && (forall x :: x in live.value ==> Planned(o, criteria, x))
              && forall c :: c in criteria ==> ProvenBy(o, c, allReviews)
    ensures v.status == FailStatus <==>
              || (live.Some? && exists x :: x in live.value && !Planned(o, criteria, x))
              || exists c :: c in criteria && RefutedBy(o, c, allReviews)
  {
    if live.Some? { MissingIsUnplanned(o, live.value, criteria); }
    NoneMissing(o, criteria, live, v);
    forall c ensures (Proven(o, c, SemanticReviews(allReviews)) <==> ProvenBy(o, c, allReviews))
                     && (Fails(o, c, SemanticReviews(allReviews)) <==> RefutedBy(o, c, allReviews))
    {
      CriterionMeans(o, c, allReviews);
    }
  }

  lemma TableMeans(o: Oracle, criteria: seq<Criterion>, allReviews: seq<Review>, live: Option<seq<string>>,
                   v: Verification)
    requires v.rows == MissingRows(v.missing) + RowsFor(o, criteria, SemanticReviews(allReviews))
    ensures |v.rows| == |v.missing| + |criteria|
    ensures forall i :: 0 <= i < |v.missing| ==> AboveMeans(v.missing[i], v.rows[i])
    ensures forall i :: 0 <= i < |criteria| ==> RowMeans(o, criteria[i], allReviews, v.rows[|v.missing| + i])
  {
    var above, below := MissingRows(v.missing), RowsFor(o, criteria, SemanticReviews(allReviews));
    RowsMean(o, criteria, allReviews);
    MissingRowsMean(v.missing);
    forall i | 0 <= i < |v.missing| ensures v.rows[i] == above[i] {}
    forall i | 0 <= i < |criteria| ensures v.rows[|v.missing| + i] == below[i] {}
  }

  lemma OneRowMeans(o: Oracle, criterion: Criterion, reviews: seq<Review>)
    ensures RowMeans(o, criterion, reviews, RowFor(o, criterion, SemanticReviews(reviews)))
  {
    CriterionMeans(o, criterion, reviews);
    RowShows(o, criterion, reviews);
  }

  lemma RowShows(o: Oracle, criterion: Criterion, reviews: seq<Review>)
    ensures EvidenceMeans(o, criterion, reviews, RowFor(o, criterion, SemanticReviews(reviews)))
  {
    var text := criterion.text;
    if "run:" <= text { assert !("grep:" <= text) by { assert text[0] == 'r'; } }
    if !Mechanical(text) && VerdictFor(o, criterion, SemanticReviews(reviews)) == Pass {
      SemanticFind(reviews, text);
      FindMeans(reviews, text);
      var k: nat :| FirstReview(reviews, text, k) && reviews[k] == FindReview(reviews, text).value;
      QuotedAs(reviews[k]);
    }
  }

  lemma QuotedAs(r: Review)
    ensures ScopeName(r.scope) + " evidence: " + Compact(r.evidence) == Quoted(r)
  {
    assert "composed/system-level" + " evidence: " == "composed/system-level evidence: ";
    assert "local" + " evidence: " == "local evidence: ";
  }

  lemma NoneMissing(o: Oracle, criteria: seq<Criterion>, live: Option<seq<string>>, v: Verification)
    requires if live.Some? then Unplanned(o, live.value, criteria, v.missing) else v.missing == []
    ensures live.Some? ==> (v.missing == [] <==> forall x :: x in live.value ==> Planned(o, criteria, x))
  {
    if live.Some? && v.missing != [] { assert v.missing[0] in v.missing; }
  }

  /** Some reviews would make the criterion count as proven. */
  ghost predicate CanBeProven(o: Oracle, criterion: Criterion) {
    exists reviews :: Proven(o, criterion, SemanticReviews(reviews))
  }

  /** Which criteria can be proven at all: one that runs or greps if its command succeeds, a
      `commit:` criterion never, and any other if it is not external and some review would be
      concrete evidence for it. */
  lemma CanBeProvenExactly(o: Oracle, criterion: Criterion)
    ensures CanBeProven(o, criterion)
            <==> && !o.finalExternal(criterion.text)
                 && (if "run:" <= criterion.text then o.run(Trim(criterion.text[4..])).0
                     else if "grep:" <= criterion.text then o.grep(Trim(criterion.text[5..]))
                     else && !("commit:" <= criterion.text) && !o.external(criterion.text)
                          && exists r :: Concrete(o, criterion.text, r))
  {
    var text := criterion.text;
    if "run:" <= text || "grep:" <= text {
      assert Proven(o, criterion, SemanticReviews([])) <==> CanBeProven(o, criterion);
    } else if "commit:" <= text {
      forall reviews ensures !Proven(o, criterion, SemanticReviews(reviews)) {
        CommitCriterionNeverProven(o, criterion, reviews);
      }
    } else {
      if reviews :| Proven(o, criterion, SemanticReviews(reviews)) {
        PassNeedsEvidence(o, criterion, reviews, true);
      }
      if !o.finalExternal(text) && !o.external(text) {
        if r :| Concrete(o, text, r) { OneReviewProves(o, criterion, r); }
      }
    }
  }

  lemma OneReviewProves(o: Oracle, criterion: Criterion, r: Review)
    requires !IsMechanical(criterion.text) && !o.external(criterion.text) && !o.finalExternal(criterion.text)
    requires Concrete(o, criterion.text, r)
    ensures Proven(o, criterion, SemanticReviews([r]))
  {
    assert SemanticReviews([r][..0]) == [];
    assert SemanticReviews([r]) == [r];
    assert FindReview([r], criterion.text) == Some(r);
  }

  lemma {:induction false} NoMechanicalReview(reviews: seq<Review>, criterion: string)
    requires IsMechanical(criterion)
    ensures FindReview(SemanticReviews(reviews), criterion) == None
  {
    if reviews != [] {
      NoMechanicalReview(reviews[..|reviews| - 1], criterion);
      if !IsMechanical(reviews[|reviews| - 1].criterion) {
        FindAppend(SemanticReviews(reviews[..|reviews| - 1]), reviews[|reviews| - 1], criterion);
      }
    }
  }

  lemma {:induction false} FindAppend(reviews: seq<Review>, r: Review, criterion: string)
    ensures FindReview(reviews + [r], criterion)
            == if FindReview(reviews, criterion).Some? then FindReview(reviews, criterion)
               else if r.criterion == criterion then Some(r) else None
  {
    if reviews != [] {
      assert (reviews + [r])[1..] == reviews[1..] + [r];
      FindAppend(reviews[1..], r, criterion);
    }
  }

  // ---------- the written report ----------

  /** The header fields the archive gate reads back, and the text of the table. */
  datatype Report = Report(
    status: string, policy: string, tree: string, issue: Option<nat>,
    issueFingerprint: string, authorityStatus: string, table: string)

  /** What the verify action knows about the world when it writes. */
  datatype Authority = Authority(issue: nat, fingerprint: Option<string>, tree: string)

  function StatusWord(s: Status): string {
    match s case PassStatus => "PASS" case FailStatus => "FAIL" case NeedsReview => "NEEDS_REVIEW"
  }

  function Word(v: Verdict): string {
    match v case Pass => "PASS" case Fail => "FAIL" case External => "EXTERNAL" case Unproven => "UNPROVEN"
  }

  /** Escapes pipes and turns line breaks into spaces. */
  function Cell(s: string): string {
    if s == "" then ""
    else if s[0] == '|' then "\\|" + Cell(s[1..])
    else if s[0] == '\r' && |s| > 1 && s[1] == '\n' then " " + Cell(s[2..])
    else if s[0] == '\n' then " " + Cell(s[1..])
    else [s[0]] + Cell(s[1..])
  }

  function Padded(s: string): string {
    " " + s + " "
  }

  datatype Cells = Cells(first: string, second: string, third: string)

  function Line(l: Cells): string {
    "|" + l.first + "|" + l.second + "|" + l.third + "|"
  }

  function RowCells(r: Row): Cells {
    Cells(Padded(Cell(r.criterion)), Padded(Word(r.verdict)), Padded(Cell(r.evidence)))
  }

  function RowLine(r: Row): string {
    Line(RowCells(r))
  }

  /** `rows.join("\n")` */
  function RowLines(rows: seq<Row>): string {
    if rows == [] then ""
    else if |rows| == 1 then RowLine(rows[0])
    else RowLine(rows[0]) + "\n" + RowLines(rows[1..])
  }

  function Head(): Cells {
    Cells(Padded("Criterion"), Padded("Verdict"), Padded("Evidence"))
  }

  function Rule(): Cells {
    Cells(Padded("---"), Padded("---"), Padded("---"))
  }

  function Table(rows: seq<Row>): string {
    Line(Head()) + "\n" + Line(Rule()) + "\n" + RowLines(rows) + "\n"
  }

  function Write(v: Verification, a: Authority): Report {
    Report(
      StatusWord(v.status), ACCEPTANCE_EVIDENCE_POLICY, a.tree, Some(a.issue),
      if a.fingerprint.Some? then a.fingerprint.value else "unverified",
      if a.fingerprint.Some? then "VERIFIED" else "UNVERIFIED",
      Table(v.rows))
  }

  // ---------- the archive's reading of it ----------

  predicate BadWord(s: string) {
    s == "FAIL" || s == "EXTERNAL" || s == "UNPROVEN"
  }

  /** The pieces of a text between its pipes. */
  function Pieces(text: string): (pieces: seq<string>)
    ensures |pieces| >= 1
  {
    if text == "" then [""]
    else
      var rest := Pieces(text[1..]);
      if text[0] == '|' then [""] + rest else [[text[0]] + rest[0]] + rest[1..]
  }

  predicate SomeBad(pieces: seq<string>) {
    pieces != [] && (BadWord(Trim(pieces[0])) || SomeBad(pieces[1..]))
  }

  /** `/\|\s*(?:FAIL|EXTERNAL|UNPROVEN)\s*\|/`: a piece with a pipe on both sides is a verdict word. */
  predicate ShowsBadVerdict(text: string) {
    var pieces := Pieces(text);
    |pieces| > 2 && SomeBad(pieces[1..|pieces| - 1])
  }

  datatype AuthorityError = LegacyPolicy | AuthorityUnverified | OtherIssue | NoFingerprint | IssueChanged | BadVerdict

  method AuthorityErrors(report: Report, expectedIssue: nat, liveFingerprint: string)
    returns (errors: seq<AuthorityError>)
    ensures errors == [] <==> AuthorityAccepts(report, expectedIssue, liveFingerprint)
    ensures BadVerdict in errors <==> ShowsBadVerdict(report.table)
    ensures IssueChanged in errors ==> report.issueFingerprint != liveFingerprint
  {
    errors := [];
    if report.policy != ACCEPTANCE_EVIDENCE_POLICY { errors := errors + [LegacyPolicy]; }
    if report.authorityStatus != "VERIFIED" { errors := errors + [AuthorityUnverified]; }
    if report.issue != Some(expectedIssue) { errors := errors + [OtherIssue]; }
    if report.issueFingerprint == "" || report.issueFingerprint == "unverified" {
      errors := errors + [NoFingerprint];
    } else if report.issueFingerprint != liveFingerprint {
      errors := errors + [IssueChanged];
    }
    if ShowsBadVerdict(report.table) { errors := errors + [BadVerdict]; }
  }

  predicate AuthorityAccepts(report: Report, expectedIssue: nat, liveFingerprint: string) {
    && report.policy == ACCEPTANCE_EVIDENCE_POLICY
    && report.authorityStatus == "VERIFIED"
    && report.issue == Some(expectedIssue)
    && report.issueFingerprint == liveFingerprint != ""
    && liveFingerprint != "unverified"
    && !ShowsBadVerdict(report.table)
  }

  /** The archive gate's checks of the report: status, authority and staleness. */
  predicate ArchiveAccepts(report: Report, issue: nat, liveFingerprint: string, tree: string) {
    report.status == "PASS" && AuthorityAccepts(report, issue, liveFingerprint) && report.tree == tree
  }

  // ---------- writer and reader agree ----------

  function AfterLastPipe(s: string): string {
    if s == "" || s[|s| - 1] == '|' then "" else AfterLastPipe(s[..|s| - 1]) + [s[|s| - 1]]
  }

  /** What follows the last pipe of the text, or all of it, is a bare verdict word. */
  predicate EndsInVerdict(s: string) {
    BadWord(Trim(Cell(AfterLastPipe(s))))
  }

  predicate Misleads(r: Row) {
    EndsInVerdict(r.criterion) || EndsInVerdict(r.evidence)
  }

  predicate RowBad(r: Row) {
    r.verdict != Pass || Misleads(r)
  }

  predicate SomeRowBad(rows: seq<Row>) {
    rows != [] && (RowBad(rows[0]) || SomeRowBad(rows[1..]))
  }

  predicate Bad(text: string) {
    SomeBad(Pieces(text))
  }

  lemma {:induction false} PiecesJoin(a: string, b: string)
    ensures Pieces(a + "|" + b) == Pieces(a) + Pieces(b)
  {
    var text := a + "|" + b;
    if a == "" {
      assert text[1..] == b;
    } else {
      assert text[1..] == a[1..] + "|" + b;
      PiecesJoin(a[1..], b);
    }
  }

  lemma {:induction false} SomeBadJoin(a: seq<string>, b: seq<string>)
    ensures SomeBad(a + b) <==> SomeBad(a) || SomeBad(b)
  {
    if a == [] {
      assert a + b == b;
    } else {
      assert (a + b)[1..] == a[1..] + b;
      SomeBadJoin(a[1..], b);
    }
  }

  lemma BadJoin(a: string, b: string)
    ensures Bad(a + "|" + b) <==> Bad(a) || Bad(b)
  {
    PiecesJoin(a, b);
    SomeBadJoin(Pieces(a), Pieces(b));
  }

  lemma {:induction false} PiecesPlain(text: string)
    requires '|' !in text
    ensures Pieces(text) == [text]
  {
    if text != "" {
      PiecesPlain(text[1..]);
      assert text == [text[0]] + text[1..];
    }
  }

  lemma BadPlain(text: string)
    requires '|' !in text
    ensures Bad(text) <==> BadWord(Trim(text))
  {
    PiecesPlain(text);
    assert SomeBad([text][1..]) == false;
  }

  lemma {:induction false} TrimStartPadded(s: string)
    ensures TrimStart(s + " ") == if TrimStart(s) == "" then "" else TrimStart(s) + " "
  {
    if s == "" {
      assert s + " " == " " && " "[1..] == "";
    } else {
      assert (s + " ")[1..] == s[1..] + " ";
      if IsSpace(s[0]) { TrimStartPadded(s[1..]); }
    }
  }

  lemma TrimPadded(s: string)
    ensures Trim(s + " ") == Trim(s)
    ensures Trim(" " + s + " ") == Trim(s)
  {
    TrimStartPadded(s);
    var t := TrimStart(s) + " ";
    assert t[..|t| - 1] == TrimStart(s);
    assert (" " + s + " ")[1..] == s + " ";
  }

  lemma {:induction false} TrimStartEnds(s: string)
    requires s != "" && !IsSpace(s[|s| - 1])
    ensures TrimStart(s) != "" && TrimStart(s)[|TrimStart(s)| - 1] == s[|s| - 1]
  {
    if IsSpace(s[0]) { TrimStartEnds(s[1..]); }
  }

  lemma BackslashIsNotBad(s: string)
    requires '|' !in s
    ensures !Bad(s + "\\")
  {
    TrimStartEnds(s + "\\");
    BadPlain(s + "\\");
  }

  lemma {:induction false} CellPlain(s: string)
    requires '|' !in s
    ensures '|' !in Cell(s)
  {
    if s == "" {
    } else if s[0] == '\r' && |s| > 1 && s[1] == '\n' {
      CellPlain(s[2..]);
    } else {
      CellPlain(s[1..]);
    }
  }

  lemma {:induction false} CellAtPipe(a: string, b: string)
    ensures Cell(a + "|" + b) == Cell(a) + ("\\" + "|" + Cell(b))
  {
    var s := a + "|" + b;
    if a == "" {
      assert s[1..] == b;
    } else if a[0] == '\r' && |a| > 1 && a[1] == '\n' {
      assert s[2..] == a[2..] + "|" + b;
      CellAtPipe(a[2..], b);
      Associate(" ", Cell(a[2..]), "\\" + "|" + Cell(b));
    } else {
      assert s[1..] == a[1..] + "|" + b;
      var head := if a[0] == '|' then "\\|" else if a[0] == '\n' then " " else [a[0]];
      assert Cell(s) == head + Cell(s[1..]) && Cell(a) == head + Cell(a[1..]);
      CellAtPipe(a[1..], b);
      Associate(head, Cell(a[1..]), "\\" + "|" + Cell(b));
    }
  }

  lemma Associate(a: string, b: string, c: string)
    ensures a + (b + c) == (a + b) + c
  {
  }

  lemma {:induction false} AfterLastPipePlain(s: string)
    requires '|' !in s
    ensures AfterLastPipe(s) == s
  {
    if s != "" { AfterLastPipePlain(s[..|s| - 1]); }
  }

  lemma {:induction false} AfterLastPipeSkips(a: string, b: string)
    ensures AfterLastPipe(a + "|" + b) == AfterLastPipe(b)
  {
    var s := a + "|" + b;
    if b != "" && b[|b| - 1] != '|' {
      assert s[..|s| - 1] == a + "|" + b[..|b| - 1];
      AfterLastPipeSkips(a, b[..|b| - 1]);
    }
  }

  /** The first pipe of a text. */
  lemma {:induction false} FirstPipe(s: string) returns (a: string, b: string)
    requires '|' in s
    ensures s == a + "|" + b && '|' !in a
  {
    if s[0] == '|' {
      a, b := "", s[1..];
    } else {
      a, b := FirstPipe(s[1..]);
      a := [s[0]] + a;
    }
  }

  lemma PlainCellBad(s: string, lead: string)
    requires '|' !in s && (lead == "" || lead == " ")
    ensures Bad(lead + Cell(s) + " ") <==> EndsInVerdict(s)
  {
    CellPlain(s);
    BadPlain(lead + Cell(s) + " ");
    TrimPadded(Cell(s));
    assert "" + Cell(s) + " " == Cell(s) + " ";
    AfterLastPipePlain(s);
  }

  lemma Escaped(lead: string, before: string, after: string)
    ensures lead + (before + ("\\" + "|" + after)) + " " == (lead + before + "\\") + "|" + (after + " ")
  {
  }

  lemma EscapedBad(before: string, after: string)
    requires '|' !in before
    ensures Bad((before + "\\") + "|" + after) <==> Bad(after)
  {
    BadJoin(before + "\\", after);
    BackslashIsNotBad(before);
  }

  /** What stands before a pipe of the text keeps the escaping backslash. */
  lemma CellAfterPipe(a: string, b: string, lead: string)
    requires '|' !in a && (lead == "" || lead == " ")
    ensures Bad(lead + Cell(a + "|" + b) + " ") <==> Bad(Cell(b) + " ")
  {
    CellAtPipe(a, b);
    CellPlain(a);
    Escaped(lead, Cell(a), Cell(b));
    EscapedBad(lead + Cell(a), Cell(b) + " ");
  }

  /** A written cell is taken for a verdict exactly when its text ends in one. */
  lemma {:induction false} CellBadExactly(s: string, lead: string)
    requires lead == "" || lead == " "
    ensures Bad(lead + Cell(s) + " ") <==> EndsInVerdict(s)
    decreases |s|
  {
    if '|' !in s {
      PlainCellBad(s, lead);
    } else {
      var a, b := FirstPipe(s);
      CellAfterPipe(a, b, lead);
      AfterLastPipeSkips(a, b);
      CellBadExactly(b, "");
      assert "" + Cell(b) + " " == Cell(b) + " ";
    }
  }

  /** The lines of a table after its first, each entered from the line above. */
  function Below(lines: seq<Cells>, last: string): string {
    if lines == [] then "\n" + last else "\n" + Line(lines[0]) + Below(lines[1..], last)
  }

  predicate LineBad(l: Cells) {
    Bad(l.first) || Bad(l.second) || Bad(l.third)
  }

  predicate SomeLineBad(lines: seq<Cells>) {
    lines != [] && (LineBad(lines[0]) || SomeLineBad(lines[1..]))
  }

  lemma NewlineNotBad(last: string)
    requires last == "" || last == "\n"
    ensures !BadWord(Trim("\n" + last)) && !BadWord(Trim(""))
    ensures Pieces("\n" + last) == ["\n" + last] && !Bad("\n" + last) && !Bad("")
  {
    PiecesPlain("\n" + last);
    BadPlain("\n" + last);
    BadPlain("");
    assert TrimStart("\n" + last) == "" by {
      assert ("\n" + last)[1..] == last;
      assert last != "" ==> last[1..] == "";
    }
  }

  lemma LineJoin(above: string, l: Cells, below: string)
    ensures Bad(above + Line(l) + below) <==> Bad(above) || LineBad(l) || Bad(below)
  {
    var third := l.third + "|" + below;
    var second := l.second + "|" + third;
    var first := l.first + "|" + second;
    assert above + Line(l) + below == above + "|" + first;
    BadJoin(above, first);
    BadJoin(l.first, second);
    BadJoin(l.second, third);
    BadJoin(l.third, below);
  }

  lemma {:induction false} BelowBad(lines: seq<Cells>, last: string)
    requires last == "" || last == "\n"
    ensures Bad(Below(lines, last)) <==> SomeLineBad(lines)
  {
    NewlineNotBad(last);
    if lines != [] {
      NewlineNotBad("");
      assert "\n" + "" == "\n";
      LineJoin("\n", lines[0], Below(lines[1..], last));
      BelowBad(lines[1..], last);
    }
  }

  lemma LineStarts(above: string, l: Cells, below: string)
    ensures above + Line(l) + below == above + "|" + (l.first + "|" + l.second + "|" + l.third + "|" + below)
    ensures above + Line(l) + below == (above + "|" + l.first + "|" + l.second + "|" + l.third) + "|" + below
  {
  }

  /** The table starts with a pipe and only a line break follows its last one. */
  lemma {:induction false} BelowEnds(lines: seq<Cells>, last: string)
    requires last == "" || last == "\n"
    ensures var pieces := Pieces(Below(lines, last));
            pieces[|pieces| - 1] == "\n" + last
  {
    NewlineNotBad(last);
    if lines != [] {
      var l := lines[0];
      BelowEnds(lines[1..], last);
      LineStarts("\n", l, Below(lines[1..], last));
      PiecesJoin("\n" + "|" + l.first + "|" + l.second + "|" + l.third, Below(lines[1..], last));
    }
  }

  lemma TableEnds(l: Cells, lines: seq<Cells>, last: string)
    requires last == "" || last == "\n"
    ensures var pieces := Pieces("" + Line(l) + Below(lines, last));
            |pieces| > 2 && pieces[0] == "" && pieces[|pieces| - 1] == "\n" + last
  {
    var below := Below(lines, last);
    LineStarts("", l, below);
    var middle := l.first + "|" + l.second + "|" + l.third;
    PiecesJoin("", middle + "|" + below);
    PiecesJoin(middle, below);
    BelowEnds(lines, last);
    assert l.first + "|" + l.second + "|" + l.third + "|" + below == middle + "|" + below;
    assert Pieces("") == [""];
  }

  lemma SomeBadInterior(pieces: seq<string>)
    requires |pieces| > 2 && !BadWord(Trim(pieces[0])) && !BadWord(Trim(pieces[|pieces| - 1]))
    ensures SomeBad(pieces[1..|pieces| - 1]) <==> SomeBad(pieces)
  {
    var last := pieces[|pieces| - 1];
    assert pieces[1..] == pieces[1..|pieces| - 1] + [last];
    SomeBadJoin(pieces[1..|pieces| - 1], [last]);
    assert [last][1..] == [];
  }

  lemma WholeTableBad(l: Cells, lines: seq<Cells>, last: string)
    requires last == "" || last == "\n"
    ensures ShowsBadVerdict("" + Line(l) + Below(lines, last)) <==> LineBad(l) || SomeLineBad(lines)
  {
    TableEnds(l, lines, last);
    NewlineNotBad(last);
    SomeBadInterior(Pieces("" + Line(l) + Below(lines, last)));
    LineJoin("", l, Below(lines, last));
    BelowBad(lines, last);
  }

  function AllCells(rows: seq<Row>): seq<Cells> {
    if rows == [] then [] else [RowCells(rows[0])] + AllCells(rows[1..])
  }

  lemma Regroup(a: string, b: string)
    ensures "\n" + (a + "\n" + b) + "\n" == "\n" + a + ("\n" + b + "\n")
  {
  }

  lemma {:induction false} RowLinesBelow(rows: seq<Row>)
    requires rows != []
    ensures "\n" + RowLines(rows) + "\n" == Below(AllCells(rows), "")
  {
    assert AllCells(rows)[1..] == AllCells(rows[1..]);
    if |rows| == 1 {
      assert Below([], "") == "\n";
    } else {
      RowLinesBelow(rows[1..]);
      Regroup(RowLine(rows[0]), RowLines(rows[1..]));
    }
  }

  lemma WordBad(v: Verdict)
    ensures Bad(Padded(Word(v))) <==> v != Pass
  {
    BadPlain(Padded(Word(v)));
    TrimPadded(Word(v));
  }

  lemma {:induction false} CellsBad(rows: seq<Row>)
    ensures SomeLineBad(AllCells(rows)) <==> SomeRowBad(rows)
  {
    if rows != [] {
      CellsBad(rows[1..]);
      assert AllCells(rows)[1..] == AllCells(rows[1..]);
      CellBadExactly(rows[0].criterion, " ");
      WordBad(rows[0].verdict);
      CellBadExactly(rows[0].evidence, " ");
    }
  }

  lemma PlainHeadNotBad(s: string)
    requires '|' !in s && s != "" && !IsSpace(s[0]) && !IsSpace(s[|s| - 1]) && !BadWord(s)
    ensures !Bad(Padded(s))
  {
    TrimPadded(s);
    BadPlain(Padded(s));
  }

  lemma HeadNotBad()
    ensures !LineBad(Head())
  {
    PlainHeadNotBad("Criterion");
    PlainHeadNotBad("Verdict");
    PlainHeadNotBad("Evidence");
  }

  lemma RuleNotBad()
    ensures !LineBad(Rule())
  {
    PlainHeadNotBad("---");
  }

  /** A table is its head and everything below it. */
  lemma TableShape(rows: seq<Row>)
    ensures Table(rows) == "" + Line(Head()) + Below([Rule()] + AllCells(rows), if rows == [] then "\n" else "")
  {
    assert ([Rule()] + AllCells(rows))[1..] == AllCells(rows);
    var head, rule := Line(Head()), Line(Rule());
    assert "" + head == head;
    if rows == [] {
      GroupTable(head, rule, RowLines(rows));
      assert "\n" + "" + "\n" == "\n" + "\n";
    } else {
      RowLinesBelow(rows);
      GroupTable(head, rule, RowLines(rows));
    }
  }

  lemma GroupTable(head: string, rule: string, rows: string)
    ensures head + "\n" + rule + "\n" + rows + "\n" == head + ("\n" + rule + ("\n" + rows + "\n"))
  {
  }

  /** The archive's scan finds a verdict in the written table exactly when a row's verdict
      is not PASS or a cell's text ends in a verdict word. */
  lemma ScanFindsExactly(rows: seq<Row>)
    ensures ShowsBadVerdict(Table(rows)) <==> SomeRowBad(rows)
  {
    TableShape(rows);
    WholeTableBad(Head(), [Rule()] + AllCells(rows), if rows == [] then "\n" else "");
    HeadNotBad();
    RuleNotBad();
    assert ([Rule()] + AllCells(rows))[1..] == AllCells(rows);
    CellsBad(rows);
  }

  lemma {:induction false} SomeRowBadJoin(a: seq<Row>, b: seq<Row>)
    ensures SomeRowBad(a + b) <==> SomeRowBad(a) || SomeRowBad(b)
  {
    if a == [] {
      assert a + b == b;
    } else {
      assert (a + b)[1..] == a[1..] + b;
      SomeRowBadJoin(a[1..], b);
    }
  }

  lemma SomeRowBadLast(front: seq<Row>, last: Row)
    ensures SomeRowBad(front + [last]) <==> SomeRowBad(front) || RowBad(last)
  {
    SomeRowBadJoin(front, [last]);
    assert [last][1..] == [];
  }

  predicate SomeMisleads(o: Oracle, criteria: seq<Criterion>, reviews: seq<Review>) {
    criteria != [] &&
    (SomeMisleads(o, criteria[..|criteria| - 1], reviews) || Misleads(RowFor(o, criteria[|criteria| - 1], reviews)))
  }

  predicate AllPass(o: Oracle, criteria: seq<Criterion>, reviews: seq<Review>) {
    criteria == [] ||
    (AllPass(o, criteria[..|criteria| - 1], reviews) && RowFor(o, criteria[|criteria| - 1], reviews).verdict == Pass)
  }

  lemma {:induction false} PassRowsBad(o: Oracle, criteria: seq<Criterion>, reviews: seq<Review>)
    requires AllPass(o, criteria, reviews)
    ensures SomeRowBad(RowsFor(o, criteria, reviews)) <==> SomeMisleads(o, criteria, reviews)
  {
    if criteria != [] {
      var front, last := criteria[..|criteria| - 1], criteria[|criteria| - 1];
      PassRowsBad(o, front, reviews);
      LastRow(RowsFor(o, front, reviews), RowFor(o, last, reviews), RowsFor(o, criteria, reviews));
    }
  }

  lemma LastRow(front: seq<Row>, last: Row, rows: seq<Row>)
    requires rows == front + [last] && last.verdict == Pass
    ensures SomeRowBad(rows) <==> SomeRowBad(front) || Misleads(last)
  {
    SomeRowBadLast(front, last);
  }

  lemma {:induction false} ProvenPass(o: Oracle, criteria: seq<Criterion>, reviews: seq<Review>)
    requires forall c :: c in criteria ==> Proven(o, c, reviews)
    ensures AllPass(o, criteria, reviews)
  {
    if criteria != [] {
      assert Proven(o, criteria[|criteria| - 1], reviews);
      ProvenPass(o, criteria[..|criteria| - 1], reviews);
    }
  }

  predicate RowMisleads(o: Oracle, criterion: Criterion, reviews: seq<Review>) {
    Misleads(RowFor(o, criterion, reviews))
  }

  lemma {:induction false} MisleadingRow(o: Oracle, criteria: seq<Criterion>, reviews: seq<Review>)
    returns (c: Criterion)
    requires SomeMisleads(o, criteria, reviews)
    ensures c in criteria && RowMisleads(o, c, reviews)
  {
    var n := |criteria| - 1;
    if SomeMisleads(o, criteria[..n], reviews) {
      c := MisleadingRow(o, criteria[..n], reviews);
    } else {
      c := criteria[n];
    }
  }

  lemma {:induction false} RowOfSome(o: Oracle, criteria: seq<Criterion>, reviews: seq<Review>, c: Criterion)
    requires c in criteria && RowMisleads(o, c, reviews)
    ensures SomeMisleads(o, criteria, reviews)
  {
    var n := |criteria| - 1;
    if c != criteria[n] { RowOfSome(o, criteria[..n], reviews, c); }
  }

  lemma SomeMisleadsMeans(o: Oracle, criteria: seq<Criterion>, reviews: seq<Review>)
    ensures SomeMisleads(o, criteria, reviews) <==> exists c :: c in criteria && RowMisleads(o, c, reviews)
  {
    if SomeMisleads(o, criteria, reviews) {
      var c := MisleadingRow(o, criteria, reviews);
    }
    if c :| c in criteria && RowMisleads(o, c, reviews) { RowOfSome(o, criteria, reviews, c); }
  }

  lemma PassWord(s: Status)
    ensures StatusWord(s) == "PASS" <==> s == PassStatus
  {
    assert s != PassStatus ==> StatusWord(s)[0] != "PASS"[0];
  }

  lemma AuthorityWord(a: Authority)
    ensures Write(Verification(PassStatus, [], []), a).authorityStatus == "VERIFIED" <==> a.fingerprint.Some?
  {
    assert "UNVERIFIED"[0] != "VERIFIED"[0];
  }

  /** The archive reads each header field and scans the table. */
  lemma ArchiveReads(v: Verification, a: Authority, fingerprint: string)
    requires a.fingerprint != Some("unverified") && a.fingerprint != Some("")
    ensures ArchiveAccepts(Write(v, a), a.issue, fingerprint, a.tree) <==>
              v.status == PassStatus && a.fingerprint == Some(fingerprint) && !SomeRowBad(v.rows)
  {
    PassWord(v.status);
    ScanFindsExactly(v.rows);
    AuthorityWord(a);
  }

  /** For a report that verify wrote, re-read for the same issue while the live fingerprint
      and the tree are unchanged: the archive accepts it exactly when authority was verified,
      the plan has every criterion of the issue and at least one, each is proven, and no
      criterion or evidence text ends, after its last pipe, in a bare verdict word. */
  lemma ArchiveAcceptsExactly(o: Oracle, criteria: seq<Criterion>, allReviews: seq<Review>, live: Option<seq<string>>,
                              v: Verification, a: Authority, fingerprint: string)
    requires Decided(o, criteria, allReviews, live, v)
    requires a.fingerprint == if live.Some? then Some(fingerprint) else None
    requires fingerprint != "" && fingerprint != "unverified"
    ensures ArchiveAccepts(Write(v, a), a.issue, fingerprint, a.tree) <==>
              && live.Some? && criteria != [] && (forall x :: x in live.value ==> Planned(o, criteria, x))
              && (forall c :: c in criteria ==> ProvenBy(o, c, allReviews))
              && !exists c :: c in criteria && RowMisleads(o, c, SemanticReviews(allReviews))
  {
    StatusMeans(o, criteria, allReviews, live, v);
    var reviews := SemanticReviews(allReviews);
    ArchiveReads(v, a, fingerprint);
    if v.status == PassStatus {
      OnlyCriterionRows(v.missing, RowsFor(o, criteria, reviews));
      ProvenPass(o, criteria, reviews);
      PassRowsBad(o, criteria, reviews);
      SomeMisleadsMeans(o, criteria, reviews);
    }
  }

  lemma OnlyCriterionRows(missing: seq<string>, rows: seq<Row>)
    requires missing == []
    ensures MissingRows(missing) + rows == rows
  {
  }

  lemma {:induction false} PlainCellIsItself(s: string)
    requires '|' !in s && '\n' !in s
    ensures Cell(s) == s
  {
    if s != "" {
      PlainCellIsItself(s[1..]);
      assert s == [s[0]] + s[1..];
    }
  }

  lemma TrimKeepsWord(verdict: string)
    requires BadWord(verdict)
    ensures Trim(" " + verdict) == verdict && '|' !in verdict && '\n' !in verdict
  {
    assert (" " + verdict)[1..] == verdict;
    assert TrimStart(verdict) == verdict && TrimEnd(verdict) == verdict;
  }

  /** The text after the last pipe decides. */
  lemma PipeThenVerdictMisleads(text: string, verdict: string)
    requires BadWord(verdict)
    ensures EndsInVerdict(text + "|" + (" " + verdict))
  {
    TrimKeepsWord(verdict);
    AfterLastPipeSkips(text, " " + verdict);
    AfterLastPipePlain(" " + verdict);
    PlainCellIsItself(" " + verdict);
  }

  /** So a plan whose only criterion is a passing command that ends in `| FAIL` gets the
      status PASS and a report that the archive refuses. */
  lemma PassingReportCanBeRefused(o: Oracle, command: string, verdict: string, allReviews: seq<Review>,
                                  live: seq<string>, v: Verification, a: Authority, fingerprint: string)
    requires BadWord(verdict) && "run:" <= command
    requires var text := command + "|" + (" " + verdict); !o.finalExternal(text) && o.run(Trim(text[4..])).0
    requires Decided(o, [Criterion(true, command + "|" + (" " + verdict))], allReviews, Some(live), v)
    requires v.missing == []
    requires a.fingerprint == Some(fingerprint) && fingerprint != "" && fingerprint != "unverified"
    ensures v.status == PassStatus && !ArchiveAccepts(Write(v, a), a.issue, fingerprint, a.tree)
  {
    var text := command + "|" + (" " + verdict);
    var c := Criterion(true, text);
    var reviews := SemanticReviews(allReviews);
    PipeThenVerdictMisleads(command, verdict);
    RunPasses(o, c, reviews);
    assert forall x :: x in [c] ==> x == c;
    ArchiveAcceptsExactly(o, [c], allReviews, Some(live), v, a, fingerprint);
    assert c in [c] && RowMisleads(o, c, reviews);
  }

  lemma RunPasses(o: Oracle, c: Criterion, reviews: seq<Review>)
    requires "run:" <= c.text && !o.finalExternal(c.text) && o.run(Trim(c.text[4..])).0
    ensures Proven(o, c, reviews) && RowFor(o, c, reviews).criterion == c.text
  {
  }
}
