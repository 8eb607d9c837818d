/** Refreshing shared main at an issue boundary, and removing a completed issue's checkout. */
module MainRefresh {
  import opened Text

  // ---------- commits ----------

  /** Each commit's parents. Parents are older, that is numbered lower; every commit that any
      agent ever makes is in the graph. */
  type Graph = g: seq<seq<nat>> | forall c, i :: 0 <= c < |g| && 0 <= i < |g[c]| ==> g[c][i] < c
    witness []

  function AncestorsOf(g: Graph, parents: seq<nat>, bound: nat): set<nat>
    requires bound <= |g| && forall i :: 0 <= i < |parents| ==> parents[i] < bound
    decreases bound, 0, |parents|
  {
    if parents == [] then {}
    else Ancestors(g, parents[0]) + AncestorsOf(g, parents[1..], bound)
  }

  /** A commit and everything reachable from it. */
  function Ancestors(g: Graph, c: nat): set<nat>
    requires c < |g|
    decreases c, 1, 0
  {
    {c} + AncestorsOf(g, g[c], c)
  }

  /** `git merge-base --is-ancestor a c` */
  predicate IsAncestor(g: Graph, a: nat, c: nat)
    requires c < |g|
  {
    a in Ancestors(g, c)
  }

  lemma {:induction false} AncestorsAreOlder(g: Graph, c: nat)
    requires c < |g|
    ensures forall a :: a in Ancestors(g, c) ==> a <= c
    decreases c, 1, 0
  {
    ParentsAreOlder(g, g[c], c);
  }

  lemma {:induction false} ParentsAreOlder(g: Graph, parents: seq<nat>, bound: nat)
    requires bound <= |g| && forall i :: 0 <= i < |parents| ==> parents[i] < bound
    ensures forall a :: a in AncestorsOf(g, parents, bound) ==> a < bound
    decreases bound, 0, |parents|
  {
    if parents != [] {
      AncestorsAreOlder(g, parents[0]);
      ParentsAreOlder(g, parents[1..], bound);
    }
  }

  lemma {:induction false} AncestorOfSome(g: Graph, parents: seq<nat>, bound: nat, a: nat)
    requires bound <= |g| && forall i :: 0 <= i < |parents| ==> parents[i] < bound
    ensures a in AncestorsOf(g, parents, bound) <==> exists i :: 0 <= i < |parents| && IsAncestor(g, a, parents[i])
    decreases |parents|
  {
    if parents != [] {
      AncestorOfSome(g, parents[1..], bound, a);
      if i :| 0 <= i < |parents[1..]| && IsAncestor(g, a, parents[1..][i]) {
        assert parents[i + 1] == parents[1..][i];
      }
      if i :| 0 <= i < |parents| && IsAncestor(g, a, parents[i]) {
        assert i > 0 ==> parents[i] == parents[1..][i - 1];
      }
    }
  }

  lemma {:induction false} AncestryIsTransitive(g: Graph, a: nat, b: nat, c: nat)
    requires c < |g| && b < |g| && IsAncestor(g, b, c) && IsAncestor(g, a, b)
    ensures IsAncestor(g, a, c)
    decreases c
  {
    if b != c {
      AncestorOfSome(g, g[c], c, b);
      var i :| 0 <= i < |g[c]| && IsAncestor(g, b, g[c][i]);
      AncestryIsTransitive(g, a, b, g[c][i]);
      AncestorOfSome(g, g[c], c, a);
    }
  }

  /** `git rev-list --left-right --count a...b`: commits of a that b does not have. */
  function AheadBy(g: Graph, a: nat, b: nat): nat
    requires a < |g| && b < |g|
  {
    |Ancestors(g, a) - Ancestors(g, b)|
  }

  lemma AheadByZero(g: Graph, a: nat, b: nat)
    requires a < |g| && b < |g|
    ensures AheadBy(g, a, b) == 0 <==> IsAncestor(g, a, b)
  {
    var only := Ancestors(g, a) - Ancestors(g, b);
    if IsAncestor(g, a, b) {
      forall x | x in Ancestors(g, a) ensures x in Ancestors(g, b) {
        AncestorsAreOlder(g, a);
        AncestryIsTransitive(g, x, a, b);
      }
      assert only == {};
    } else {
      assert a in only;
    }
  }

  // ---------- refreshing main ----------

  datatype Refresh =
    | NotOnMain
    | SkippedDirty(at: nat)
    | Diverged(aheadBy: nat, behindBy: nat)
    | NotPublished(behindBy: nat)
    | Refreshed(before: nat, remote: nat, after: nat, behindBy: nat, healed: bool)

  /** What other agents do between two of our commands. */
  datatype Others = Others(publish: nat -> Option<nat>, refusePush: bool)

  class Repository {
    const graph: Graph
    const others: Others
    var tick: nat
    var localMain: nat
    var tracking: nat      // refs/remotes/origin/main
    var originMain: nat
    var pushed: seq<nat>   // what this checkout published, in order

    ghost predicate Valid()
      reads this
    {
      && localMain < |graph| && tracking < |graph| && originMain < |graph|
      && IsAncestor(graph, tracking, originMain)
    }

    constructor (graph: Graph, others: Others, localMain: nat, originMain: nat)
      requires localMain < |graph| && originMain < |graph|
      ensures Valid() && this.graph == graph && this.others == others
      ensures this.localMain == localMain && this.originMain == originMain && pushed == []
    {
      this.graph, this.others, this.tick := graph, others, 0;
      this.localMain, this.tracking, this.originMain, this.pushed := localMain, originMain, originMain, [];
    }

    /** Where origin main stands after another agent had a chance to fast-forward it. */
    function AfterOthers(at: nat, main: nat): nat
      requires main < |graph|
    {
      var next := others.publish(at);
      if next.Some? && next.value < |graph| && IsAncestor(graph, main, next.value) then next.value else main
    }

    /** Another agent may fast-forward origin main here. */
    method OthersMayPublish()
      requires Valid()
      modifies this`tick, this`originMain
      ensures Valid() && IsAncestor(graph, old(originMain), originMain)
      ensures originMain == AfterOthers(old(tick), old(originMain)) && tick == old(tick) + 1
    {
      var next := others.publish(tick);
      tick := tick + 1;
      if next.Some? && next.value < |graph| && IsAncestor(graph, originMain, next.value) {
        AncestryIsTransitive(graph, tracking, originMain, next.value);
        originMain := next.value;
      }
    }

    method Fetch()
      requires Valid()
      modifies this`tracking
      ensures Valid() && tracking == originMain
    {
      tracking := originMain;
    }

    /** A plain push: accepted only as a fast-forward. */
    method Push() returns (ok: bool)
      requires Valid()
      modifies this`originMain, this`tracking, this`pushed
      ensures Valid() && IsAncestor(graph, old(originMain), originMain)
      ensures ok == (!others.refusePush && IsAncestor(graph, old(originMain), localMain))
      ensures ok ==> originMain == localMain && tracking == localMain && pushed == old(pushed) + [localMain]
      ensures !ok ==> unchanged(this)
    {
      ok := !others.refusePush && IsAncestor(graph, originMain, localMain);
      if ok { originMain, tracking, pushed := localMain, localMain, pushed + [localMain]; }
    }

    /** `git merge --ff-only refs/remotes/origin/main` */
    method MergeFastForward()
      requires Valid() && IsAncestor(graph, localMain, tracking)
      modifies this`localMain
      ensures Valid() && localMain == tracking
    {
      localMain := tracking;
    }

    /** Local main is part of what is fetched, or it is ahead of that and still is, when pushed, of
        what others have made of it. */
    predicate Publishable(at: nat, local: nat, main: nat)
      requires local < |graph| && main < |graph|
    {
      var fetched := AfterOthers(at, main);
      || IsAncestor(graph, local, fetched)
      || (IsAncestor(graph, fetched, local) && !others.refusePush
          && IsAncestor(graph, AfterOthers(at + 1, fetched), local))
    }

    /** Refreshes main. Local and origin main only ever move to descendants; success on a clean
        checkout leaves local main part of origin main; and whatever fails publishes nothing
        and leaves local main alone, also when other agents publish between any two commands.
        It succeeds exactly when local main is part of the origin main that was fetched, or is
        ahead of it only and still can be pushed. */
    method RefreshMainAtIssueBoundary(onMain: bool, dirty: bool) returns (r: Refresh)
      requires Valid()
      modifies this
      ensures Valid()
      ensures IsAncestor(graph, old(localMain), localMain) && IsAncestor(graph, old(originMain), originMain)
      ensures r.Refreshed? ==> IsAncestor(graph, localMain, originMain)
      ensures r.Refreshed? ==> r.before == old(localMain) && r.after == localMain
      ensures r.Refreshed? ==> r.remote < |graph| && (r.healed <==> !IsAncestor(graph, r.before, r.remote))
      ensures r.Refreshed? ==> r.after == if r.healed then r.before else r.remote
      ensures r.Refreshed? ==> r.behindBy == AheadBy(graph, r.remote, r.before)
      ensures r.Refreshed? && r.healed ==> IsAncestor(graph, r.remote, r.before)
      ensures !r.Refreshed? ==> localMain == old(localMain)
      ensures pushed == if r.Refreshed? && r.healed then old(pushed) + [old(localMain)] else old(pushed)
      ensures r.Diverged? ==> !IsAncestor(graph, localMain, tracking) && !IsAncestor(graph, tracking, localMain)
      ensures r.NotPublished? ==> others.refusePush || !IsAncestor(graph, tracking, localMain)
      ensures r.NotOnMain? <==> !onMain
      ensures r.SkippedDirty? <==> onMain && dirty
      ensures !onMain || dirty ==> unchanged(this)
      ensures r.SkippedDirty? ==> r.at == localMain
      ensures r.Refreshed? ==> IsAncestor(graph, old(originMain), localMain)
      ensures r.Refreshed? ==> r.remote == AfterOthers(old(tick), old(originMain))
      ensures onMain && !dirty ==> (r.Refreshed? <==> Publishable(old(tick), old(localMain), old(originMain)))
      ensures r.Diverged? || r.NotPublished? ==> r.behindBy == AheadBy(graph, tracking, localMain)
      ensures r.Diverged? ==> r.aheadBy == AheadBy(graph, localMain, tracking)
      ensures r.NotPublished? ==> IsAncestor(graph, localMain, tracking) || IsAncestor(graph, tracking, localMain)
    {
      if !onMain { return NotOnMain; }
      if dirty { return SkippedDirty(localMain); }
      OthersMayPublish();
      ghost var fetched := originMain;
      Fetch();
      var before, remote := localMain, tracking;
      var ahead, behind := AheadBy(graph, before, remote), AheadBy(graph, remote, before);
      AheadByZero(graph, before, remote);
      AheadByZero(graph, remote, before);
      OthersMayPublish();
      AncestryIsTransitive(graph, old(originMain), fetched, originMain);
      if ahead > 0 && behind > 0 { return Diverged(ahead, behind); }
      if ahead > 0 {
        ghost var moved := originMain;
        var ok := Push();
        AncestryIsTransitive(graph, old(originMain), moved, originMain);
        if !ok {
          r := PushLost();
          AncestryIsTransitive(graph, old(originMain), moved, originMain);
          return;
        }
      }
      if behind > 0 { MergeFastForward(); }
      assert ahead == 0 && behind == 0 ==> before == remote by {
        AncestorsAreOlder(graph, before);
        AncestorsAreOlder(graph, remote);
      }
      r := Refreshed(before, remote, localMain, behind, ahead > 0);
    }

    /** After a refused push: fetch again and say how far main is behind. */
    method PushLost() returns (r: Refresh)
      requires Valid() && (others.refusePush || !IsAncestor(graph, originMain, localMain))
      modifies this`tracking, this`tick, this`originMain
      ensures Valid() && IsAncestor(graph, old(originMain), originMain)
      ensures r.Diverged? || r.NotPublished?
      ensures r.Diverged? ==> !IsAncestor(graph, localMain, tracking) && !IsAncestor(graph, tracking, localMain)
      ensures r.NotPublished? ==> others.refusePush || !IsAncestor(graph, tracking, localMain)
      ensures r.behindBy == AheadBy(graph, tracking, localMain)
      ensures r.Diverged? ==> r.aheadBy == AheadBy(graph, localMain, tracking)
      ensures r.NotPublished? ==> IsAncestor(graph, localMain, tracking) || IsAncestor(graph, tracking, localMain)
    {
      ghost var refused := originMain;
      OthersMayPublish();
      Fetch();
      var ahead, behind := AheadBy(graph, localMain, tracking), AheadBy(graph, tracking, localMain);
      AheadByZero(graph, localMain, tracking);
      AheadByZero(graph, tracking, localMain);
      if IsAncestor(graph, tracking, localMain) {
        AncestorsAreOlder(graph, tracking);
        AncestryIsTransitive(graph, refused, tracking, localMain);
      }
      r := if ahead > 0 && behind > 0 then Diverged(ahead, behind) else NotPublished(behind);
    }
  }

  // ---------- removing a completed checkout ----------

  /** What the cleanup finds in the issue's checkout. */
  datatype Workspace = Workspace(
    expectedPath: bool, isCoordination: bool, registered: bool, expectedBranch: bool,
    dirty: bool, activeArtifacts: bool, tip: nat, cleanupSubject: bool)

  datatype Cleanup = Removed | RefusedWorkspace | NotReachable | NoParent | UnintegratedParent

  /** The local issue branch, deleted by a successful cleanup. */
  class IssueBranch {
    const graph: Graph
    const authoritativeMain: nat
    var tip: Option<nat>

    constructor (graph: Graph, authoritativeMain: nat, tip: nat)
      ensures this.graph == graph && this.authoritativeMain == authoritativeMain && this.tip == Some(tip)
    {
      this.graph, this.authoritativeMain, this.tip := graph, authoritativeMain, Some(tip);
    }

    method CleanupCompletedIssueWorktree(w: Workspace) returns (r: Cleanup)
      requires tip == Some(w.tip) && w.tip < |graph| && authoritativeMain < |graph|
      modifies this
      ensures r == Removed <==> SafeWorkspace(w) && Integrated(graph, w, authoritativeMain)
      ensures tip == if r == Removed then None else old(tip)
      ensures r == RefusedWorkspace
              <==> !w.expectedPath || w.isCoordination || !w.registered || !w.expectedBranch || w.dirty
                   || w.activeArtifacts
      ensures r == Removed ==>
                || IsAncestor(graph, w.tip, authoritativeMain)
                || (w.cleanupSubject && graph[w.tip] != [] && IsAncestor(graph, graph[w.tip][0], authoritativeMain))
      ensures r == NotReachable ==> !w.cleanupSubject && !IsAncestor(graph, w.tip, authoritativeMain)
      ensures r == NoParent ==>
                w.cleanupSubject && graph[w.tip] == [] && !IsAncestor(graph, w.tip, authoritativeMain)
      ensures r == UnintegratedParent ==>
                && w.cleanupSubject && graph[w.tip] != [] && !IsAncestor(graph, w.tip, authoritativeMain)
                && !IsAncestor(graph, graph[w.tip][0], authoritativeMain)
    {
      if !w.expectedPath || w.isCoordination || !w.registered || !w.expectedBranch || w.dirty || w.activeArtifacts {
        return RefusedWorkspace;
      }
      if !IsAncestor(graph, w.tip, authoritativeMain) {
        if !w.cleanupSubject { return NotReachable; }
        if graph[w.tip] == [] { return NoParent; }
        if !IsAncestor(graph, graph[w.tip][0], authoritativeMain) { return UnintegratedParent; }
      }
      tip := None;
      r := Removed;
    }
  }

  predicate SafeWorkspace(w: Workspace) {
    w.expectedPath && !w.isCoordination && w.registered && w.expectedBranch && !w.dirty && !w.activeArtifacts
  }

  /** The branch is part of main, or its tip is the cleanup commit on top of a first parent
      that is. */
  predicate Integrated(g: Graph, w: Workspace, main: nat)
    requires w.tip < |g| && main < |g|
  {
    || IsAncestor(g, w.tip, main)
    || (w.cleanupSubject && g[w.tip] != [] && IsAncestor(g, g[w.tip][0], main))
  }

  /** The commits that deleting a branch leaves unreachable from main. */
  function Lost(g: Graph, tip: nat, main: nat): set<nat>
    requires tip < |g| && main < |g|
  {
    Ancestors(g, tip) - Ancestors(g, main)
  }

  predicate ParentsIntegrated(g: Graph, tip: nat, main: nat)
    requires tip < |g| && main < |g|
  {
    forall i :: 0 <= i < |g[tip]| ==> IsAncestor(g, g[tip][i], main)
  }

  /** Deleting a branch loses at most its tip exactly when the tip or all its parents are
      part of main. */
  lemma LosesAtMostTipExactly(g: Graph, tip: nat, main: nat)
    requires tip < |g| && main < |g|
    ensures Lost(g, tip, main) <= {tip} <==> IsAncestor(g, tip, main) || ParentsIntegrated(g, tip, main)
    ensures Lost(g, tip, main) == {} <==> IsAncestor(g, tip, main)
  {
    AheadByZero(g, tip, main);
    if ParentsIntegrated(g, tip, main) {
      forall a | a in Ancestors(g, tip) && a != tip ensures a in Ancestors(g, main) {
        AncestorOfSome(g, g[tip], tip, a);
        var i :| 0 <= i < |g[tip]| && IsAncestor(g, a, g[tip][i]);
        AncestorsAreOlder(g, g[tip][i]);
        AncestryIsTransitive(g, a, g[tip][i], main);
      }
    } else {
      var i :| 0 <= i < |g[tip]| && !IsAncestor(g, g[tip][i], main);
      AncestorOfSome(g, g[tip], tip, g[tip][i]);
      assert IsAncestor(g, g[tip][i], g[tip][i]);
      if !IsAncestor(g, tip, main) { assert g[tip][i] in Lost(g, tip, main); }
    }
  }

  /** A cleanup that proceeds loses at most the cleanup commit, unless that commit is a merge. */
  lemma CleanupLosesAtMostTip(g: Graph, w: Workspace, main: nat)
    requires w.tip < |g| && main < |g| && Integrated(g, w, main) && |g[w.tip]| <= 1
    ensures Lost(g, w.tip, main) <= {w.tip}
  {
    LosesAtMostTipExactly(g, w.tip, main);
  }

  /** What a cleanup that proceeds loses beyond its tip is exactly what its unchecked parents
      bring: nothing if and only if every parent is part of main, or the tip is. */
  lemma CleanupLosesWorkExactly(g: Graph, w: Workspace, main: nat)
    requires w.tip < |g| && main < |g| && Integrated(g, w, main)
    ensures Lost(g, w.tip, main) <= {w.tip} <==>
              IsAncestor(g, w.tip, main) || forall i :: 1 <= i < |g[w.tip]| ==> IsAncestor(g, g[w.tip][i], main)
  {
    LosesAtMostTipExactly(g, w.tip, main);
    if !IsAncestor(g, w.tip, main) && forall i :: 1 <= i < |g[w.tip]| ==> IsAncestor(g, g[w.tip][i], main) {
      forall i | 0 <= i < |g[w.tip]| ensures IsAncestor(g, g[w.tip][i], main) {
        assert i == 0 ==> g[w.tip][i] == g[w.tip][0];
      }
    }
  }

  /** Only the first parent is checked: any merge that carries the cleanup subject on top of an
      integrated first parent passes, and another parent that is not part of main is lost. */
  lemma MergeTipLosesWork(g: Graph, w: Workspace, main: nat, i: nat)
    requires w.tip < |g| && main < |g| && w.cleanupSubject && i < |g[w.tip]|
    requires IsAncestor(g, g[w.tip][0], main) && !IsAncestor(g, g[w.tip][i], main)
    ensures Integrated(g, w, main) && g[w.tip][i] in Lost(g, w.tip, main)
  {
    AncestorOfSome(g, g[w.tip], w.tip, g[w.tip][i]);
    assert IsAncestor(g, g[w.tip][i], g[w.tip][i]);
  }

  /** A new commit leaves the ancestry of the old ones as it is. */
  lemma {:induction false} AncestorsStay(g: Graph, parents: seq<nat>, c: nat)
    requires c < |g| && forall i :: 0 <= i < |parents| ==> parents[i] < |g|
    ensures var more: Graph := g + [parents]; Ancestors(more, c) == Ancestors(g, c)
    decreases c, 1, 0
  {
    AncestorsOfStay(g, parents, g[c], c);
  }

  lemma {:induction false} AncestorsOfStay(g: Graph, added: seq<nat>, parents: seq<nat>, bound: nat)
    requires forall i :: 0 <= i < |added| ==> added[i] < |g|
    requires bound < |g| && forall i :: 0 <= i < |parents| ==> parents[i] < bound
    ensures var more: Graph := g + [added]; AncestorsOf(more, parents, bound) == AncestorsOf(g, parents, bound)
    decreases bound, 0, |parents|
  {
    if parents != [] {
      AncestorsStay(g, added, parents[0]);
      AncestorsOfStay(g, added, parents[1..], bound);
    }
  }

  /** Any commit that is not part of main can be lost so: by a merge of main and that commit,
      with the cleanup subject. */
  lemma AnyOtherCommitCanBeLost(g: Graph, w: Workspace, main: nat, other: nat)
    requires main < |g| && other < |g| && !IsAncestor(g, other, main)
    requires w.tip == |g| && w.cleanupSubject
    ensures var merged: Graph := g + [[main, other]];
            Integrated(merged, w, main) && other in Lost(merged, w.tip, main)
  {
    var merged: Graph := g + [[main, other]];
    AncestorsStay(g, [main, other], main);
    assert IsAncestor(merged, main, main);
    MergeTipLosesWork(merged, w, main, 1);
  }
}
