/** The candidate shortlist: which authority work item the next worker should claim. */
module IssueCandidates {
  import opened Text

  datatype Disposition = Eligible | Blocked | ClosedWork | Deferred | NotReady | Unavailable

  /** An authority work item with the policy's view of it. `updatedOrder` ranks the text of
      its update time, zero for none; `updatedTime` is that text parsed, if it parses. */
  datatype Item = Item(
    number: int, disposition: Disposition, priority: string, labelPriority: string,
    ready: bool, updatedOrder: nat, updatedTime: Option<int>)

  datatype Reading = NoLease | StaleLease | FreshLease | ReadFailed

  datatype Shortlist =
    | Candidate(number: Option<int>, groups: seq<(string, seq<int>)>, leasedElsewhere: set<int>)
    | Exhausted(leasedElsewhere: set<int>)
    | DiscoveryUnavailable

  // ---------- which issues are eligible, in which order ----------

  predicate StillDeferred(item: Item, deferred: map<int, Option<int>>) {
    && item.number in deferred
    && deferred[item.number].Some? && item.updatedTime.Some?
    && item.updatedTime.value <= deferred[item.number].value
  }

  /** Items that name a valid issue and that authority does not defer. */
  function Queried(items: seq<Item>): seq<Item> {
    if items == [] then []
    else
      var front, last := Queried(items[..|items| - 1]), items[|items| - 1];
      if last.disposition == Deferred || last.number < 1 then front else front + [last]
  }

  /** The last queried item of each number. */
  function ByNumber(queried: seq<Item>): map<int, Item> {
    if queried == [] then map[]
    else ByNumber(queried[..|queried| - 1])[queried[|queried| - 1].number := queried[|queried| - 1]]
  }

  predicate Admissible(item: Item, byNumber: map<int, Item>, excluded: set<int>, deferred: map<int, Option<int>>) {
    && item.number in byNumber
    && item.number !in excluded
    && !StillDeferred(item, deferred)
    && byNumber[item.number].disposition == Eligible
  }

  function Admitted(queried: seq<Item>, byNumber: map<int, Item>, excluded: set<int>,
                    deferred: map<int, Option<int>>): seq<Item> {
    if queried == [] then []
    else
      var rest := Admitted(queried[1..], byNumber, excluded, deferred);
      if Admissible(queried[0], byNumber, excluded, deferred) then [queried[0]] + rest else rest
  }

  /** `indexOf`: minus one when absent. */
  function IndexOf(names: seq<string>, name: string): int {
    if names == [] then -1
    else if names[0] == name then 0
    else
      var rest := IndexOf(names[1..], name);
      if rest < 0 then -1 else rest + 1
  }

  /** The comparator is negative: configured priority, readiness, then latest update. */
  predicate Before(priorities: seq<string>, a: Item, b: Item) {
    var i, j := IndexOf(priorities, a.labelPriority), IndexOf(priorities, b.labelPriority);
    if i != j then i < j
    else if a.ready != b.ready then a.ready
    else a.updatedOrder > b.updatedOrder
  }

  /** The comparator is consistent: a strict order whose ties are an equivalence. */
  lemma ComparatorIsWeakOrder(priorities: seq<string>, a: Item, b: Item, c: Item)
    ensures !(Before(priorities, a, b) && Before(priorities, b, a))
    ensures Before(priorities, a, b) && Before(priorities, b, c) ==> Before(priorities, a, c)
    ensures !Before(priorities, a, b) && !Before(priorities, b, c) ==> !Before(priorities, a, c)
  {
  }

  function Insert(priorities: seq<string>, item: Item, sorted: seq<Item>): seq<Item> {
    if sorted == [] || !Before(priorities, sorted[0], item) then [item] + sorted
    else [sorted[0]] + Insert(priorities, item, sorted[1..])
  }

  /** The stable sort of the host language. */
  function Sort(priorities: seq<string>, items: seq<Item>): seq<Item> {
    if items == [] then [] else Insert(priorities, items[0], Sort(priorities, items[1..]))
  }

  predicate Sorted(priorities: seq<string>, items: seq<Item>) {
    forall i, j :: 0 <= i < j < |items| ==> !Before(priorities, items[j], items[i])
  }

  lemma {:induction false} InsertSorted(priorities: seq<string>, item: Item, sorted: seq<Item>)
    requires Sorted(priorities, sorted)
    ensures Sorted(priorities, Insert(priorities, item, sorted))
    ensures multiset(Insert(priorities, item, sorted)) == multiset(sorted) + multiset{item}
  {
    if sorted == [] || !Before(priorities, sorted[0], item) {
      assert forall j :: 0 <= j < |sorted| ==> !Before(priorities, sorted[j], item);
    } else {
      var rest := Insert(priorities, item, sorted[1..]);
      InsertSorted(priorities, item, sorted[1..]);
      assert sorted == [sorted[0]] + sorted[1..];
      forall j | 0 <= j < |rest| ensures !Before(priorities, rest[j], sorted[0]) {
        assert rest[j] in multiset(rest);
        assert rest[j] == item || rest[j] in sorted[1..];
      }
    }
  }

  lemma {:induction false} SortSorts(priorities: seq<string>, items: seq<Item>)
    ensures Sorted(priorities, Sort(priorities, items))
    ensures multiset(Sort(priorities, items)) == multiset(items)
  {
    if items != [] {
      SortSorts(priorities, items[1..]);
      InsertSorted(priorities, items[0], Sort(priorities, items[1..]));
      assert items == [items[0]] + items[1..];
    }
  }

  /** The items that the comparator cannot tell from the given one, in order. */
  function Alike(priorities: seq<string>, like: Item, items: seq<Item>): seq<Item> {
    if items == [] then []
    else
      var rest := Alike(priorities, like, items[1..]);
      if Before(priorities, like, items[0]) || Before(priorities, items[0], like) then rest else [items[0]] + rest
  }

  lemma {:induction false} InsertStable(priorities: seq<string>, like: Item, item: Item, sorted: seq<Item>)
    ensures Alike(priorities, like, Insert(priorities, item, sorted)) == Alike(priorities, like, [item] + sorted)
  {
    if sorted != [] && Before(priorities, sorted[0], item) {
      InsertStable(priorities, like, item, sorted[1..]);
      assert ([item] + sorted)[1..] == sorted && ([item] + sorted[1..])[1..] == sorted[1..];
    }
  }

  /** Sorting keeps the order of items that compare equal. */
  lemma {:induction false} SortIsStable(priorities: seq<string>, like: Item, items: seq<Item>)
    ensures Alike(priorities, like, Sort(priorities, items)) == Alike(priorities, like, items)
  {
    if items != [] {
      SortIsStable(priorities, like, items[1..]);
      InsertStable(priorities, like, items[0], Sort(priorities, items[1..]));
      assert ([items[0]] + Sort(priorities, items[1..]))[1..] == Sort(priorities, items[1..]);
    }
  }

  // ---------- the windowed lease search ----------

  /** The plain search: the first issue without a fresh foreign lease. */
  function FirstUnleased(eligible: seq<Item>, read: int -> Reading): nat {
    if eligible == [] || read(eligible[0].number) != FreshLease then 0
    else 1 + FirstUnleased(eligible[1..], read)
  }

  lemma {:induction false} FirstUnleasedIs(eligible: seq<Item>, read: int -> Reading, k: nat)
    requires k <= |eligible| && forall i :: 0 <= i < k ==> read(eligible[i].number) == FreshLease
    requires k < |eligible| ==> read(eligible[k].number) != FreshLease
    ensures FirstUnleased(eligible, read) == k
  {
    if k > 0 {
      assert forall i :: 0 <= i < k - 1 ==> eligible[1..][i] == eligible[i + 1];
      FirstUnleasedIs(eligible[1..], read, k - 1);
    }
  }

  lemma {:induction false} FirstUnleasedMeans(eligible: seq<Item>, read: int -> Reading)
    ensures var k := FirstUnleased(eligible, read);
            && k <= |eligible|
            && (forall i :: 0 <= i < k ==> read(eligible[i].number) == FreshLease)
            && (k < |eligible| ==> read(eligible[k].number) != FreshLease)
  {
    if eligible != [] && read(eligible[0].number) == FreshLease {
      FirstUnleasedMeans(eligible[1..], read);
      assert forall i :: 0 < i < |eligible| ==> eligible[i] == eligible[1..][i - 1];
    }
  }

  function Least(a: nat, b: nat): nat {
    if a < b then a else b
  }

  /** Where the window that holds position k ends, counting windows from the offset. */
  function WindowEnd(k: nat, offset: nat, window: nat, n: nat): nat
    requires window >= 1
    decreases n - offset
  {
    if offset >= n then n
    else if k < offset + window then Least(n, offset + window)
    else WindowEnd(k, offset + window, window, n)
  }

  /** How far leases get read: to the end of the window that holds the first unleased issue. */
  function Inspected(eligible: seq<Item>, read: int -> Reading, window: nat): nat
    requires window >= 1
  {
    WindowEnd(FirstUnleased(eligible, read), 0, window, |eligible|)
  }

  lemma {:induction false} WindowEndBound(k: nat, offset: nat, window: nat, n: nat)
    requires window >= 1
    ensures WindowEnd(k, offset, window, n) <= n
    ensures k < n && offset <= k ==> k < WindowEnd(k, offset, window, n) <= k + window
    decreases n - offset
  {
    if offset < n && k >= offset + window { WindowEndBound(k, offset + window, window, n); }
  }

  function FreshIn(eligible: seq<Item>, read: int -> Reading): set<int> {
    set i | 0 <= i < |eligible| && read(eligible[i].number) == FreshLease :: eligible[i].number
  }

  predicate SomeReadFails(eligible: seq<Item>, read: int -> Reading) {
    exists i :: 0 <= i < |eligible| && read(eligible[i].number) == ReadFailed
  }

  datatype Search = Search(failed: bool, leased: set<int>, first: Option<int>)

  /** Reads one batch; a failed read fails the batch. */
  method ReadBatch(batch: seq<Item>, read: int -> Reading, leased: set<int>) returns (failed: bool, more: set<int>)
    ensures failed <==> SomeReadFails(batch, read)
    ensures !failed ==> more == leased + FreshIn(batch, read)
  {
    failed, more := false, leased;
    for i := 0 to |batch|
      invariant forall j :: 0 <= j < i ==> read(batch[j].number) != ReadFailed
      invariant more == leased + FreshIn(batch[..i], read)
    {
      match read(batch[i].number) {
        case ReadFailed => failed := true; return;
        case FreshLease => more := more + {batch[i].number};
        case _ =>
      }
      FreshAppend(batch, i, read);
    }
    assert batch[..|batch|] == batch;
  }

  lemma FreshAppend(items: seq<Item>, i: nat, read: int -> Reading)
    requires i < |items|
    ensures FreshIn(items[..i + 1], read)
            == FreshIn(items[..i], read) + if read(items[i].number) == FreshLease then {items[i].number} else {}
  {
    FreshJoin(items[..i], [items[i]], read);
    assert items[..i + 1] == items[..i] + [items[i]];
    assert [items[i]][0] == items[i];
  }

  lemma FreshJoin(a: seq<Item>, b: seq<Item>, read: int -> Reading)
    ensures FreshIn(a + b, read) == FreshIn(a, read) + FreshIn(b, read)
    ensures SomeReadFails(a + b, read) <==> SomeReadFails(a, read) || SomeReadFails(b, read)
  {
    var ab := a + b;
    assert forall i :: 0 <= i < |b| ==> ab[|a| + i] == b[i];
    assert forall i :: 0 <= i < |a| ==> ab[i] == a[i];
  }

  /** Reads one window in batches. */
  method ReadWindow(window: seq<Item>, concurrency: nat, read: int -> Reading, leased: set<int>)
    returns (failed: bool, more: set<int>)
    requires concurrency >= 1
    ensures failed <==> SomeReadFails(window, read)
    ensures !failed ==> more == leased + FreshIn(window, read)
  {
    var start := 0;
    failed, more := false, leased;
    while start < |window|
      invariant !failed && start <= |window| && !SomeReadFails(window[..start], read)
      invariant more == leased + FreshIn(window[..start], read)
    {
      var end := if start + concurrency < |window| then start + concurrency else |window|;
      var batch := window[start..end];
      failed, more := ReadBatch(batch, read, more);
      assert window[..end] == window[..start] + batch;
      FreshJoin(window[..start], batch, read);
      if failed {
        assert window == window[..end] + window[end..];
        FreshJoin(window[..end], window[end..], read);
        return;
      }
      start := end;
    }
    assert window[..start] == window;
  }

  lemma InFresh(items: seq<Item>, read: int -> Reading, hi: nat, i: nat)
    requires i < hi <= |items|
    ensures items[i].number in FreshIn(items[..hi], read) <==> read(items[i].number) == FreshLease
  {
    assert items[..hi][i] == items[i];
  }

  /** The first issue from lo on that is not in the leased set. */
  method FindFree(eligible: seq<Item>, lo: nat, hi: nat, leased: set<int>) returns (i: nat)
    requires lo <= hi <= |eligible|
    ensures lo <= i <= hi && forall j :: lo <= j < i ==> eligible[j].number in leased
    ensures i < hi ==> eligible[i].number !in leased
  {
    i := lo;
    while i < hi && eligible[i].number in leased
      invariant lo <= i <= hi && forall j :: lo <= j < i ==> eligible[j].number in leased
    {
      i := i + 1;
    }
  }

  /** The search in windows and batches. It reads to the end of the window that holds the
      first unleased issue; it fails exactly when a failing read lies there, and otherwise
      finds what the plain search finds, for every window and concurrency. */
  method FindAvailable(eligible: seq<Item>, window: nat, concurrency: nat, read: int -> Reading) returns (s: Search)
    requires window >= 1 && concurrency >= 1
    ensures Inspected(eligible, read, window) <= |eligible|
    ensures s.failed <==> SomeReadFails(eligible[..Inspected(eligible, read, window)], read)
    ensures !s.failed ==> s.leased == FreshIn(eligible[..Inspected(eligible, read, window)], read)
    ensures !s.failed ==> s.first == Plain(eligible, read)
  {
    var offset, leased := 0, {};
    ghost var k, n := FirstUnleased(eligible, read), |eligible|;
    FirstUnleasedMeans(eligible, read);
    WindowEndBound(k, 0, window, n);
    while offset < |eligible|
      invariant WindowEnd(k, offset, window, n) == Inspected(eligible, read, window)
      invariant Least(n, offset) <= k
      invariant leased == FreshIn(eligible[..Least(n, offset)], read)
      decreases |eligible| - offset
    {
      var hi := Least(|eligible|, offset + window);
      var failed, more := ReadWindow(eligible[offset..hi], concurrency, read, leased);
      WindowRead(eligible, read, offset, hi);
      if failed { return Search(true, more, None); }
      leased := more;
      var i := FindFree(eligible, offset, hi, leased);
      FreeIsFirst(eligible, read, offset, hi, i);
      if i < hi { return Search(false, leased, Some(eligible[i].number)); }
      offset := offset + window;
    }
    NoFailureBefore(eligible, read, n);
    s := Search(false, leased, None);
  }

  /** The plain search's answer. */
  function Plain(eligible: seq<Item>, read: int -> Reading): Option<int> {
    var k := FirstUnleased(eligible, read);
    if k < |eligible| then Some(eligible[k].number) else None
  }

  lemma WindowRead(eligible: seq<Item>, read: int -> Reading, offset: nat, hi: nat)
    requires offset <= hi <= |eligible| && offset <= FirstUnleased(eligible, read)
    ensures FreshIn(eligible[..hi], read) == FreshIn(eligible[..offset], read) + FreshIn(eligible[offset..hi], read)
    ensures SomeReadFails(eligible[..hi], read) <==> SomeReadFails(eligible[offset..hi], read)
    ensures SomeReadFails(eligible[offset..hi], read) ==> FirstUnleased(eligible, read) < hi
  {
    assert eligible[..hi] == eligible[..offset] + eligible[offset..hi];
    FreshJoin(eligible[..offset], eligible[offset..hi], read);
    NoFailureBefore(eligible, read, offset);
    if SomeReadFails(eligible[offset..hi], read) { FailureStops(eligible, read, offset, hi); }
  }

  lemma NoFailureBefore(eligible: seq<Item>, read: int -> Reading, hi: nat)
    requires hi <= |eligible| && hi <= FirstUnleased(eligible, read)
    ensures !SomeReadFails(eligible[..hi], read)
  {
    FirstUnleasedMeans(eligible, read);
  }

  lemma FailureStops(eligible: seq<Item>, read: int -> Reading, lo: nat, hi: nat)
    requires lo <= hi <= |eligible| && SomeReadFails(eligible[lo..hi], read)
    ensures FirstUnleased(eligible, read) < hi
  {
    FirstUnleasedMeans(eligible, read);
    var i :| 0 <= i < |eligible[lo..hi]| && read(eligible[lo..hi][i].number) == ReadFailed;
    assert eligible[lo..hi][i] == eligible[lo + i];
  }

  lemma FreeIsFirst(eligible: seq<Item>, read: int -> Reading, lo: nat, hi: nat, i: nat)
    requires lo <= i <= hi <= |eligible| && lo <= FirstUnleased(eligible, read)
    requires forall j :: lo <= j < i ==> eligible[j].number in FreshIn(eligible[..hi], read)
    requires i < hi ==> eligible[i].number !in FreshIn(eligible[..hi], read)
    ensures i < hi ==> FirstUnleased(eligible, read) == i
    ensures i == hi ==> hi <= FirstUnleased(eligible, read)
  {
    FirstUnleasedMeans(eligible, read);
    forall j | lo <= j < i ensures read(eligible[j].number) == FreshLease { InFresh(eligible, read, hi, j); }
    if i < hi {
      InFresh(eligible, read, hi, i);
      FirstUnleasedIs(eligible, read, i);
    }
  }

  // ---------- the shortlist ----------

  const BUCKET_LIMITS: seq<nat> := [3, 5, 3, 2]

  function BucketLimit(priority: nat): nat {
    if priority < |BUCKET_LIMITS| then BUCKET_LIMITS[priority] else BUCKET_LIMITS[|BUCKET_LIMITS| - 1]
  }

  /** Eligible issues of one priority that were not seen leased. */
  function InBucket(eligible: seq<Item>, byNumber: map<int, Item>, priority: string, leased: set<int>): seq<int> {
    if eligible == [] then []
    else
      var rest := InBucket(eligible[1..], byNumber, priority, leased);
      var n := eligible[0].number;
      if n in byNumber && byNumber[n].priority == priority && n !in leased then [n] + rest else rest
  }

  lemma {:induction false} InBucketMeans(eligible: seq<Item>, byNumber: map<int, Item>, priority: string,
                                         leased: set<int>)
    ensures InBucket(eligible, byNumber, priority, leased) == []
            <==> forall i :: 0 <= i < |eligible| ==> !Listed(eligible[i], byNumber, priority, leased)
  {
    if eligible != [] {
      InBucketMeans(eligible[1..], byNumber, priority, leased);
      assert forall i :: 0 < i < |eligible| ==> eligible[i] == eligible[1..][i - 1];
      if forall i :: 0 <= i < |eligible| ==> !Listed(eligible[i], byNumber, priority, leased) {
        forall i | 0 <= i < |eligible[1..]| ensures !Listed(eligible[1..][i], byNumber, priority, leased) {
          assert eligible[1..][i] == eligible[i + 1];
        }
      }
    }
  }

  predicate Listed(item: Item, byNumber: map<int, Item>, priority: string, leased: set<int>) {
    item.number in byNumber && byNumber[item.number].priority == priority && item.number !in leased
  }

  /** Some eligible issue of a configured priority was not seen leased. */
  ghost predicate SomeListed(eligible: seq<Item>, byNumber: map<int, Item>, priorities: seq<string>, leased: set<int>) {
    exists i :: 0 <= i < |eligible| && Offered(eligible[i], byNumber, priorities, leased)
  }

  predicate Offered(item: Item, byNumber: map<int, Item>, priorities: seq<string>, leased: set<int>) {
    item.number in byNumber && byNumber[item.number].priority in priorities && item.number !in leased
  }

  /** The first issues of the p-th priority, as many as its limit allows. */
  function Offers(eligible: seq<Item>, byNumber: map<int, Item>, priority: string, p: nat, leased: set<int>): seq<int> {
    var bucket := InBucket(eligible, byNumber, priority, leased);
    if BucketLimit(p) < |bucket| then bucket[..BucketLimit(p)] else bucket
  }

  /** What a group offers: the first issues of its priority that were not seen leased; three of
      the first priority, five of the second, three of the third and two of any other. */
  lemma OffersExactly(eligible: seq<Item>, byNumber: map<int, Item>, priority: string, p: nat, leased: set<int>,
                      number: int)
    ensures var bucket := InBucket(eligible, byNumber, priority, leased);
            var limit := if p == 0 then 3 else if p == 1 then 5 else if p == 2 then 3 else 2;
            && Offers(eligible, byNumber, priority, p, leased) <= bucket
            && |Offers(eligible, byNumber, priority, p, leased)| == (if |bucket| <= limit then |bucket| else limit)
            && (number in bucket <==> exists i :: 0 <= i < |eligible| && eligible[i].number == number
                                                  && Listed(eligible[i], byNumber, priority, leased))
  {
    BucketMembers(eligible, byNumber, priority, leased, number);
  }

  lemma {:induction false} BucketMembers(eligible: seq<Item>, byNumber: map<int, Item>, priority: string,
                                         leased: set<int>, number: int)
    ensures number in InBucket(eligible, byNumber, priority, leased)
            <==> exists i :: 0 <= i < |eligible| && eligible[i].number == number
                             && Listed(eligible[i], byNumber, priority, leased)
  {
    if eligible != [] {
      BucketMembers(eligible[1..], byNumber, priority, leased, number);
      if i :| 0 <= i < |eligible| && eligible[i].number == number && Listed(eligible[i], byNumber, priority, leased) {
        if i > 0 { assert eligible[1..][i - 1] == eligible[i]; }
      }
      if i :| 0 <= i < |eligible[1..]| && eligible[1..][i].number == number
              && Listed(eligible[1..][i], byNumber, priority, leased)
      {
        assert eligible[i + 1] == eligible[1..][i];
      }
    }
  }

  /** One group for each of the first n priorities that still offers an issue. */
  function GroupsOf(eligible: seq<Item>, byNumber: map<int, Item>, priorities: seq<string>, n: nat,
                    leased: set<int>): seq<(string, seq<int>)>
    requires n <= |priorities|
  {
    if n == 0 then []
    else
      var offers := Offers(eligible, byNumber, priorities[n - 1], n - 1, leased);
      GroupsOf(eligible, byNumber, priorities, n - 1, leased)
      + if offers == [] then [] else [(priorities[n - 1], offers)]
  }

  /** One group for each configured priority that still offers an issue. */
  method Groups(eligible: seq<Item>, byNumber: map<int, Item>, priorities: seq<string>, leased: set<int>)
    returns (groups: seq<(string, seq<int>)>)
    ensures groups != [] <==> SomeListed(eligible, byNumber, priorities, leased)
    ensures forall g :: g in groups ==> g.0 in priorities && g.1 != []
    ensures forall g :: g in groups ==> g.1 <= InBucket(eligible, byNumber, g.0, leased)
    ensures groups == GroupsOf(eligible, byNumber, priorities, |priorities|, leased)
  {
    groups := [];
    for p := 0 to |priorities|
      invariant groups == GroupsOf(eligible, byNumber, priorities, p, leased)
      invariant groups != [] <==> SomeListed(eligible, byNumber, priorities[..p], leased)
      invariant forall g :: g in groups ==> g.0 in priorities && g.1 != []
      invariant forall g :: g in groups ==> g.1 <= InBucket(eligible, byNumber, g.0, leased)
    {
      var bucket := InBucket(eligible, byNumber, priorities[p], leased);
      var wanted := BucketLimit(p);
      var issues := if wanted < |bucket| then bucket[..wanted] else bucket;
      ListedStep(eligible, byNumber, priorities, p, leased);
      if issues != [] { groups := groups + [(priorities[p], issues)]; }
    }
    assert priorities[..|priorities|] == priorities;
  }

  lemma ListedStep(eligible: seq<Item>, byNumber: map<int, Item>, priorities: seq<string>, p: nat, leased: set<int>)
    requires p < |priorities|
    ensures SomeListed(eligible, byNumber, priorities[..p + 1], leased)
            <==> SomeListed(eligible, byNumber, priorities[..p], leased)
                 || InBucket(eligible, byNumber, priorities[p], leased) != []
  {
    InBucketMeans(eligible, byNumber, priorities[p], leased);
    assert priorities[..p + 1] == priorities[..p] + [priorities[p]];
    forall i | 0 <= i < |eligible|
      ensures Offered(eligible[i], byNumber, priorities[..p + 1], leased)
              <==> Offered(eligible[i], byNumber, priorities[..p], leased)
                   || Listed(eligible[i], byNumber, priorities[p], leased)
    {
    }
  }

  /** The selection's inputs: the authority's items, the configured priorities, every hard
      exclusion of this run, and when locally deferred issues were parked. */
  datatype Query = Query(items: seq<Item>, priorities: seq<string>, excluded: set<int>, deferred: map<int, Option<int>>)
  {
    function Index(): map<int, Item> {
      ByNumber(Queried(items))
    }

    predicate Admits(item: Item) {
      item in Queried(items) && Admissible(item, Index(), excluded, deferred)
    }

    function EligibleOrder(): seq<Item> {
      Sort(priorities, Admitted(Queried(items), Index(), excluded, deferred))
    }
  }

  /** The number of the first eligible issue that no fresh owner holds; without a lease
      authority, of the first eligible issue. */
  function FirstFree(eligible: seq<Item>, leases: Option<int -> Reading>): Option<int> {
    if leases.Some? then Plain(eligible, leases.value)
    else if eligible != [] then Some(eligible[0].number)
    else None
  }

  function SeenLeased(eligible: seq<Item>, leases: Option<int -> Reading>, window: nat): set<int>
    requires window >= 1
  {
    if leases.None? then {}
    else
      WindowEndBound(FirstUnleased(eligible, leases.value), 0, window, |eligible|);
      FreshIn(eligible[..Inspected(eligible, leases.value, window)], leases.value)
  }

  ghost predicate SearchFails(eligible: seq<Item>, leases: Option<int -> Reading>, window: nat)
    requires window >= 1
  {
    leases.Some? &&
    (WindowEndBound(FirstUnleased(eligible, leases.value), 0, window, |eligible|);
     SomeReadFails(eligible[..Inspected(eligible, leases.value, window)], leases.value))
  }

  function AtLeastOne(n: int): nat {
    if n < 1 then 1 else n
  }

  method CandidateShortlist(query: Query, leases: Option<int -> Reading>, leaseReadWindow: int,
                            leaseReadConcurrency: int) returns (s: Shortlist)
    ensures var eligible := query.EligibleOrder();
            var window := AtLeastOne(leaseReadWindow);
            && (s.DiscoveryUnavailable? <==> SearchFails(eligible, leases, window))
            && (s.Candidate? ==> s.number.Some? && s.number == FirstFree(eligible, leases))
            && (s.Candidate? ==>
                  s.groups == GroupsOf(eligible, query.Index(), query.priorities, |query.priorities|,
                                       SeenLeased(eligible, leases, window)))
            && (s.Candidate? ==> s.leasedElsewhere == SeenLeased(eligible, leases, window))
            && (s.Exhausted? ==> s.leasedElsewhere == SeenLeased(eligible, leases, window))
            && (s.Exhausted?
                <==> !s.DiscoveryUnavailable?
                     && !SomeListed(eligible, query.Index(), query.priorities, SeenLeased(eligible, leases, window)))
  {
    var eligible := query.EligibleOrder();
    var window := AtLeastOne(leaseReadWindow);
    var search := Search(false, {}, FirstFree(eligible, leases));
    if leases.Some? {
      search := FindAvailable(eligible, window, AtLeastOne(leaseReadConcurrency), leases.value);
      if search.failed { return DiscoveryUnavailable; }
    }
    var groups := Groups(eligible, query.Index(), query.priorities, search.leased);
    if groups == [] { return Exhausted(search.leased); }
    ListedMeansFree(eligible, query.Index(), query.priorities, leases, window);
    s := Candidate(search.first, groups, search.leased);
  }

  /** Whatever a group offers, some eligible issue is free. */
  lemma ListedMeansFree(eligible: seq<Item>, byNumber: map<int, Item>, priorities: seq<string>,
                        leases: Option<int -> Reading>, window: nat)
    requires window >= 1 && SomeListed(eligible, byNumber, priorities, SeenLeased(eligible, leases, window))
    ensures FirstFree(eligible, leases).Some?
  {
    var i :| 0 <= i < |eligible| && Offered(eligible[i], byNumber, priorities, SeenLeased(eligible, leases, window));
    if leases.Some? {
      var read := leases.value;
      FirstUnleasedMeans(eligible, read);
      WindowEndBound(FirstUnleased(eligible, read), 0, window, |eligible|);
      if FirstUnleased(eligible, read) == |eligible| {
        AllInspected(eligible, read, window);
        InFresh(eligible, read, |eligible|, i);
      }
    }
  }

  lemma {:induction false} WindowEndAll(k: nat, offset: nat, window: nat, n: nat)
    requires window >= 1 && k >= n
    ensures WindowEnd(k, offset, window, n) == n
    decreases n - offset
  {
    if offset < n && k >= offset + window { WindowEndAll(k, offset + window, window, n); }
  }

  lemma AllInspected(eligible: seq<Item>, read: int -> Reading, window: nat)
    requires window >= 1 && FirstUnleased(eligible, read) == |eligible|
    ensures Inspected(eligible, read, window) == |eligible|
  {
    WindowEndAll(|eligible|, 0, window, |eligible|);
  }

  lemma {:induction false} AdmittedMembers(queried: seq<Item>, byNumber: map<int, Item>, excluded: set<int>,
                                           deferred: map<int, Option<int>>)
    ensures forall x :: x in Admitted(queried, byNumber, excluded, deferred)
                        <==> x in queried && Admissible(x, byNumber, excluded, deferred)
  {
    if queried != [] {
      AdmittedMembers(queried[1..], byNumber, excluded, deferred);
      assert queried == [queried[0]] + queried[1..];
    }
  }

  lemma OrderMembers(query: Query)
    ensures forall x :: x in query.EligibleOrder() <==> query.Admits(x)
  {
    var admitted := Admitted(Queried(query.items), query.Index(), query.excluded, query.deferred);
    AdmittedMembers(Queried(query.items), query.Index(), query.excluded, query.deferred);
    SortSorts(query.priorities, admitted);
    forall x ensures x in query.EligibleOrder() <==> x in admitted {
      assert x in query.EligibleOrder() <==> x in multiset(query.EligibleOrder());
    }
  }

  predicate FreeOf(leases: Option<int -> Reading>, number: int) {
    leases.None? || leases.value(number) != FreshLease
  }

  /** The chosen number belongs to an admissible, unleased issue that no other admissible,
      unleased issue comes before; and one is chosen whenever there is one. */
  lemma ChosenComesFirst(query: Query, leases: Option<int -> Reading>)
    ensures var first := FirstFree(query.EligibleOrder(), leases);
            first.Some? ==> exists x :: query.Admits(x) && BestChoice(query, leases, x) && x.number == first.value
    ensures FirstFree(query.EligibleOrder(), leases).None?
            <==> forall x :: query.Admits(x) ==> !FreeOf(leases, x.number)
  {
    var order := query.EligibleOrder();
    OrderMembers(query);
    SortSorts(query.priorities, Admitted(Queried(query.items), query.Index(), query.excluded, query.deferred));
    var k := if leases.Some? then FirstUnleased(order, leases.value) else 0;
    if leases.Some? { FirstUnleasedMeans(order, leases.value); }
    if k < |order| {
      FirstIsBest(query, leases, k);
      assert query.Admits(order[k]);
    } else {
      forall x | query.Admits(x) ensures !FreeOf(leases, x.number) {
        assert x in order;
      }
    }
  }

  /** A hard exclusion of this run is never chosen, so an issue the scheduler skipped is not
      offered again while its skip is remembered. */
  lemma ExcludedIsNeverChosen(query: Query, leases: Option<int -> Reading>, number: int)
    requires FirstFree(query.EligibleOrder(), leases) == Some(number)
    ensures number !in query.excluded && number >= 1
  {
    ChosenComesFirst(query, leases);
    var x :| query.Admits(x) && BestChoice(query, leases, x) && x.number == number;
    QueriedNumbers(query.items, x);
  }

  /** The last word of the authority on an issue, as far as it does not defer it, is that it is
      eligible. */
  ghost predicate LatestIsEligible(items: seq<Item>, number: int) {
    exists j: nat :: j < |items| && items[j].number == number && items[j].disposition == Eligible
                     && NoneAfter(items, j, number)
  }

  predicate NoneAfter(items: seq<Item>, j: nat, number: int) {
    forall k :: j < k < |items| && items[k].number == number ==> items[k].disposition == Deferred
  }

  /** Which issues may be chosen: valid ones that the authority lists as eligible, that this run
      does not exclude, and that were updated after they were deferred, if they were. */
  lemma AdmitsExactly(query: Query, x: Item)
    ensures query.Admits(x)
            <==> && x in query.items && x.number >= 1 && x.disposition != Deferred
                 && x.number !in query.excluded && LatestIsEligible(query.items, x.number)
                 && (x.number in query.deferred && query.deferred[x.number].Some? && x.updatedTime.Some? ==>
                       x.updatedTime.value > query.deferred[x.number].value)
  {
    QueriedExactly(query.items, x);
    if x.number >= 1 { LatestExactly(query.items, x.number); }
  }

  lemma {:induction false} QueriedExactly(items: seq<Item>, x: Item)
    ensures x in Queried(items) <==> x in items && x.number >= 1 && x.disposition != Deferred
  {
    if items != [] {
      var n := |items| - 1;
      QueriedExactly(items[..n], x);
      assert items == items[..n] + [items[n]];
    }
  }

  lemma {:induction false} LatestExactly(items: seq<Item>, number: int)
    requires number >= 1
    ensures var index := ByNumber(Queried(items));
            number in index && index[number].disposition == Eligible <==> LatestIsEligible(items, number)
  {
    if items != [] {
      var n := |items| - 1;
      var front, last := items[..n], items[n];
      LatestExactly(front, number);
      if last.disposition != Deferred && last.number >= 1 {
        assert Queried(items)[..|Queried(items)| - 1] == Queried(front);
      }
      if last.number == number && last.disposition != Deferred {
        assert last.disposition == Eligible ==> NoneAfter(items, n, number);
      } else {
        LatestStays(items, number);
      }
    }
  }

  lemma LatestStays(items: seq<Item>, number: int)
    requires items != []
    requires items[|items| - 1].number != number || items[|items| - 1].disposition == Deferred
    ensures LatestIsEligible(items, number) <==> LatestIsEligible(items[..|items| - 1], number)
  {
    var n := |items| - 1;
    var front := items[..n];
    if j: nat :| j < n && front[j].number == number && front[j].disposition == Eligible && NoneAfter(front, j, number) {
      forall k | j < k < |items| && items[k].number == number ensures items[k].disposition == Deferred {
        if k < n { assert front[k] == items[k]; }
      }
      assert items[j] == front[j] && NoneAfter(items, j, number);
    }
    if j: nat :| j < |items| && items[j].number == number && items[j].disposition == Eligible
                 && NoneAfter(items, j, number)
    {
      forall k | j < k < n && front[k].number == number ensures front[k].disposition == Deferred {
        assert front[k] == items[k];
      }
      assert j < n && front[j] == items[j] && NoneAfter(front, j, number);
    }
  }

  lemma {:induction false} IndexOfMeans(names: seq<string>, name: string)
    ensures IndexOf(names, name) == -1 <==> name !in names
    ensures name in names ==>
              0 <= IndexOf(names, name) < |names| && names[IndexOf(names, name)] == name
              && name !in names[..IndexOf(names, name)]
  {
    if names != [] && names[0] != name {
      IndexOfMeans(names[1..], name);
      assert names == [names[0]] + names[1..];
      if name in names[1..] {
        var i := IndexOf(names[1..], name);
        assert names[..i + 1] == [names[0]] + names[1..][..i];
      }
    }
  }

  /** The chosen issue ranks first: by the place of its priority among those configured, then a
      ready one, then the one updated last. */
  lemma ChosenRanksFirst(query: Query, leases: Option<int -> Reading>, y: Item) returns (x: Item)
    requires query.Admits(y) && FreeOf(leases, y.number)
    ensures query.Admits(x) && FreeOf(leases, x.number)
    ensures FirstFree(query.EligibleOrder(), leases) == Some(x.number)
    ensures var i, j := IndexOf(query.priorities, x.labelPriority), IndexOf(query.priorities, y.labelPriority);
            && i <= j
            && (i == j ==> (y.ready ==> x.ready) && (x.ready == y.ready ==> x.updatedOrder >= y.updatedOrder))
  {
    ChosenComesFirst(query, leases);
    x :| query.Admits(x) && BestChoice(query, leases, x)
         && FirstFree(query.EligibleOrder(), leases) == Some(x.number);
  }

  lemma {:induction false} QueriedNumbers(items: seq<Item>, x: Item)
    requires x in Queried(items)
    ensures x in items && x.number >= 1 && x.disposition != Deferred
  {
    if x in Queried(items[..|items| - 1]) { QueriedNumbers(items[..|items| - 1], x); }
  }

  ghost predicate BestChoice(query: Query, leases: Option<int -> Reading>, x: Item) {
    FreeOf(leases, x.number)
    && forall y :: query.Admits(y) && FreeOf(leases, y.number) ==> !Before(query.priorities, y, x)
  }

  lemma FirstIsBest(query: Query, leases: Option<int -> Reading>, k: nat)
    requires var order := query.EligibleOrder();
             && k < |order| && FreeOf(leases, order[k].number)
             && Sorted(query.priorities, order)
             && forall i :: 0 <= i < k ==> !FreeOf(leases, order[i].number)
    ensures BestChoice(query, leases, query.EligibleOrder()[k])
  {
    var order := query.EligibleOrder();
    OrderMembers(query);
    forall y | query.Admits(y) && FreeOf(leases, y.number) ensures !Before(query.priorities, y, order[k]) {
      assert y in order;
      var j :| 0 <= j < |order| && order[j] == y;
    }
  }

  /** Every admissible issue has a priority that is configured. */
  ghost predicate AllConfigured(query: Query) {
    forall x :: query.Admits(x) ==> query.Index()[x.number].priority in query.priorities
  }

  /** With configured priorities only, the shortlist calls the queue exhausted exactly when
      no admissible issue is free. */
  lemma ExhaustedExactly(query: Query, leases: Option<int -> Reading>, window: nat)
    requires window >= 1 && AllConfigured(query) && !SearchFails(query.EligibleOrder(), leases, window)
    ensures !SomeListed(query.EligibleOrder(), query.Index(), query.priorities,
                        SeenLeased(query.EligibleOrder(), leases, window))
            <==> forall x :: query.Admits(x) ==> !FreeOf(leases, x.number)
  {
    var order := query.EligibleOrder();
    ChosenComesFirst(query, leases);
    if SomeListed(order, query.Index(), query.priorities, SeenLeased(order, leases, window)) {
      ListedMeansFree(order, query.Index(), query.priorities, leases, window);
    }
    if FirstFree(order, leases).Some? { FreeMeansListed(query, leases, window); }
  }

  lemma FreeMeansListed(query: Query, leases: Option<int -> Reading>, window: nat)
    requires window >= 1 && AllConfigured(query) && FirstFree(query.EligibleOrder(), leases).Some?
    ensures SomeListed(query.EligibleOrder(), query.Index(), query.priorities,
                       SeenLeased(query.EligibleOrder(), leases, window))
  {
    var order := query.EligibleOrder();
    OrderMembers(query);
    if leases.Some? {
      var k := FirstUnleased(order, leases.value);
      FirstUnleasedMeans(order, leases.value);
      WindowEndBound(k, 0, window, |order|);
      InFresh(order, leases.value, Inspected(order, leases.value, window), k);
      assert query.Admits(order[k]);
      assert Offered(order[k], query.Index(), query.priorities, SeenLeased(order, leases, window));
    } else {
      assert query.Admits(order[0]);
      assert Offered(order[0], query.Index(), query.priorities, {});
    }
  }

  predicate HasConfiguredPriority(query: Query, x: Item) {
    x.number in query.Index() && query.Index()[x.number].priority in query.priorities
  }

  /** Some admissible issue is free, and yet no group offers one. */
  ghost predicate WronglyExhausted(query: Query, leases: Option<int -> Reading>, window: nat)
    requires window >= 1
  {
    var order := query.EligibleOrder();
    && (exists x :: query.Admits(x) && FreeOf(leases, x.number))
    && !SomeListed(order, query.Index(), query.priorities, SeenLeased(order, leases, window))
  }

  /** Whatever the mixture of priorities: a queue is wrongly called exhausted if and only if some
      issue is free and every one of a configured priority was read as freshly leased. */
  lemma WronglyExhaustedExactly(query: Query, leases: Option<int -> Reading>, window: nat)
    requires window >= 1
    ensures WronglyExhausted(query, leases, window) <==>
              (&& (exists x :: query.Admits(x) && FreeOf(leases, x.number))
               && forall x :: query.Admits(x) && HasConfiguredPriority(query, x) ==>
                    x.number in SeenLeased(query.EligibleOrder(), leases, window))
  {
    var order, seen := query.EligibleOrder(), SeenLeased(query.EligibleOrder(), leases, window);
    OrderMembers(query);
    forall x | query.Admits(x) && HasConfiguredPriority(query, x) && x.number !in seen
      ensures SomeListed(order, query.Index(), query.priorities, seen)
    {
      assert x in order;
      var i :| 0 <= i < |order| && order[i] == x;
      assert Offered(order[i], query.Index(), query.priorities, seen);
    }
    if SomeListed(order, query.Index(), query.priorities, seen) {
      var i :| 0 <= i < |order| && Offered(order[i], query.Index(), query.priorities, seen);
      assert query.Admits(order[i]) && HasConfiguredPriority(query, order[i]);
    }
  }

  /** The issue that would have been chosen then has no configured priority. */
  lemma WronglyExhaustedHidesUnconfigured(query: Query, leases: Option<int -> Reading>, window: nat, x: Item)
    requires window >= 1 && WronglyExhausted(query, leases, window)
    requires query.Admits(x) && FreeOf(leases, x.number)
    ensures !HasConfiguredPriority(query, x)
  {
    WronglyExhaustedExactly(query, leases, window);
    if leases.Some? {
      var read, order := leases.value, query.EligibleOrder();
      WindowEndBound(FirstUnleased(order, read), 0, window, |order|);
      assert x.number !in FreshIn(order[..Inspected(order, read, window)], read);
    }
  }

  /** Otherwise it may call a queue exhausted that is not: an issue whose priority is not
      configured sorts before all others, yet no group offers it. */
  lemma UnconfiguredLooksExhausted(query: Query, leases: Option<int -> Reading>, window: nat, x: Item)
    requires window >= 1 && query.Admits(x) && FreeOf(leases, x.number)
    requires forall y :: query.Admits(y) ==> query.Index()[y.number].priority !in query.priorities
    ensures FirstFree(query.EligibleOrder(), leases).Some?
    ensures !SomeListed(query.EligibleOrder(), query.Index(), query.priorities,
                        SeenLeased(query.EligibleOrder(), leases, window))
  {
    OrderMembers(query);
    ChosenComesFirst(query, leases);
    forall i | 0 <= i < |query.EligibleOrder()| ensures query.Admits(query.EligibleOrder()[i]) {
      assert query.EligibleOrder()[i] in query.EligibleOrder();
    }
  }

  lemma {:induction false} IndexFound(names: seq<string>, name: string)
    ensures name in names <==> IndexOf(names, name) >= 0
  {
    if names != [] && names[0] != name {
      IndexFound(names[1..], name);
      assert names == [names[0]] + names[1..];
    }
  }

  lemma UnconfiguredSortsFirst(priorities: seq<string>, a: Item, b: Item)
    requires a.labelPriority !in priorities && b.labelPriority in priorities
    ensures Before(priorities, a, b)
  {
    IndexFound(priorities, a.labelPriority);
    IndexFound(priorities, b.labelPriority);
  }
}
