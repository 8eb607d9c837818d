/** Keyed performance records: staged locally, flushed into the tracked file, published. */
module PerformanceRecords {
  import opened Text
  import opened InsertionMap

  const MAX_RECORDS: nat := 500

  /** A record: its key names the run and the issue. */
  type Record = Entry<string, string>

  // ---------- merging ----------

  /** `Map.set` for each record in turn. */
  function PutAll(m: seq<Record>, records: seq<Record>): seq<Record> {
    if records == [] then m
    else
      var last := records[|records| - 1];
      Set(PutAll(m, records[..|records| - 1]), last.key, last.value)
  }

  /** The merge without its cap. */
  function Union(existing: seq<Record>, incoming: seq<Record>): seq<Record> {
    PutAll([], existing + incoming)
  }

  function Newest(records: seq<Record>): seq<Record> {
    if |records| <= MAX_RECORDS then records else records[|records| - MAX_RECORDS..]
  }

  function Merged(existing: seq<Record>, incoming: seq<Record>): seq<Record> {
    Newest(Union(existing, incoming))
  }

  method MergeRecords(existing: seq<Record>, incoming: seq<Record>) returns (merged: seq<Record>)
    ensures merged == Merged(existing, incoming)
  {
    var all := existing + incoming;
    merged := [];
    for i := 0 to |all|
      invariant merged == PutAll([], all[..i])
    {
      assert all[..i + 1][..i] == all[..i];
      merged := Set(merged, all[i].key, all[i].value);
    }
    assert all[..|all|] == all;
    merged := Newest(merged);
  }

  lemma {:induction false} PutAllJoin(m: seq<Record>, a: seq<Record>, b: seq<Record>)
    ensures PutAll(m, a + b) == PutAll(PutAll(m, a), b)
  {
    if b == [] {
      assert a + b == a;
    } else {
      assert (a + b)[..|a + b| - 1] == a + b[..|b| - 1];
      PutAllJoin(m, a, b[..|b| - 1]);
    }
  }

  lemma {:induction false} PutAllDistinct(m: seq<Record>, records: seq<Record>)
    requires DistinctKeys(m)
    ensures DistinctKeys(PutAll(m, records)) && |m| <= |PutAll(m, records)|
  {
    if records != [] {
      var front, last := records[..|records| - 1], records[|records| - 1];
      PutAllDistinct(m, front);
      SetProperties(PutAll(m, front), last.key, last.value);
    }
  }

  lemma {:induction false} PutAllHasKey(m: seq<Record>, records: seq<Record>, key: string)
    ensures HasKey(PutAll(m, records), key)
            <==> HasKey(m, key) || exists i :: 0 <= i < |records| && records[i].key == key
  {
    if records != [] {
      var front, last := records[..|records| - 1], records[|records| - 1];
      PutAllHasKey(m, front, key);
      SetHasKey(PutAll(m, front), last.key, last.value, key);
      assert forall i :: 0 <= i < |front| ==> front[i] == records[i];
    }
  }

  lemma {:induction false} SetTwice(m: seq<Record>, key: string, value: string, other: string)
    ensures Set(Set(m, key, value), key, other) == Set(m, key, other)
  {
    if m != [] && m[0].key != key { SetTwice(m[1..], key, value, other); }
  }

  /** Setting a present key and then another commutes. */
  lemma {:induction false} SetCommutes(m: seq<Record>, key: string, value: string, k: string, v: string)
    requires HasKey(m, key) && k != key
    ensures Set(Set(m, k, v), key, value) == Set(Set(m, key, value), k, v)
  {
    if m[0].key != key && m[0].key != k {
      SetCommutes(m[1..], key, value, k, v);
    }
  }

  lemma {:induction false} SetPastOthers(m: seq<Record>, key: string, value: string, records: seq<Record>)
    requires HasKey(m, key) && forall i :: 0 <= i < |records| ==> records[i].key != key
    ensures Set(PutAll(m, records), key, value) == PutAll(Set(m, key, value), records)
  {
    if records != [] {
      var front, last := records[..|records| - 1], records[|records| - 1];
      assert forall i :: 0 <= i < |front| ==> front[i] == records[i];
      SetPastOthers(m, key, value, front);
      PutAllHasKey(m, front, key);
      SetCommutes(PutAll(m, front), key, value, last.key, last.value);
    }
  }

  lemma {:induction false} NoKeyAt(records: seq<Record>, key: string)
    requires !HasKey(records, key)
    ensures forall i :: 0 <= i < |records| ==> records[i].key != key
  {
    forall i | 0 <= i < |records| ensures records[i].key != key {
      HasKeyAt(records, i);
    }
  }

  lemma FirstThenRest(m: seq<Record>, records: seq<Record>)
    requires records != []
    ensures PutAll(m, records) == PutAll(Set(m, records[0].key, records[0].value), records[1..])
  {
    assert records == records[..1] + records[1..];
    PutAllJoin(m, records[..1], records[1..]);
    assert records[..1][..0] == [];
  }

  /** Putting a list that was itself updated is putting the list and then the update. */
  lemma {:induction false} PutUpdated(m: seq<Record>, list: seq<Record>, key: string, value: string)
    requires DistinctKeys(list)
    ensures PutAll(m, Set(list, key, value)) == Set(PutAll(m, list), key, value)
    decreases |list|
  {
    if list == [] {
      FirstThenRest(m, [Entry(key, value)]);
    } else {
      var first := list[0];
      FirstThenRest(m, list);
      FirstThenRest(m, Set(list, key, value));
      if first.key == key {
        NoKeyAt(list[1..], key);
        SetHasKey(m, key, first.value, key);
        SetPastOthers(Set(m, key, first.value), key, value, list[1..]);
        SetTwice(m, key, first.value, value);
        assert Set(list, key, value)[1..] == list[1..];
      } else {
        PutUpdated(Set(m, first.key, first.value), list[1..], key, value);
        assert Set(list, key, value)[1..] == Set(list[1..], key, value);
      }
    }
  }

  /** Merging a batch is merging its own merge. */
  lemma {:induction false} PutNormal(m: seq<Record>, records: seq<Record>)
    ensures PutAll(m, PutAll([], records)) == PutAll(m, records)
  {
    if records != [] {
      var front, last := records[..|records| - 1], records[|records| - 1];
      PutNormal(m, front);
      PutAllDistinct([], front);
      PutUpdated(m, PutAll([], front), last.key, last.value);
    }
  }

  lemma {:induction false} SetSame(m: seq<Record>, i: nat)
    requires DistinctKeys(m) && i < |m|
    ensures Set(m, m[i].key, m[i].value) == m
  {
    if i > 0 {
      DistinctKeysDiffer(m, 0, i);
      SetSame(m[1..], i - 1);
      assert m == [m[0]] + m[1..];
    } else {
      assert m == [m[0]] + m[1..];
    }
  }

  /** Entries that a map already holds change nothing. */
  lemma {:induction false} PutHeld(m: seq<Record>, records: seq<Record>)
    requires DistinctKeys(m) && forall i :: 0 <= i < |records| ==> records[i] in m
    ensures PutAll(m, records) == m
  {
    if records != [] {
      var front, last := records[..|records| - 1], records[|records| - 1];
      assert forall i :: 0 <= i < |front| ==> front[i] == records[i];
      PutHeld(m, front);
      var i :| 0 <= i < |m| && m[i] == last;
      SetSame(m, i);
    }
  }

  lemma {:induction false} NormalIsFixed(m: seq<Record>)
    requires DistinctKeys(m)
    ensures PutAll([], m) == m
  {
    if m != [] {
      var front, last := m[..|m| - 1], m[|m| - 1];
      FrontDistinct(m);
      NormalIsFixed(front);
      SetAppends(front, last);
      assert m == front + [last];
    }
  }

  lemma {:induction false} FrontDistinct(m: seq<Record>)
    requires DistinctKeys(m) && m != []
    ensures DistinctKeys(m[..|m| - 1]) && !HasKey(m[..|m| - 1], m[|m| - 1].key)
  {
    if |m| > 1 {
      FrontDistinct(m[1..]);
      DistinctKeysDiffer(m, 0, |m| - 1);
      var front := m[..|m| - 1];
      assert front[1..] == m[1..][..|m| - 2];
      FrontHas(m[1..], m[0].key);
    }
  }

  lemma {:induction false} FrontHas(m: seq<Record>, key: string)
    requires m != [] && !HasKey(m, key)
    ensures !HasKey(m[..|m| - 1], key)
  {
    if |m| > 1 {
      FrontHas(m[1..], key);
      assert m[..|m| - 1][1..] == m[1..][..|m| - 2];
    }
  }

  lemma {:induction false} SetAppends(m: seq<Record>, e: Record)
    requires !HasKey(m, e.key)
    ensures Set(m, e.key, e.value) == m + [e]
  {
    if m != [] {
      SetAppends(m[1..], e);
      assert m + [e] == [m[0]] + (m[1..] + [e]);
    }
  }

  lemma UnionIs(a: seq<Record>, b: seq<Record>)
    ensures Union(a, b) == PutAll(PutAll([], a), b) && DistinctKeys(Union(a, b))
  {
    PutAllJoin([], a, b);
    PutAllDistinct([], a + b);
  }

  /** Merging is associative. */
  lemma UnionAssociative(a: seq<Record>, b: seq<Record>, c: seq<Record>)
    ensures Union(Union(a, b), c) == Union(a, Union(b, c))
  {
    UnionIs(a, b);
    UnionIs(Union(a, b), c);
    NormalIsFixed(Union(a, b));
    UnionIs(a, Union(b, c));
    PutNormal(PutAll([], a), b + c);
    PutAllJoin(PutAll([], a), b, c);
  }

  /** Merging the same batch again changes nothing. */
  lemma UnionIdempotent(a: seq<Record>, b: seq<Record>)
    ensures Union(Union(a, b), b) == Union(a, b)
  {
    UnionAssociative(a, b, b);
    UnionIs(b, b);
    PutNormal(PutAll([], b), b);
    PutAllDistinct([], b);
    PutHeld(PutAll([], b), PutAll([], b));
    UnionIs(a, Union(b, b));
    UnionIs(a, b);
    PutNormal(PutAll([], a), b);
  }

  /** A later record wins; a record keeps the place its key first had. */
  lemma LastWriteWins(a: seq<Record>, r: Record, key: string)
    ensures Get(Union(a, [r]), key) == if key == r.key then Some(r.value) else Get(PutAll([], a), key)
  {
    UnionIs(a, [r]);
    assert [r][..0] == [];
    GetSet(PutAll([], a), r.key, r.value, key);
  }

  lemma UnionGrows(a: seq<Record>, b: seq<Record>, c: seq<Record>)
    ensures |Union(a, b)| <= |Union(a, b + c)| && |PutAll([], b)| <= |Union(a, b)|
  {
    UnionIs(a, b);
    UnionIs(a, b + c);
    PutAllJoin(PutAll([], a), b, c);
    PutAllDistinct(Union(a, b), c);
    PutAllDistinct([], a);
    Grows(PutAll([], a), b);
  }

  function Keys(m: seq<Record>): set<string> {
    if m == [] then {} else {m[0].key} + Keys(m[1..])
  }

  lemma {:induction false} KeysAre(m: seq<Record>)
    ensures forall k :: k in Keys(m) <==> HasKey(m, k)
    ensures DistinctKeys(m) ==> |Keys(m)| == |m|
  {
    if m != [] { KeysAre(m[1..]); }
  }

  lemma Grows(m: seq<Record>, b: seq<Record>)
    requires DistinctKeys(m)
    ensures |PutAll([], b)| <= |PutAll(m, b)|
  {
    var few, many := PutAll([], b), PutAll(m, b);
    PutAllDistinct([], b);
    PutAllDistinct(m, b);
    KeysAre(few);
    KeysAre(many);
    forall k | k in Keys(few) ensures k in Keys(many) {
      PutAllHasKey([], b, k);
      PutAllHasKey(m, b, k);
    }
    assert Keys(many) == Keys(few) + (Keys(many) - Keys(few));
  }

  /** Below the cap the laws hold of the merge itself. */
  lemma MergeLaws(a: seq<Record>, b: seq<Record>, c: seq<Record>)
    requires |Union(a, b + c)| <= MAX_RECORDS
    ensures DistinctKeys(Merged(a, b))
    ensures Merged(Merged(a, b), c) == Merged(a, Merged(b, c))
    ensures Merged(Merged(a, b), b) == Merged(a, b)
  {
    UnionIs(a, b);
    UnionGrows(a, b, c);
    UnionAssociative(a, b, c);
    UnionIdempotent(a, b);
    UnionGrows(a, b + c, []);
    assert b + c + [] == b + c;
    UnionIs(a, Union(b, c));
    PutNormal(PutAll([], a), b + c);
    UnionIs(a, b + c);
  }

  lemma NewestDistinct(records: seq<Record>)
    requires DistinctKeys(records)
    ensures DistinctKeys(Newest(records)) && |Newest(records)| <= MAX_RECORDS
  {
    if |records| > MAX_RECORDS { DropDistinct(records, |records| - MAX_RECORDS); }
  }

  lemma {:induction false} DropDistinct(records: seq<Record>, n: nat)
    requires DistinctKeys(records) && n <= |records|
    ensures DistinctKeys(records[n..])
  {
    if n > 0 {
      DropDistinct(records[1..], n - 1);
      assert records[1..][n - 1..] == records[n..];
    } else {
      assert records[n..] == records;
    }
  }

  /** At any size the result has at most 500 records, with distinct keys, and merging the
      same batch again changes nothing exactly when none of its keys was dropped. */
  lemma ReMergeStableExactly(a: seq<Record>, b: seq<Record>)
    ensures DistinctKeys(Merged(a, b)) && |Merged(a, b)| <= MAX_RECORDS
    ensures Merged(Merged(a, b), b) == Merged(a, b)
            <==> forall i :: 0 <= i < |b| ==> HasKey(Merged(a, b), b[i].key)
  {
    UnionIs(a, b);
    NewestDistinct(Union(a, b));
    var kept := Merged(a, b);
    UnionIs(kept, b);
    NormalIsFixed(kept);
    if forall i :: 0 <= i < |b| ==> HasKey(kept, b[i].key) {
      Survivors(a, b);
    } else {
      var i :| 0 <= i < |b| && !HasKey(kept, b[i].key);
      PutAllHasKey(kept, b, b[i].key);
      Overflow(kept, b, b[i].key);
    }
  }

  /** Records whose keys survived are held with the very values that the merge left. */
  lemma Survivors(a: seq<Record>, b: seq<Record>)
    requires forall i :: 0 <= i < |b| ==> HasKey(Merged(a, b), b[i].key)
    ensures PutAll(Merged(a, b), b) == Merged(a, b)
  {
    var all, kept := Union(a, b), Merged(a, b);
    UnionIs(a, b);
    NewestDistinct(all);
    UnionIdempotent(a, b);
    UnionIs(all, b);
    NormalIsFixed(all);
    PutAllDistinct([], b);
    PutNormal(kept, b);
    PutNormal(all, b);
    var last := PutAll([], b);
    forall i | 0 <= i < |last| ensures last[i] in kept {
      LastIn(all, last, i);
      HasKeyAt(last, i);
      PutAllHasKey([], b, last[i].key);
      KeptHolds(all, kept, last[i]);
    }
    PutHeld(kept, last);
  }

  /** A list that leaves a map as it is holds nothing but what the map holds. */
  lemma LastIn(all: seq<Record>, last: seq<Record>, i: nat)
    requires DistinctKeys(all) && DistinctKeys(last) && PutAll(all, last) == all && i < |last|
    ensures last[i] in all
  {
    PutAllValue(all, last, i);
    GetIn(all, last[i].key);
  }

  lemma {:induction false} PutAllValue(m: seq<Record>, list: seq<Record>, i: nat)
    requires DistinctKeys(list) && i < |list|
    ensures Get(PutAll(m, list), list[i].key) == Some(list[i].value)
  {
    var front, last := list[..|list| - 1], list[|list| - 1];
    GetSet(PutAll(m, front), last.key, last.value, list[i].key);
    if i < |front| {
      FrontDistinct(list);
      assert front[i] == list[i];
      DistinctKeysDiffer(list, i, |list| - 1);
      PutAllValue(m, front, i);
    }
  }

  lemma {:induction false} GetIn(m: seq<Record>, key: string)
    requires Get(m, key).Some?
    ensures Entry(key, Get(m, key).value) in m
  {
    if m[0].key != key { GetIn(m[1..], key); } else { assert m[0] == Entry(key, m[0].value); }
  }

  lemma KeptHolds(all: seq<Record>, kept: seq<Record>, e: Record)
    requires DistinctKeys(all) && kept == Newest(all) && e in all && HasKey(kept, e.key)
    ensures e in kept
  {
    var i :| 0 <= i < |all| && all[i] == e;
    var cut := if |all| <= MAX_RECORDS then 0 else |all| - MAX_RECORDS;
    assert kept == all[cut..];
    if i < cut {
      var j := KeyAt(kept, e.key);
      DistinctKeysDiffer(all, i, cut + j);
    } else {
      assert kept[i - cut] == e;
    }
  }

  lemma {:induction false} KeyAt(m: seq<Record>, key: string) returns (j: nat)
    requires HasKey(m, key)
    ensures j < |m| && m[j].key == key
  {
    if m[0].key == key {
      j := 0;
    } else {
      j := KeyAt(m[1..], key);
      j := j + 1;
    }
  }

  /** A key that is new to a map of full size stays in the merge, which is then another. */
  lemma Overflow(kept: seq<Record>, b: seq<Record>, key: string)
    requires DistinctKeys(kept) && !HasKey(kept, key) && HasKey(PutAll(kept, b), key)
    ensures Newest(PutAll(kept, b)) != kept
  {
    var put := PutAll(kept, b);
    if Newest(put) == kept {
      PutKeepsPlaces(kept, b);
      PutAllDistinct(kept, b);
      if put != kept {
        assert |put| > MAX_RECORDS && |kept| == MAX_RECORDS;
        assert put[0].key == kept[0].key && kept[0] == put[|put| - MAX_RECORDS];
        DistinctKeysDiffer(put, 0, |put| - MAX_RECORDS);
      }
    }
  }

  lemma {:induction false} PutKeepsPlaces(m: seq<Record>, b: seq<Record>)
    ensures |m| <= |PutAll(m, b)| && forall i :: 0 <= i < |m| ==> PutAll(m, b)[i].key == m[i].key
  {
    if b != [] {
      var front, last := b[..|b| - 1], b[|b| - 1];
      PutKeepsPlaces(m, front);
      SetKeepsPlaces(PutAll(m, front), last.key, last.value);
    }
  }

  lemma {:induction false} SetKeepsPlaces(m: seq<Record>, key: string, value: string)
    ensures |m| <= |Set(m, key, value)| && forall i :: 0 <= i < |m| ==> Set(m, key, value)[i].key == m[i].key
  {
    if m != [] && m[0].key != key { SetKeepsPlaces(m[1..], key, value); }
  }

  /** Records with different keys. */
  function Filler(n: nat): seq<Record> {
    if n == 0 then [] else Filler(n - 1) + [Entry(Stars(n - 1), "")]
  }

  function Stars(n: nat): string {
    if n == 0 then "" else "*" + Stars(n - 1)
  }

  lemma {:induction false} StarsLong(n: nat)
    ensures |Stars(n)| == n
  {
    if n > 0 { StarsLong(n - 1); }
  }

  lemma {:induction false} FillerKeys(n: nat, key: string)
    requires |key| >= n
    ensures |Filler(n)| == n && !HasKey(Filler(n), key)
  {
    if n > 0 {
      FillerKeys(n - 1, key);
      StarsLong(n - 1);
      SetAppends(Filler(n - 1), Entry(key, ""));
      HasKeyOfJoin(Filler(n - 1), Entry(Stars(n - 1), ""), key);
    }
  }

  lemma {:induction false} HasKeyOfJoin(m: seq<Record>, e: Record, key: string)
    ensures HasKey(m + [e], key) <==> HasKey(m, key) || e.key == key
  {
    if m == [] {
      assert m + [e] == [e] && [e][1..] == [];
    } else {
      assert (m + [e])[1..] == m[1..] + [e];
      HasKeyOfJoin(m[1..], e, key);
    }
  }

  lemma {:induction false} FillerDistinct(n: nat)
    ensures |Filler(n)| == n && DistinctKeys(Filler(n))
  {
    if n > 0 {
      FillerDistinct(n - 1);
      StarsLong(n - 1);
      FillerKeys(n - 1, Stars(n - 1));
      SetAppends(Filler(n - 1), Entry(Stars(n - 1), ""));
      SetProperties(Filler(n - 1), Stars(n - 1), "");
    }
  }

  /** A full file whose oldest record is merged again together with a new one: the oldest is
      dropped although the batch holds it, so merging the batch again changes the file. */
  lemma FullFileIsUnstable(a: seq<Record>, newest: Record)
    requires |a| == MAX_RECORDS && DistinctKeys(a) && !HasKey(a, newest.key)
    ensures var b := [newest, a[0]]; Merged(Merged(a, b), b) != Merged(a, b)
  {
    var b := [newest, a[0]];
    UnionIs(a, b);
    NormalIsFixed(a);
    assert b[..1] == [newest] && [newest][..0] == [] && b[1] == a[0];
    SetAppends(a, newest);
    assert PutAll(a, [newest]) == a + [newest];
    SetHasKey(a, newest.key, newest.value, a[0].key);
    SetProperties(a, newest.key, newest.value);
    SetSame(a + [newest], 0);
    assert Union(a, b) == a + [newest];
    assert Merged(a, b) == a[1..] + [newest];
    HasKeyOfJoin(a[1..], newest, a[0].key);
    HasKeyAt(a, 0);
    ReMergeStableExactly(a, b);
    assert !HasKey(Merged(a, b), b[1].key);
  }

  lemma ReMergeCanChange()
    ensures exists a, b :: Merged(Merged(a, b), b) != Merged(a, b)
  {
    var a, newest := Filler(MAX_RECORDS), Entry(Stars(MAX_RECORDS), "");
    FillerDistinct(MAX_RECORDS);
    StarsLong(MAX_RECORDS);
    FillerKeys(MAX_RECORDS, newest.key);
    FullFileIsUnstable(a, newest);
  }

  // ---------- staging and flushing ----------

  /** The pending file of this checkout and the tracked file. */
  class EvidenceFiles {
    var pending: seq<Record>
    var tracked: seq<Record>

    constructor (tracked: seq<Record>)
      ensures this.pending == [] && this.tracked == tracked
    {
      this.pending, this.tracked := [], tracked;
    }

    method StagePendingRecord(r: Record)
      modifies this`pending
      ensures pending == Merged(old(pending), [r])
    {
      pending := MergeRecords(pending, [r]);
    }

    method FlushPendingRecords() returns (count: nat)
      modifies this`tracked
      ensures count == |pending|
      ensures tracked == Flushed(old(tracked), pending)
    {
      if |pending| == 0 { return 0; }
      tracked := MergeRecords(tracked, pending);
      count := |pending|;
    }

    /** Publishes what is pending. `published` tells whether committing and pushing succeed;
        if not, or if the process dies there, the pending file stays and is flushed again. */
    method PublishPendingEvidence(published: bool) returns (ok: bool)
      modifies this
      ensures tracked == Flushed(old(tracked), old(pending))
      ensures pending == if published then [] else old(pending)
      ensures ok == (published && old(pending) != [])
    {
      var count := FlushPendingRecords();
      if count == 0 { return false; }
      ok := published;
      if published { pending := []; }
    }
  }

  function Flushed(tracked: seq<Record>, pending: seq<Record>): seq<Record> {
    if pending == [] then tracked else Merged(tracked, pending)
  }

  /** Merging records one at a time: what staging does to the pending records, and what merging
      each record directly would do to the tracked ones. */
  function MergedEach(pending: seq<Record>, records: seq<Record>): seq<Record> {
    if records == [] then pending
    else Merged(MergedEach(pending, records[..|records| - 1]), [records[|records| - 1]])
  }

  lemma {:induction false} StagedIs(start: seq<Record>, records: seq<Record>)
    requires records != [] && |Union(start, records)| <= MAX_RECORDS
    ensures MergedEach(start, records) == Union(start, records)
  {
    var front, last := records[..|records| - 1], records[|records| - 1];
    assert records == front + [last];
    UnionGrows(start, front, [last]);
    if front == [] {
      assert records == [last];
    } else {
      StagedIs(start, front);
      UnionIs(start, front);
      NormalIsFixed(Union(start, front));
      UnionIs(Union(start, front), [last]);
      UnionIs(start, records);
      PutAllJoin(PutAll([], start), front, [last]);
    }
  }

  /** Staging records one by one and flushing once is merging each record directly. */
  lemma StageThenFlush(tracked: seq<Record>, records: seq<Record>)
    requires |Union(tracked, records)| <= MAX_RECORDS
    ensures Flushed(tracked, MergedEach([], records)) == MergedEach(tracked, records)
  {
    if records != [] {
      UnionGrows(tracked, records, []);
      UnionIs([], records);
      StagedIs([], records);
      StagedIs(tracked, records);
      UnionIs(tracked, records);
      var staged := PutAll([], records);
      PutAllHasKey([], records, records[0].key);
      assert staged != [];
      UnionIs(tracked, staged);
      PutNormal(PutAll([], tracked), records);
    }
  }

  function FlushedTimes(tracked: seq<Record>, pending: seq<Record>, times: nat): seq<Record> {
    if times == 0 then tracked else Flushed(FlushedTimes(tracked, pending, times - 1), pending)
  }

  /** A crash between the flush and removing the pending file, however often it repeats,
      leaves the tracked records that one flush leaves. */
  lemma {:induction false} ReflushIsHarmless(tracked: seq<Record>, pending: seq<Record>, times: nat)
    requires |Union(tracked, pending)| <= MAX_RECORDS && times >= 1
    ensures FlushedTimes(tracked, pending, times) == Flushed(tracked, pending)
  {
    if times > 1 {
      ReflushIsHarmless(tracked, pending, times - 1);
      FlushTwice(tracked, pending);
    }
  }

  lemma FlushTwice(tracked: seq<Record>, pending: seq<Record>)
    requires |Union(tracked, pending)| <= MAX_RECORDS
    ensures Flushed(Flushed(tracked, pending), pending) == Flushed(tracked, pending)
  {
    assert pending + [] == pending;
    MergeLaws(tracked, pending, []);
  }
}
