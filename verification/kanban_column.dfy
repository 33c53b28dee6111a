/** A board column (src/components/KanbanColumn.jsx): the order in which it
    shows its tasks, and the guard on dropping a task into it. */
module KanbanColumn {
  import opened Wrappers
  import opened Domain
  import opened Text
  import opened Seqs

  /** `priorityOrder[task.priority?.toLowerCase()] || 0` with
      `priorityOrder = { high: 3, medium: 2, low: 1 }`: the priority name is
      compared without regard to letter case, and a missing or unknown priority
      ranks 0. */
  function Rank(t: Task): (r: nat)
    ensures r <= 3
    ensures t.priority.Some? && SameIgnoringCase(t.priority.value, "HIGH") ==> r == 3
    ensures t.priority.Some? && SameIgnoringCase(t.priority.value, "MEDIUM") ==> r == 2
    ensures t.priority.Some? && SameIgnoringCase(t.priority.value, "LOW") ==> r == 1
    ensures r > 0 ==> (
      && t.priority.Some?
      && (|| SameIgnoringCase(t.priority.value, "HIGH")
          || SameIgnoringCase(t.priority.value, "MEDIUM")
          || SameIgnoringCase(t.priority.value, "LOW")))
  {
    PriorityNamesLowered();
    match t.priority
    case None => 0
    case Some(p) =>
      var key := Lower(p);
      if key == "high" then 3 else if key == "medium" then 2 else if key == "low" then 1 else 0
  }

  /** The keys of `priorityOrder` are the lower-cased priority names. */
  lemma PriorityNamesLowered()
    ensures Lower("HIGH") == "high" && Lower("MEDIUM") == "medium" && Lower("LOW") == "low"
  {
  }

  /** Two priorities spelled alike up to letter case rank alike. */
  lemma RankIgnoresCase(t: Task, u: Task)
    requires t.priority.Some? <==> u.priority.Some?
    requires t.priority.Some? ==> SameIgnoringCase(t.priority.value, u.priority.value)
    ensures Rank(t) == Rank(u)
  {
  }

  /** The comparator `(a, b) => rank(b) - rank(a)` puts higher ranks first. */
  predicate NonIncreasing(ts: seq<Task>) {
    forall i, j :: 0 <= i < j < |ts| ==> Rank(ts[i]) >= Rank(ts[j])
  }

  /** The test for one rank. */
  function RankIs(k: int): Task -> bool {
    (t: Task) => Rank(t) == k
  }

  /** The tasks of one rank, in their order. */
  function WithRank(ts: seq<Task>, k: int): seq<Task> {
    Filter(RankIs(k), ts)
  }

  /** A task that outranks nothing after it can head an ordered sequence. */
  lemma ConsOrdered(h: Task, rest: seq<Task>)
    requires NonIncreasing(rest)
    requires forall x :: x in rest ==> Rank(x) <= Rank(h)
    ensures NonIncreasing([h] + rest)
  {
    var r := [h] + rest;
    forall i, j | 0 <= i < j < |r| ensures Rank(r[i]) >= Rank(r[j]) {
      assert r[j] == rest[j - 1];
      if i > 0 {
        assert r[i] == rest[i - 1];
      }
    }
  }

  /** Every task of an ordered sequence is outranked by its head. */
  lemma HeadOutranks(ts: seq<Task>)
    requires NonIncreasing(ts) && ts != []
    ensures forall x :: x in ts[1..] ==> Rank(x) <= Rank(ts[0])
  {
    forall x | x in ts[1..] ensures Rank(x) <= Rank(ts[0]) {
      var m :| 0 <= m < |ts[1..]| && ts[1..][m] == x;
      assert ts[m + 1] == x;
    }
  }

  /** A task that is not outranked by the head of an ordered sequence can go
      in front of it. */
  lemma InsertFront(t: Task, ts: seq<Task>)
    requires NonIncreasing(ts)
    requires ts == [] || Rank(ts[0]) <= Rank(t)
    ensures NonIncreasing([t] + ts)
  {
    if ts != [] {
      HeadOutranks(ts);
      assert ts == [ts[0]] + ts[1..];
    }
    ConsOrdered(t, ts);
  }

  /** Keeping the head of an ordered sequence and inserting behind it keeps the
      order when the inserted task is outranked by the head. */
  lemma InsertBehind(t: Task, ts: seq<Task>, rest: seq<Task>)
    requires NonIncreasing(ts) && ts != [] && Rank(ts[0]) > Rank(t)
    requires NonIncreasing(rest)
    requires multiset(rest) == multiset(ts[1..]) + multiset{t}
    ensures NonIncreasing([ts[0]] + rest)
    ensures multiset([ts[0]] + rest) == multiset(ts) + multiset{t}
  {
    assert ts == [ts[0]] + ts[1..];
    HeadOutranks(ts);
    forall x | x in rest ensures Rank(x) <= Rank(ts[0]) {
      assert x in multiset(rest);
    }
    ConsOrdered(ts[0], rest);
  }

  /** Places `t` before the first task that does not outrank it. */
  function Insert(t: Task, ts: seq<Task>): (r: seq<Task>)
    requires NonIncreasing(ts)
    ensures NonIncreasing(r)
    ensures multiset(r) == multiset(ts) + multiset{t}
  {
    if ts == [] || Rank(ts[0]) <= Rank(t) then
      InsertFront(t, ts);
      [t] + ts
    else
      var rest := Insert(t, ts[1..]);
      InsertBehind(t, ts, rest);
      [ts[0]] + rest
  }

  /** `[...tasks].sort(byPriority)`: a copy of the column's tasks in priority
      order. The sort of ECMAScript 2019 (section 22.1.3.27 of ECMA-262, 10th
      edition) is stable, so the result is the one stable sort by rank. */
  function SortByPriority(ts: seq<Task>): (r: seq<Task>)
    ensures NonIncreasing(r)
    ensures multiset(r) == multiset(ts)
  {
    if ts == [] then []
    else
      assert ts == [ts[0]] + ts[1..];
      Insert(ts[0], SortByPriority(ts[1..]))
  }

  lemma {:induction false} InsertKeepsRankOrder(t: Task, ts: seq<Task>, k: int)
    requires NonIncreasing(ts)
    ensures WithRank(Insert(t, ts), k) == WithRank([t] + ts, k)
    decreases |ts|
  {
    if ts != [] && Rank(ts[0]) > Rank(t) {
      var h, rest := ts[0], ts[1..];
      assert ts == [h] + rest;
      InsertKeepsRankOrder(t, rest, k);
      FilterSwap(RankIs(k), h, t, Insert(t, rest), rest);
    }
  }

  /** Tasks of equal rank come out in the order they went in: the sort is
      stable. */
  lemma {:induction false} SortIsStable(ts: seq<Task>, k: int)
    ensures WithRank(SortByPriority(ts), k) == WithRank(ts, k)
    decreases |ts|
  {
    if ts != [] {
      var p := RankIs(k);
      SortIsStable(ts[1..], k);
      InsertKeepsRankOrder(ts[0], SortByPriority(ts[1..]), k);
      FilterCons(p, ts[0], SortByPriority(ts[1..]));
      FilterCons(p, ts[0], ts[1..]);
      assert ts == [ts[0]] + ts[1..];
    }
  }

  /** The reference order: the high tasks, then the medium, then the low, then
      the rest, each group in input order. */
  function Buckets(ts: seq<Task>): seq<Task> {
    WithRank(ts, 3) + WithRank(ts, 2) + WithRank(ts, 1) + WithRank(ts, 0)
  }

  lemma NoneOfRank(ts: seq<Task>, k: int)
    requires forall x :: x in ts ==> Rank(x) != k
    ensures WithRank(ts, k) == []
  {
    assert forall x :: x in ts ==> !RankIs(k)(x);
    FilterKeepsNone(RankIs(k), ts);
  }

  /** Prepending a task to a sequence adds it to its own rank's group only. */
  lemma WithRankCons(x: Task, rest: seq<Task>, j: int)
    ensures WithRank([x] + rest, j) == if Rank(x) == j then [x] + WithRank(rest, j) else WithRank(rest, j)
  {
    FilterCons(RankIs(j), x, rest);
  }

  /** Adding `x` to group `k` of four groups, all of whose earlier groups are
      empty, puts it at the front of their concatenation. */
  lemma JoinGroups<T>(x: T, a3: seq<T>, a2: seq<T>, a1: seq<T>, a0: seq<T>, k: int)
    requires 0 <= k <= 3
    requires k < 3 ==> a3 == []
    requires k < 2 ==> a2 == []
    requires k < 1 ==> a1 == []
    ensures (if k == 3 then [x] + a3 else a3) + (if k == 2 then [x] + a2 else a2)
          + (if k == 1 then [x] + a1 else a1) + (if k == 0 then [x] + a0 else a0)
         == [x] + (a3 + a2 + a1 + a0)
  {
    if k == 3 {
      assert ([x] + a3) + a2 + a1 + a0 == [x] + (a3 + a2 + a1 + a0);
    } else if k == 2 {
      assert [] + ([x] + a2) + a1 + a0 == [x] + ([] + a2 + a1 + a0);
    } else if k == 1 {
      assert [] + [] + ([x] + a1) + a0 == [x] + ([] + [] + a1 + a0);
    } else {
      assert [] + [] + [] + ([x] + a0) == [x] + ([] + [] + [] + a0);
    }
  }

  lemma BucketsCons(x: Task, rest: seq<Task>)
    requires forall y :: y in rest ==> Rank(y) <= Rank(x)
    ensures Buckets([x] + rest) == [x] + Buckets(rest)
  {
    var k := Rank(x);
    var xs := [x] + rest;
    WithRankCons(x, rest, 3);
    WithRankCons(x, rest, 2);
    WithRankCons(x, rest, 1);
    WithRankCons(x, rest, 0);
    if k < 3 { NoneOfRank(rest, 3); }
    if k < 2 { NoneOfRank(rest, 2); }
    if k < 1 { NoneOfRank(rest, 1); }
    JoinGroups(x, WithRank(rest, 3), WithRank(rest, 2), WithRank(rest, 1), WithRank(rest, 0), k);
  }

  /** A sequence already in priority order is its own bucket order. */
  lemma {:induction false} OrderedIsBuckets(r: seq<Task>)
    requires NonIncreasing(r)
    ensures r == Buckets(r)
    decreases |r|
  {
    if r != [] {
      var rest := r[1..];
      assert r == [r[0]] + rest;
      assert forall y :: y in rest ==> Rank(y) <= Rank(r[0]) by {
        forall y | y in rest ensures Rank(y) <= Rank(r[0]) {
          var i :| 0 <= i < |rest| && rest[i] == y;
          assert r[i + 1] == y;
        }
      }
      OrderedIsBuckets(rest);
      BucketsCons(r[0], rest);
    }
  }

  /** The column shows exactly the bucket order of its tasks. */
  lemma SortMatchesBuckets(ts: seq<Task>)
    ensures SortByPriority(ts) == Buckets(ts)
  {
    var r := SortByPriority(ts);
    OrderedIsBuckets(r);
    SortIsStable(ts, 3);
    SortIsStable(ts, 2);
    SortIsStable(ts, 1);
    SortIsStable(ts, 0);
  }

  /** The drag payload: `{ id: task.id, status: task.status }` */
  datatype DragItem = DragItem(id: int, status: Option<string>)

  function DragItemOf(t: Task): DragItem {
    DragItem(t.id, t.status)
  }

  /** The drop handler: `onTaskDrop(item.id, status)` unless the item already has
      the column's status, in which case nothing is requested. */
  function DropRequest(item: DragItem, columnStatus: string): (r: Option<(int, string)>)
    ensures r.Some? <==> item.status != Some(columnStatus)
    ensures r.Some? ==> r.value.0 == item.id && r.value.1 == columnStatus
  {
    if item.status != Some(columnStatus) then Some((item.id, columnStatus)) else None
  }
}
