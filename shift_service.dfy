/**
 * Shift statistics and the ship list of the service: records are bucketed
 * into four six-hour shifts by the hour of their time stamp, each shift
 * with a positive working span yields one entry, the entries are ordered
 * by begin time then shift name, and the ship names of both record tables
 * are merged without duplicates and sorted.
 */
module ShiftService {
  import opened Wrappers
  import opened ShiftTools

  /** The shift of a local hour: [0,6) is 1, [6,12) is 2, [12,18) is 3, everything else 4. */
  function ShiftOfHour(hour: int): (s: int)
    ensures 1 <= s <= 4
  {
    if 0 <= hour < 6 then 1
    else if 6 <= hour < 12 then 2
    else if 12 <= hour < 18 then 3
    else 4
  }

  /** A shift's label names the hours it was bucketed from. */
  lemma ShiftLabelMatchesHours(hour: int)
    requires 0 <= hour < 24
    ensures ShiftName(ShiftOfHour(hour)) == "0-6" <==> 0 <= hour < 6
    ensures ShiftName(ShiftOfHour(hour)) == "6-12" <==> 6 <= hour < 12
    ensures ShiftName(ShiftOfHour(hour)) == "12-18" <==> 12 <= hour < 18
    ensures ShiftName(ShiftOfHour(hour)) == "18-24" <==> 18 <= hour < 24
  {
    var labels := ["0-6", "6-12", "12-18", "18-24"];
    assert labels[0] != labels[1] && labels[0] != labels[2] && labels[0] != labels[3];
    assert labels[1] != labels[2] && labels[1] != labels[3] && labels[2] != labels[3];
  }

  /** The records of shift s, in their original order. */
  function InShift<T(!new)>(records: seq<T>, hourOf: T -> int, s: int): (r: seq<T>)
    ensures |r| <= |records|
    ensures forall x :: x in r <==> x in records && ShiftOfHour(hourOf(x)) == s
  {
    if records == [] then []
    else
      var init := records[..|records| - 1];
      var last := records[|records| - 1];
      assert records == init + [last];
      var rest := InShift(init, hourOf, s);
      if ShiftOfHour(hourOf(last)) == s then rest + [last] else rest
  }

  /** Every record lands in exactly one of the four shifts. */
  lemma {:induction false} ShiftsPartition<T(!new)>(records: seq<T>, hourOf: T -> int)
    ensures |InShift(records, hourOf, 1)| + |InShift(records, hourOf, 2)|
          + |InShift(records, hourOf, 3)| + |InShift(records, hourOf, 4)| == |records|
  {
    if records != [] {
      ShiftsPartition(records[..|records| - 1], hourOf);
    }
  }

  /** The grouping loop of GetShiftStats and its siblings: a shift has a group exactly when a record fell into it. */
  method GroupByShift<T(!new)>(records: seq<T>, hourOf: T -> int) returns (groups: map<int, seq<T>>)
    ensures forall s :: s in groups <==> 1 <= s <= 4 && InShift(records, hourOf, s) != []
    ensures forall s :: s in groups ==> groups[s] == InShift(records, hourOf, s)
  {
    groups := map[];
    var i := 0;
    while i < |records|
      invariant 0 <= i <= |records|
      invariant forall s :: s in groups <==> 1 <= s <= 4 && InShift(records[..i], hourOf, s) != []
      invariant forall s :: s in groups ==> groups[s] == InShift(records[..i], hourOf, s)
    {
      var record := records[i];
      var shift := ShiftOfHour(hourOf(record));
      assert records[..i + 1][..i] == records[..i];
      var group := if shift in groups then groups[shift] else [];
      groups := groups[shift := group + [record]];
      i := i + 1;
    }
    assert records[..i] == records;
  }

  /** One entry of the shift statistics: the shift's label and the span of its records. */
  datatype ShiftStat = ShiftStat(shiftName: string, beginTime: int, endTime: int)

  function Earliest(times: seq<int>): (m: int)
    requires times != []
    ensures m in times && forall t :: t in times ==> m <= t
  {
    if |times| == 1 then times[0]
    else
      assert times == [times[0]] + times[1..];
      var m := Earliest(times[1..]); if times[0] < m then times[0] else m
  }

  function Latest(times: seq<int>): (m: int)
    requires times != []
    ensures m in times && forall t :: t in times ==> t <= m
  {
    if |times| == 1 then times[0]
    else
      assert times == [times[0]] + times[1..];
      var m := Latest(times[1..]); if times[0] > m then times[0] else m
  }

  function TimesOf<T(!new)>(records: seq<T>, timeOf: T -> int): (r: seq<int>)
    ensures |r| == |records| && forall k :: 0 <= k < |records| ==> r[k] == timeOf(records[k])
  {
    seq(|records|, k requires 0 <= k < |records| => timeOf(records[k]))
  }

  /** The entry shift s yields: none for a missing or empty group or a span of no positive length. */
  function StatFor<T(!new)>(groups: map<int, seq<T>>, timeOf: T -> int, s: int): Option<ShiftStat>
  {
    if s in groups && groups[s] != [] then
      var times := TimesOf(groups[s], timeOf);
      if Latest(times) > Earliest(times) then Some(ShiftStat(ShiftName(s), Earliest(times), Latest(times)))
      else None
    else None
  }

  function Listed(entry: Option<ShiftStat>): seq<ShiftStat>
  {
    match entry
    case None => []
    case Some(x) => [x]
  }

  /** The entries of shifts lo..4, in shift order. */
  function StatsFrom<T(!new)>(groups: map<int, seq<T>>, timeOf: T -> int, lo: int): seq<ShiftStat>
    decreases 5 - lo
  {
    if lo > 4 then []
    else Listed(StatFor(groups, timeOf, lo)) + StatsFrom(groups, timeOf, lo + 1)
  }

  /** An entry is listed exactly when some shift from lo on yields it; each spans a positive time. */
  lemma {:induction false} StatsFromEntries<T(!new)>(groups: map<int, seq<T>>, timeOf: T -> int, lo: int)
    ensures forall x :: x in StatsFrom(groups, timeOf, lo) <==>
      exists s :: lo <= s <= 4 && StatFor(groups, timeOf, s) == Some(x)
    ensures forall x :: x in StatsFrom(groups, timeOf, lo) ==> x.beginTime < x.endTime
    decreases 5 - lo
  {
    if lo <= 4 {
      StatsFromEntries(groups, timeOf, lo + 1);
      forall x | exists s :: lo <= s <= 4 && StatFor(groups, timeOf, s) == Some(x)
        ensures x in StatsFrom(groups, timeOf, lo)
      {
        var s :| lo <= s <= 4 && StatFor(groups, timeOf, s) == Some(x);
        if s > lo {
          assert x in StatsFrom(groups, timeOf, lo + 1);
        }
      }
    }
  }

  /** At most one entry per shift label: the labels of the listed entries are pairwise different. */
  lemma {:induction false} StatsFromNamesDistinct<T(!new)>(groups: map<int, seq<T>>, timeOf: T -> int, lo: int)
    requires 1 <= lo
    ensures forall i, j :: 0 <= i < j < |StatsFrom(groups, timeOf, lo)| ==>
      StatsFrom(groups, timeOf, lo)[i].shiftName != StatsFrom(groups, timeOf, lo)[j].shiftName
    decreases 5 - lo
  {
    if lo <= 4 {
      StatsFromNamesDistinct(groups, timeOf, lo + 1);
      StatsFromEntries(groups, timeOf, lo + 1);
      var rest := StatsFrom(groups, timeOf, lo + 1);
      match StatFor(groups, timeOf, lo)
      case None =>
      case Some(x) =>
        forall j | 0 <= j < |rest|
          ensures rest[j].shiftName != x.shiftName
        {
          assert rest[j] in rest;
          var s :| lo + 1 <= s <= 4 && StatFor(groups, timeOf, s) == Some(rest[j]);
          ShiftNamesDistinct(lo, s);
        }
        var all := [x] + rest;
        assert forall j :: 0 < j < |all| ==> all[j] == rest[j - 1];
    }
  }

  lemma ConcatAssociative<T>(a: seq<T>, b: seq<T>, c: seq<T>)
    ensures (a + b) + c == a + (b + c)
  {
  }

  /** The shift loop: shifts 1..4 in order, skipping empty groups and spans of no positive length. */
  method ShiftStats<T(!new)>(groups: map<int, seq<T>>, timeOf: T -> int) returns (stats: seq<ShiftStat>)
    ensures stats == StatsFrom(groups, timeOf, 1)
  {
    stats := [];
    var shift := 1;
    assert stats + StatsFrom(groups, timeOf, shift) == StatsFrom(groups, timeOf, 1);
    while shift <= 4
      invariant 1 <= shift <= 5
      invariant stats + StatsFrom(groups, timeOf, shift) == StatsFrom(groups, timeOf, 1)
    {
      ghost var before := stats;
      if shift in groups && groups[shift] != [] {
        var times := TimesOf(groups[shift], timeOf);
        var maxTime, minTime := DurationBounds(0, 0, times);
        assert minTime == Earliest(times) && maxTime == Latest(times);
        if maxTime - minTime > 0 {
          stats := stats + [ShiftStat(ShiftName(shift), minTime, maxTime)];
        }
      }
      ghost var entry := Listed(StatFor(groups, timeOf, shift));
      ghost var tail := StatsFrom(groups, timeOf, shift + 1);
      assert stats == before + entry;
      assert StatsFrom(groups, timeOf, shift) == entry + tail;
      ConcatAssociative(before, entry, tail);
      shift := shift + 1;
    }
  }

  /** Go's string order: lexicographic by code point (the order of the UTF-8 bytes). */
  predicate StringLess(a: string, b: string)
  {
    if a == [] then b != []
    else if b == [] then false
    else if a[0] != b[0] then a[0] < b[0]
    else StringLess(a[1..], b[1..])
  }

  lemma {:induction false} StringLessAsymmetric(a: string, b: string)
    ensures StringLess(a, b) ==> !StringLess(b, a)
  {
    if a != [] && b != [] && a[0] == b[0] {
      StringLessAsymmetric(a[1..], b[1..]);
    }
  }

  lemma {:induction false} StringLessTransitive(a: string, b: string, c: string)
    ensures StringLess(a, b) && StringLess(b, c) ==> StringLess(a, c)
  {
    if a != [] && b != [] && c != [] && a[0] == b[0] && b[0] == c[0] {
      StringLessTransitive(a[1..], b[1..], c[1..]);
    }
  }

  lemma {:induction false} StringLessTotal(a: string, b: string)
    ensures a != b ==> StringLess(a, b) || StringLess(b, a)
  {
    if a != [] && b != [] && a[0] == b[0] {
      StringLessTotal(a[1..], b[1..]);
      assert a == [a[0]] + a[1..] && b == [b[0]] + b[1..];
    }
  }

  /** The comparator of the shift statistics: earlier begin first, equal begins by label. */
  predicate StatsLess(a: ShiftStat, b: ShiftStat)
  {
    if a.beginTime == b.beginTime then StringLess(a.shiftName, b.shiftName) else a.beginTime < b.beginTime
  }

  /** less is a strict partial order: asymmetric and transitive. */
  ghost predicate StrictOrder<T(!new)>(less: (T, T) -> bool)
  {
    && (forall a, b :: less(a, b) ==> !less(b, a))
    && (forall a, b, c :: less(a, b) && less(b, c) ==> less(a, c))
  }

  /** Nothing later in s is less than anything earlier. */
  ghost predicate SortedBy<T(!new)>(s: seq<T>, less: (T, T) -> bool)
  {
    forall i, j :: 0 <= i < j < |s| ==> !less(s[j], s[i])
  }

  lemma StringOrder()
    ensures StrictOrder(StringLess)
  {
    forall a, b ensures StringLess(a, b) ==> !StringLess(b, a) {
      StringLessAsymmetric(a, b);
    }
    forall a, b, c ensures StringLess(a, b) && StringLess(b, c) ==> StringLess(a, c) {
      StringLessTransitive(a, b, c);
    }
  }

  /** The statistics comparator is a strict order, total on entries with different begin time or label. */
  lemma StatsOrder()
    ensures StrictOrder(StatsLess)
    ensures forall a: ShiftStat, b: ShiftStat :: (a.beginTime, a.shiftName) != (b.beginTime, b.shiftName) ==> StatsLess(a, b) || StatsLess(b, a)
  {
    forall a, b ensures StatsLess(a, b) ==> !StatsLess(b, a) {
      StringLessAsymmetric(a.shiftName, b.shiftName);
    }
    forall a, b, c ensures StatsLess(a, b) && StatsLess(b, c) ==> StatsLess(a, c) {
      StringLessTransitive(a.shiftName, b.shiftName, c.shiftName);
    }
    forall a: ShiftStat, b: ShiftStat ensures (a.beginTime, a.shiftName) != (b.beginTime, b.shiftName) ==> StatsLess(a, b) || StatsLess(b, a) {
      StringLessTotal(a.shiftName, b.shiftName);
    }
  }

  /** x placed before the first element it is less than. */
  function Insert<T(!new)>(s: seq<T>, x: T, less: (T, T) -> bool): (r: seq<T>)
    requires StrictOrder(less) && SortedBy(s, less)
    ensures multiset(r) == multiset(s) + multiset{x}
    ensures SortedBy(r, less)
  {
    if s == [] then [x]
    else if less(x, s[0]) then [x] + s
    else
      var rest := Insert(s[1..], x, less);
      assert s == [s[0]] + s[1..];
      assert forall y :: y in multiset(rest) ==> y == x || y in s[1..];
      assert forall k :: 0 <= k < |rest| ==> !less(rest[k], s[0]) by {
        forall k | 0 <= k < |rest|
          ensures !less(rest[k], s[0])
        {
          assert rest[k] in multiset(rest);
          if rest[k] != x {
            var m :| 0 <= m < |s[1..]| && s[1..][m] == rest[k];
            assert s[m + 1] == rest[k];
          }
        }
      }
      var r := [s[0]] + rest;
      assert forall k :: 0 < k < |r| ==> r[k] == rest[k - 1];
      r
  }

  /** The ordering sort.Slice and sort.Strings establish, by insertion. */
  function SortBy<T(!new)>(s: seq<T>, less: (T, T) -> bool): (r: seq<T>)
    requires StrictOrder(less)
    ensures multiset(r) == multiset(s)
    ensures SortedBy(r, less)
  {
    if s == [] then []
    else
      var init := s[..|s| - 1];
      assert s == init + [s[|s| - 1]];
      Insert(SortBy(init, less), s[|s| - 1], less)
  }

  /**
   * GetShiftStats over the records' time stamps: group by shift, emit one
   * entry per shift with a positive span, then order the entries.
   */
  method ShiftReport<T(!new)>(records: seq<T>, hourOf: T -> int, timeOf: T -> int) returns (stats: seq<ShiftStat>)
    ensures multiset(stats) == multiset(StatsFrom(GroupOf(records, hourOf), timeOf, 1))
    ensures forall i, j :: 0 <= i < j < |stats| ==> StatsLess(stats[i], stats[j])
  {
    var groups := GroupByShift(records, hourOf);
    assert groups == GroupOf(records, hourOf);
    stats := ShiftStats(groups, timeOf);
    StatsOrder();
    ghost var unsorted := stats;
    stats := SortBy(stats, StatsLess);
    StatsFromNamesDistinct(groups, timeOf, 1);
    forall i, j | 0 <= i < j < |stats|
      ensures StatsLess(stats[i], stats[j])
    {
      KeysDistinctInPermutation(unsorted, stats, (x: ShiftStat) => x.shiftName, i, j);
    }
  }

  /** Elements with pairwise different keys occur at most once each. */
  lemma {:induction false} DistinctKeysOnce<T, K>(s: seq<T>, key: T -> K, v: T)
    requires forall i, j :: 0 <= i < j < |s| ==> key(s[i]) != key(s[j])
    ensures multiset(s)[v] <= 1
  {
    if s != [] {
      var init := s[..|s| - 1];
      assert s == init + [s[|s| - 1]];
      DistinctKeysOnce(init, key, v);
      if s[|s| - 1] == v {
        assert forall k :: 0 <= k < |init| ==> init[k] != v by {
          assert forall k :: 0 <= k < |init| ==> init[k] == s[k];
        }
      }
    }
  }

  lemma TwiceCounted<T>(s: seq<T>, i: int, j: int)
    requires 0 <= i < j < |s| && s[i] == s[j]
    ensures multiset(s)[s[i]] >= 2
  {
    assert s == s[..j] + s[j..];
    assert s[i] in s[..j];
    assert s[j] in s[j..];
  }

  /** A reordering of elements with pairwise different keys keeps the keys pairwise different. */
  lemma KeysDistinctInPermutation<T, K>(unsorted: seq<T>, sorted: seq<T>, key: T -> K, i: int, j: int)
    requires forall a, b :: 0 <= a < b < |unsorted| ==> key(unsorted[a]) != key(unsorted[b])
    requires multiset(sorted) == multiset(unsorted)
    requires 0 <= i < j < |sorted|
    ensures key(sorted[i]) != key(sorted[j])
  {
    if key(sorted[i]) == key(sorted[j]) {
      assert sorted[i] in multiset(unsorted) && sorted[j] in multiset(unsorted);
      var a :| 0 <= a < |unsorted| && unsorted[a] == sorted[i];
      var b :| 0 <= b < |unsorted| && unsorted[b] == sorted[j];
      assert a == b;
      TwiceCounted(sorted, i, j);
      DistinctKeysOnce(unsorted, key, sorted[i]);
      assert false;
    }
  }

  /** The groups GroupByShift builds, as a value. */
  function GroupOf<T(!new)>(records: seq<T>, hourOf: T -> int): (groups: map<int, seq<T>>)
    ensures forall s :: s in groups <==> 1 <= s <= 4 && InShift(records, hourOf, s) != []
  {
    map s | s in {1, 2, 3, 4} && InShift(records, hourOf, s) != [] :: InShift(records, hourOf, s)
  }

  /** The names of s kept at their first appearance, in order. */
  function FirstAppearances(s: seq<string>): (r: seq<string>)
    ensures forall x :: x in r <==> x in s
    ensures forall i, j :: 0 <= i < j < |r| ==> r[i] != r[j]
  {
    if s == [] then []
    else
      var init := s[..|s| - 1];
      var last := s[|s| - 1];
      assert s == init + [last];
      var rest := FirstAppearances(init);
      if last in init then rest else rest + [last]
  }

  lemma FirstAppearancesSnoc(s: seq<string>, x: string)
    ensures FirstAppearances(s + [x]) == if x in s then FirstAppearances(s) else FirstAppearances(s) + [x]
  {
    assert (s + [x])[..|s|] == s;
  }

  /** Sorting distinct names by StringLess orders them strictly. */
  lemma SortedStrictly(unsorted: seq<string>, sorted: seq<string>)
    requires forall i, j :: 0 <= i < j < |unsorted| ==> unsorted[i] != unsorted[j]
    requires multiset(sorted) == multiset(unsorted) && SortedBy(sorted, StringLess)
    ensures forall x :: x in sorted <==> x in unsorted
    ensures forall i, j :: 0 <= i < j < |sorted| ==> StringLess(sorted[i], sorted[j])
  {
    forall x ensures x in sorted <==> x in unsorted {
      assert x in sorted <==> x in multiset(sorted);
    }
    forall i, j | 0 <= i < j < |sorted|
      ensures StringLess(sorted[i], sorted[j])
    {
      KeysDistinctInPermutation(unsorted, sorted, (x: string) => x, i, j);
      StringLessTotal(sorted[i], sorted[j]);
    }
  }

  /**
   * GetShipList: the names of both record tables, each kept once at its
   * first appearance (the shipMap guard), then sorted.
   */
  method ShipList(ships1: seq<string>, ships2: seq<string>) returns (allShips: seq<string>)
    ensures forall x :: x in allShips <==> x in ships1 || x in ships2
    ensures forall i, j :: 0 <= i < j < |allShips| ==> StringLess(allShips[i], allShips[j])
  {
    var all := ships1 + ships2;
    var shipMap: set<string> := {};
    allShips := [];
    var i := 0;
    while i < |ships1|
      invariant 0 <= i <= |ships1|
      invariant allShips == FirstAppearances(all[..i])
      invariant forall x :: x in shipMap <==> x in allShips
    {
      var ship := ships1[i];
      assert all[..i + 1] == all[..i] + [ship];
      FirstAppearancesSnoc(all[..i], ship);
      if ship !in shipMap {
        shipMap := shipMap + {ship};
        allShips := allShips + [ship];
      }
      i := i + 1;
    }
    var k := 0;
    while k < |ships2|
      invariant 0 <= k <= |ships2|
      invariant allShips == FirstAppearances(all[..|ships1| + k])
      invariant forall x :: x in shipMap <==> x in allShips
    {
      var ship := ships2[k];
      assert all[..|ships1| + k + 1] == all[..|ships1| + k] + [ship];
      FirstAppearancesSnoc(all[..|ships1| + k], ship);
      if ship !in shipMap {
        shipMap := shipMap + {ship};
        allShips := allShips + [ship];
      }
      k := k + 1;
    }
    assert all[..|ships1| + k] == all;
    ghost var unsorted := allShips;
    StringOrder();
    allShips := SortBy(allShips, StringLess);
    SortedStrictly(unsorted, allShips);
  }
}
