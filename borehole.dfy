/**
 * The borehole-table transforms of the geological survey reader: the top
 * depth of every layer, the hole table, a one-character code per soil
 * name, and, hole by hole, the indices and depths of its interface points
 * and the codes of its soils.
 *
 * The stratum frame has the columns LocationID, DepthTop, DepthBase,
 * LegendCode and GeologyCode; the soil-code pass inserts soilID as the
 * sixth. Hole ids are integers. A soil code is kept as the code point of
 * its one-character string.
 */
module Borehole {
  import opened Wrappers
  import ImportRows

  function Init<T>(s: seq<T>): seq<T>
    requires s != []
  {
    s[..|s| - 1]
  }

  function Last<T>(s: seq<T>): T
    requires s != []
  {
    s[|s| - 1]
  }

  // ---------------------------------------------------------------------
  // append_DepthTop
  // ---------------------------------------------------------------------

  /** A row of the stratum table as read from the database: hole id (ZKID) and layer bottom (CDSD). */
  datatype StratumRow = StratumRow(hole: int, bottom: real)

  /**
   * append_DepthTop: one entry per row. The first row's top is 0; a later
   * row that continues the previous row's hole starts at that row's bottom,
   * and a row that starts another hole starts at 0.
   */
  method DepthTops(rows: seq<StratumRow>) returns (top: array<real>)
    ensures top.Length == |rows|
    ensures |rows| > 0 ==> top[0] == 0.0
    ensures forall i :: 0 < i < |rows| && rows[i].hole == rows[i - 1].hole ==> top[i] == rows[i - 1].bottom
    ensures forall i :: 0 < i < |rows| && rows[i].hole != rows[i - 1].hole ==> top[i] == 0.0
  {
    top := new real[|rows|](_ => 0.0);
    var i := 1;
    while i < |rows|
      invariant 1 <= i
      invariant top.Length == |rows|
      invariant forall m :: 0 <= m < |rows| && (m == 0 || i <= m) ==> top[m] == 0.0
      invariant forall m :: 0 < m < i && m < |rows| && rows[m].hole == rows[m - 1].hole ==> top[m] == rows[m - 1].bottom
      invariant forall m :: 0 < m < i && m < |rows| && rows[m].hole != rows[m - 1].hole ==> top[m] == 0.0
    {
      if rows[i].hole - rows[i - 1].hole == 0 {
        top[i] := rows[i - 1].bottom;
      } else {
        top[i] := 0.0;
      }
      i := i + 1;
    }
  }

  // ---------------------------------------------------------------------
  // HID
  // ---------------------------------------------------------------------

  /** The hole table: columns ID, X, Y and Z. */
  datatype HoleColumns<V> = HoleColumns(id: seq<V>, x: seq<V>, y: seq<V>, z: seq<V>)

  /** HID: the first four columns of every row, in row order. */
  method HoleTable<V>(rows: seq<seq<V>>) returns (holes: HoleColumns<V>)
    requires forall i :: 0 <= i < |rows| ==> |rows[i]| >= 4
    ensures |holes.id| == |holes.x| == |holes.y| == |holes.z| == |rows|
    ensures forall i :: 0 <= i < |rows| ==>
      holes.id[i] == rows[i][0] && holes.x[i] == rows[i][1] && holes.y[i] == rows[i][2] && holes.z[i] == rows[i][3]
  {
    var id, x, y, z := [], [], [], [];
    var i := 0;
    while i < |rows|
      invariant 0 <= i <= |rows|
      invariant |id| == |x| == |y| == |z| == i
      invariant forall m :: 0 <= m < i ==> id[m] == rows[m][0] && x[m] == rows[m][1] && y[m] == rows[m][2] && z[m] == rows[m][3]
    {
      id := id + [rows[i][0]];
      x := x + [rows[i][1]];
      y := y + [rows[i][2]];
      z := z + [rows[i][3]];
      i := i + 1;
    }
    holes := HoleColumns(id, x, y, z);
  }

  // ---------------------------------------------------------------------
  // SID
  // ---------------------------------------------------------------------

  /** The distinct soil names among the first n rows, in order of first appearance. */
  function SoilNames(names: seq<string>, n: nat): seq<string>
    requires n <= |names|
  {
    if n == 0 then []
    else
      var before := SoilNames(names, n - 1);
      if names[n - 1] in before then before else before + [names[n - 1]]
  }

  /** The position of the first occurrence of x in s. */
  function IndexOf(s: seq<string>, x: string): (i: nat)
    requires x in s
    ensures i < |s| && s[i] == x && x !in s[..i]
  {
    if x in s[..|s| - 1] then IndexOf(s[..|s| - 1], x) else |s| - 1
  }

  /** The soil list holds every name of the first n rows, and nothing else, once each. */
  lemma {:induction false} SoilNamesMembers(names: seq<string>, n: nat)
    requires n <= |names|
    ensures forall x :: x in SoilNames(names, n) <==> x in names[..n]
    ensures forall a, b :: 0 <= a < b < |SoilNames(names, n)| ==> SoilNames(names, n)[a] != SoilNames(names, n)[b]
  {
    if n > 0 {
      SoilNamesMembers(names, n - 1);
      assert names[..n] == names[..n - 1] + [names[n - 1]];
    }
  }

  /** The soil list is ordered by first appearance among the first n rows. */
  lemma {:induction false} SoilNamesOrder(names: seq<string>, n: nat)
    requires n <= |names|
    ensures forall a :: 0 <= a < |SoilNames(names, n)| ==> SoilNames(names, n)[a] in names[..n]
    ensures forall a, b :: 0 <= a < b < |SoilNames(names, n)| ==>
      IndexOf(names[..n], SoilNames(names, n)[a]) < IndexOf(names[..n], SoilNames(names, n)[b])
  {
    SoilNamesMembers(names, n);
    if n > 0 {
      SoilNamesOrder(names, n - 1);
      SoilNamesMembers(names, n - 1);
      var before := SoilNames(names, n - 1);
      assert names[..n][..n - 1] == names[..n - 1];
      forall a | 0 <= a < |before|
        ensures IndexOf(names[..n], before[a]) == IndexOf(names[..n - 1], before[a])
      {
      }
      if names[n - 1] !in before {
        assert IndexOf(names[..n], names[n - 1]) == n - 1;
      }
    }
  }

  /**
   * The code of the j-th distinct soil name: 'A'..'Z' for the first 26,
   * then 'a'..'z' for the next 26, continuing upwards after that.
   */
  function SoilCode(j: nat): (c: nat)
    ensures j < 26 ==> 'A' as nat + j == c
    ensures 26 <= j < 52 ==> 'a' as nat + (j - 26) == c
  {
    if j < 26 then 65 + j else 97 + (j - 26)
  }

  /** Distinct names get distinct codes. */
  lemma SoilCodeInjective(a: nat, b: nat)
    ensures SoilCode(a) == SoilCode(b) <==> a == b
  {
  }

  predicate IsAsciiLetter(c: nat)
  {
    'A' as nat <= c <= 'Z' as nat || 'a' as nat <= c <= 'z' as nat
  }

  /** The code, as written, of the j-th distinct soil name: chr(65 + j), and chr(97 + j) from the 27th on. */
  function SoilCodeAsWritten(j: nat): nat
  {
    if j < 26 then 65 + j else 97 + j
  }

  /** As written, the 27th soil gets '{' instead of 'a', and codes from there on are not letters. */
  lemma TwentySeventhSoilIsNotLetter()
    ensures SoilCodeAsWritten(26) == '{' as nat
    ensures !IsAsciiLetter(SoilCodeAsWritten(26)) && IsAsciiLetter(SoilCode(26))
  {
  }

  /** With the intended codes, every one of the first 52 soils gets a letter. */
  lemma FirstFiftyTwoAreLetters(j: nat)
    requires j < 52
    ensures IsAsciiLetter(SoilCode(j))
  {
  }

  /** Column 5: each row's code is that of its name's position in the soil list. */
  function SoilCodes(names: seq<string>): (codes: seq<nat>)
    ensures |codes| == |names|
  {
    SoilNamesMembers(names, |names|);
    assert names[..|names|] == names;
    seq(|names|, i requires 0 <= i < |names| => SoilCode(IndexOf(SoilNames(names, |names|), names[i])))
  }

  lemma SoilCodeAt(names: seq<string>, i: nat)
    requires i < |names|
    ensures names[i] in SoilNames(names, |names|)
    ensures SoilCodes(names)[i] == SoilCode(IndexOf(SoilNames(names, |names|), names[i]))
  {
    SoilNamesMembers(names, |names|);
    assert names[..|names|] == names;
  }

  /** Two rows get the same soil code exactly when they have the same soil name. */
  lemma SameCodeSameName(names: seq<string>, a: nat, b: nat)
    requires a < |names| && b < |names|
    ensures SoilCodes(names)[a] == SoilCodes(names)[b] <==> names[a] == names[b]
  {
    SoilNamesMembers(names, |names|);
    assert names[..|names|] == names;
    var soil := SoilNames(names, |names|);
    var ia, ib := IndexOf(soil, names[a]), IndexOf(soil, names[b]);
    SoilCodeInjective(ia, ib);
  }

  /** The stratum frame; each field is one column, and soil is absent until codes are inserted. */
  class LayerFrame {
    var location: seq<int>
    var top: seq<real>
    var bottom: seq<real>
    var legend: seq<string>
    var geology: seq<string>
    var soil: Option<seq<nat>>

    ghost predicate Valid()
      reads this
    {
      |top| == |location| && |bottom| == |location| && |legend| == |location| && |geology| == |location| &&
      (soil.Some? ==> |soil.value| == |location|)
    }

    constructor(location: seq<int>, top: seq<real>, bottom: seq<real>, legend: seq<string>, geology: seq<string>)
      requires |top| == |location| && |bottom| == |location| && |legend| == |location| && |geology| == |location|
      ensures Valid() && soil.None?
      ensures this.location == location && this.top == top && this.bottom == bottom
      ensures this.legend == legend && this.geology == geology
    {
      this.location := location;
      this.top := top;
      this.bottom := bottom;
      this.legend := legend;
      this.geology := geology;
      this.soil := None;
    }

    /**
     * SID: collect the distinct soil names, then give every row the code of
     * its name's position in that list, inserted as a new column.
     */
    method AssignSoilCodes()
      requires Valid() && soil.None?
      modifies this
      ensures Valid()
      ensures location == old(location) && top == old(top) && bottom == old(bottom)
      ensures legend == old(legend) && geology == old(geology)
      ensures soil == Some(SoilCodes(geology))
    {
      var g := geology;
      var names: seq<string> := [];
      var i := 0;
      while i < |g|
        invariant 0 <= i <= |g|
        invariant names == SoilNames(g, i)
        invariant unchanged(this)
      {
        if g[i] !in names {
          names := names + [g[i]];
        }
        i := i + 1;
      }
      SoilNamesMembers(g, |g|);
      assert g[..|g|] == g;
      var codes: seq<nat> := [];
      i := 0;
      while i < |g|
        invariant 0 <= i <= |g|
        invariant |codes| == i && forall m :: 0 <= m < i ==> codes[m] == SoilCodes(g)[m]
        invariant unchanged(this)
      {
        var j := IndexOf(names, g[i]);
        SoilCodeAt(g, i);
        codes := codes + [SoilCode(j)];
        i := i + 1;
      }
      assert codes == SoilCodes(g);
      soil := Some(codes);
    }
  }

  // ---------------------------------------------------------------------
  // Runs of one hole: the grouping shared by TopologicalNode and DID
  // ---------------------------------------------------------------------

  /** Consecutive kept rows of one hole: the hole id and the row positions. */
  datatype Run = Run(hole: int, rows: seq<nat>)

  /**
   * The rows among the first n whose hole is in keep, split into runs: a
   * new run starts whenever the hole differs from that of the last kept row.
   */
  function Runs(location: seq<int>, keep: seq<int>, n: nat): seq<Run>
    requires n <= |location|
  {
    if n == 0 then []
    else
      var runs := Runs(location, keep, n - 1);
      if location[n - 1] in keep then AddRow(runs, location[n - 1], n - 1) else runs
  }

  /** The runs after one more kept row of hole h at position i. */
  function AddRow(runs: seq<Run>, h: int, i: nat): seq<Run>
  {
    if runs != [] && Last(runs).hole == h then Init(runs) + [Run(h, Last(runs).rows + [i])]
    else runs + [Run(h, [i])]
  }

  /** The positions of the kept rows among the first n, in order. */
  function Kept(location: seq<int>, keep: seq<int>, n: nat): seq<nat>
    requires n <= |location|
  {
    if n == 0 then []
    else if location[n - 1] in keep then Kept(location, keep, n - 1) + [n - 1]
    else Kept(location, keep, n - 1)
  }

  /** The rows of all runs, run after run. */
  function Members(runs: seq<Run>): seq<nat>
  {
    if runs == [] then [] else Members(Init(runs)) + Last(runs).rows
  }

  /** Every run is nonempty and names only rows below n. */
  ghost predicate Bounded(runs: seq<Run>, n: nat)
  {
    forall k :: 0 <= k < |runs| ==>
      runs[k].rows != [] && forall t :: 0 <= t < |runs[k].rows| ==> runs[k].rows[t] < n
  }

  function Holes(runs: seq<Run>): (holes: seq<int>)
    ensures |holes| == |runs|
  {
    seq(|runs|, k requires 0 <= k < |runs| => runs[k].hole)
  }

  /** The values of a column at the given rows. */
  function Select<T>(rows: seq<nat>, column: seq<T>): (r: seq<T>)
    requires forall t :: 0 <= t < |rows| ==> rows[t] < |column|
    ensures |r| == |rows|
  {
    seq(|rows|, t requires 0 <= t < |rows| => column[rows[t]])
  }

  lemma SelectAppend<T>(a: seq<nat>, b: seq<nat>, column: seq<T>)
    requires forall t :: 0 <= t < |a| ==> a[t] < |column|
    requires forall t :: 0 <= t < |b| ==> b[t] < |column|
    ensures Select(a + b, column) == Select(a, column) + Select(b, column)
  {
  }

  lemma {:induction false} RunsBounded(location: seq<int>, keep: seq<int>, n: nat)
    requires n <= |location|
    ensures Bounded(Runs(location, keep, n), n)
  {
    if n > 0 {
      RunsBounded(location, keep, n - 1);
    }
  }

  /** The runs hold exactly the kept rows, in order. */
  lemma {:induction false} RunsMembers(location: seq<int>, keep: seq<int>, n: nat)
    requires n <= |location|
    ensures Members(Runs(location, keep, n)) == Kept(location, keep, n)
  {
    if n > 0 {
      RunsMembers(location, keep, n - 1);
      var runs := Runs(location, keep, n - 1);
      if location[n - 1] in keep {
        if runs != [] && Last(runs).hole == location[n - 1] {
          var next := Init(runs) + [Run(location[n - 1], Last(runs).rows + [n - 1])];
          assert Init(next) == Init(runs);
          assert Members(runs) == Members(Init(runs)) + Last(runs).rows;
        } else {
          assert Init(runs + [Run(location[n - 1], [n - 1])]) == runs;
        }
      }
    }
  }

  /** Every row of a run is a kept row below n of the run's hole. */
  ghost predicate RowsOfHole(runs: seq<Run>, location: seq<int>, keep: seq<int>, n: nat)
    requires n <= |location|
  {
    forall k, t :: 0 <= k < |runs| && 0 <= t < |runs[k].rows| ==>
      runs[k].rows[t] < n && location[runs[k].rows[t]] == runs[k].hole && runs[k].hole in keep
  }

  lemma {:induction false} RunsRowsOfHole(location: seq<int>, keep: seq<int>, n: nat)
    requires n <= |location|
    ensures RowsOfHole(Runs(location, keep, n), location, keep, n)
  {
    if n > 0 {
      RunsRowsOfHole(location, keep, n - 1);
      var runs, h := Runs(location, keep, n - 1), location[n - 1];
      if h in keep {
        if runs != [] && Last(runs).hole == h {
          var next := Init(runs) + [Run(h, Last(runs).rows + [n - 1])];
          assert Runs(location, keep, n) == next;
          forall k, t | 0 <= k < |next| && 0 <= t < |next[k].rows|
            ensures next[k].rows[t] < n && location[next[k].rows[t]] == next[k].hole && next[k].hole in keep
          {
            if k < |runs| - 1 {
              assert next[k] == runs[k];
            } else if t < |Last(runs).rows| {
              assert next[k].rows[t] == runs[k].rows[t];
            }
          }
        } else {
          var next := runs + [Run(h, [n - 1])];
          assert Runs(location, keep, n) == next;
          forall k, t | 0 <= k < |next| && 0 <= t < |next[k].rows|
            ensures next[k].rows[t] < n && location[next[k].rows[t]] == next[k].hole && next[k].hole in keep
          {
            if k < |runs| {
              assert next[k] == runs[k];
            }
          }
        }
      }
    }
  }

  /** A new run starts at every change of hole: neighbouring runs belong to different holes. */
  ghost predicate Alternating(runs: seq<Run>)
  {
    forall k :: 0 < k < |runs| ==> runs[k - 1].hole != runs[k].hole
  }

  lemma {:induction false} RunsAlternate(location: seq<int>, keep: seq<int>, n: nat)
    requires n <= |location|
    ensures Alternating(Runs(location, keep, n))
  {
    if n > 0 {
      RunsAlternate(location, keep, n - 1);
      var runs, h := Runs(location, keep, n - 1), location[n - 1];
      if h in keep {
        if runs != [] && Last(runs).hole == h {
          var next := Init(runs) + [Run(h, Last(runs).rows + [n - 1])];
          assert Runs(location, keep, n) == next;
          assert forall k :: 0 <= k < |runs| ==> next[k].hole == runs[k].hole;
        } else {
          var next := runs + [Run(h, [n - 1])];
          assert Runs(location, keep, n) == next;
          assert forall k :: 0 <= k < |runs| ==> next[k] == runs[k];
        }
      }
    }
  }

  // ---------------------------------------------------------------------
  // TopologicalNode
  // ---------------------------------------------------------------------

  /** The integers lo, lo + 1, ..., hi - 1. */
  function Range(lo: nat, hi: nat): (r: seq<nat>)
    requires lo <= hi
    ensures |r| == hi - lo
  {
    seq(hi - lo, t requires 0 <= t < hi - lo => lo + t)
  }

  /** How many interface indices the runs use: one per row plus one per run. */
  function Total(runs: seq<Run>): nat
  {
    if runs == [] then 0 else Total(Init(runs)) + |Last(runs).rows| + 1
  }

  /** The interface indices of each run: the next |rows| + 1 integers, run after run. */
  function Interfaces(runs: seq<Run>): seq<seq<nat>>
  {
    if runs == [] then []
    else Interfaces(Init(runs)) + [Range(Total(Init(runs)), Total(runs))]
  }

  /** The depths of each run: the top of each of its layers, then the bottom of its last layer. */
  function Profiles(runs: seq<Run>, top: seq<real>, bottom: seq<real>): seq<seq<real>>
    requires |bottom| == |top| && Bounded(runs, |top|)
  {
    if runs == [] then []
    else Profiles(Init(runs), top, bottom) + [Select(Last(runs).rows, top) + [bottom[Last(Last(runs).rows)]]]
  }

  /** Starting a run with row i appends its hole; adding row i to the open run keeps the holes. */
  lemma HolesStep(runs: seq<Run>, h: int, i: nat)
    ensures Holes(runs + [Run(h, [i])]) == Holes(runs) + [h]
    ensures runs != [] ==> Holes(Init(runs) + [Run(Last(runs).hole, Last(runs).rows + [i])]) == Holes(runs)
  {
  }

  /**
   * The state of the TopologicalNode loop while the last of runs is open:
   * the finished runs' indices and depths, the next index j, and the open
   * run's indices, tops and last row k.
   */
  ghost predicate OpenRun(runs: seq<Run>, top: seq<real>, bottom: seq<real>, interface: seq<seq<nat>>, j: nat,
                          id: seq<nat>, depth: seq<seq<real>>, dd: seq<real>, k: nat)
  {
    runs != [] && |bottom| == |top| && Bounded(runs, |top|) &&
    interface == Interfaces(Init(runs)) && j == Total(Init(runs)) + |Last(runs).rows| &&
    id == Range(Total(Init(runs)), j) && id != [] &&
    depth == Profiles(Init(runs), top, bottom) && dd == Select(Last(runs).rows, top) && k == Last(Last(runs).rows)
  }

  lemma StartFirstRun(h: int, i: nat, top: seq<real>, bottom: seq<real>)
    requires i < |top| == |bottom|
    ensures OpenRun([Run(h, [i])], top, bottom, [], 1, [0], [], [top[i]], i)
  {
    var runs := [Run(h, [i])];
    assert Init(runs) == [];
  }

  /** Closing the open run appends its last index and its bottom depth. */
  lemma CloseRun(runs: seq<Run>, top: seq<real>, bottom: seq<real>, interface: seq<seq<nat>>, j: nat,
                 id: seq<nat>, depth: seq<seq<real>>, dd: seq<real>, k: nat)
    requires OpenRun(runs, top, bottom, interface, j, id, depth, dd, k)
    ensures k < |bottom| && j + 1 == Total(runs)
    ensures Interfaces(runs) == interface + [id + [j]]
    ensures Profiles(runs, top, bottom) == depth + [dd + [bottom[k]]]
  {
    assert id + [j] == Range(Total(Init(runs)), Total(runs));
  }

  lemma StartNextRun(runs: seq<Run>, top: seq<real>, bottom: seq<real>, interface: seq<seq<nat>>, j: nat,
                     id: seq<nat>, depth: seq<seq<real>>, dd: seq<real>, k: nat, h: int, i: nat)
    requires OpenRun(runs, top, bottom, interface, j, id, depth, dd, k) && i < |top|
    ensures k < |bottom|
    ensures OpenRun(runs + [Run(h, [i])], top, bottom, interface + [id + [j]], j + 2, [j + 1],
                    depth + [dd + [bottom[k]]], [top[i]], i)
  {
    CloseRun(runs, top, bottom, interface, j, id, depth, dd, k);
    var next := runs + [Run(h, [i])];
    assert Init(next) == runs;
  }

  lemma ExtendRun(runs: seq<Run>, top: seq<real>, bottom: seq<real>, interface: seq<seq<nat>>, j: nat,
                  id: seq<nat>, depth: seq<seq<real>>, dd: seq<real>, k: nat, i: nat)
    requires OpenRun(runs, top, bottom, interface, j, id, depth, dd, k) && i < |top|
    ensures OpenRun(Init(runs) + [Run(Last(runs).hole, Last(runs).rows + [i])], top, bottom, interface, j + 1,
                    id + [j], depth, dd + [top[i]], i)
  {
    var next := Init(runs) + [Run(Last(runs).hole, Last(runs).rows + [i])];
    assert Init(next) == Init(runs);
    assert Select(Last(runs).rows + [i], top) == dd + [top[i]];
  }

  /** The state of the TopologicalNode loop: nothing yet, or an open run. */
  ghost predicate NodeLoop(runs: seq<Run>, tmp: Option<int>, top: seq<real>, bottom: seq<real>, interface: seq<seq<nat>>,
                           j: nat, id: seq<nat>, depth: seq<seq<real>>, dd: seq<real>, k: nat)
  {
    if runs == [] then tmp == None && interface == [] && depth == [] && j == 0 && id == []
    else tmp == Some(Last(runs).hole) && OpenRun(runs, top, bottom, interface, j, id, depth, dd, k)
  }

  /**
   * TopologicalNode's work on a kept row of hole h at position i: a hole
   * other than the last one closes the open run and opens a new one;
   * otherwise the row joins the open run. Here k is set on every kept row.
   */
  method NodeRow(top: seq<real>, bottom: seq<real>, h: int, i: nat, tmp: Option<int>, interface: seq<seq<nat>>, j: nat,
                 id: seq<nat>, depth: seq<seq<real>>, dd: seq<real>, k: nat, ghost runs: seq<Run>)
    returns (tmp': Option<int>, interface': seq<seq<nat>>, j': nat, id': seq<nat>, depth': seq<seq<real>>, dd': seq<real>, k': nat)
    requires i < |top| == |bottom|
    requires NodeLoop(runs, tmp, top, bottom, interface, j, id, depth, dd, k)
    ensures NodeLoop(AddRow(runs, h, i), tmp', top, bottom, interface', j', id', depth', dd', k')
  {
    tmp', interface', j', id', depth', dd' := tmp, interface, j, id, depth, dd;
    if Some(h) != tmp {
      if id != [] {
        StartNextRun(runs, top, bottom, interface, j, id, depth, dd, k, h, i);
        id' := id' + [j'];
        j' := j' + 1;
        interface' := interface' + [id'];
        dd' := dd' + [bottom[k]];
        depth' := depth' + [dd'];
      } else {
        StartFirstRun(h, i, top, bottom);
      }
      tmp' := Some(h);
      id' := [j'];
      j' := j' + 1;
      dd' := [top[i]];
    } else {
      ExtendRun(runs, top, bottom, interface, j, id, depth, dd, k, i);
      id' := id' + [j'];
      j' := j' + 1;
      dd' := dd' + [top[i]];
    }
    k' := i;
  }

  /** TopologicalNode: for each run of kept rows, the hole id, its interface indices and its interface depths. */
  method InterfaceNodes(df: LayerFrame, holeIds: seq<int>) returns (holes: seq<int>, interface: seq<seq<nat>>, depth: seq<seq<real>>)
    requires df.Valid()
    ensures var runs := Runs(df.location, holeIds, |df.location|);
      Bounded(runs, |df.top|) && holes == Holes(runs) && interface == Interfaces(runs) && depth == Profiles(runs, df.top, df.bottom)
  {
    var location, top, bottom := df.location, df.top, df.bottom;
    var tmp: Option<int> := None;
    holes, interface, depth := [], [], [];
    var id: seq<nat> := [];
    var dd: seq<real> := [];
    var j: nat := 0;
    var k: nat := 0;
    var i := 0;
    ghost var runs: seq<Run> := [];
    while i < |location|
      invariant 0 <= i <= |location|
      invariant runs == Runs(location, holeIds, i)
      invariant holes == Holes(runs)
      invariant NodeLoop(runs, tmp, top, bottom, interface, j, id, depth, dd, k)
    {
      if location[i] in holeIds {
        HolesStep(runs, location[i], i);
        if Some(location[i]) != tmp {
          holes := holes + [location[i]];
        }
        tmp, interface, j, id, depth, dd, k := NodeRow(top, bottom, location[i], i, tmp, interface, j, id, depth, dd, k, runs);
        runs := AddRow(runs, location[i], i);
      }
      i := i + 1;
    }
    if id != [] {
      CloseRun(runs, top, bottom, interface, j, id, depth, dd, k);
      id := id + [j];
      j := j + 1;
      dd := dd + [bottom[k]];
      interface := interface + [id];
      depth := depth + [dd];
    }
    RunsBounded(location, holeIds, |location|);
  }

  /** Run k gets |rows| + 1 interface indices. */
  lemma {:induction false} InterfaceSizes(runs: seq<Run>)
    ensures |Interfaces(runs)| == |runs|
    ensures forall k :: 0 <= k < |runs| ==> |Interfaces(runs)[k]| == |runs[k].rows| + 1
  {
    if runs != [] {
      InterfaceSizes(Init(runs));
    }
  }

  /** Interface indices are consecutive integers from 0 across all runs. */
  lemma {:induction false} InterfacesConsecutive(runs: seq<Run>)
    ensures ImportRows.Flatten(Interfaces(runs)) == Range(0, Total(runs))
  {
    if runs != [] {
      InterfacesConsecutive(Init(runs));
      var lo := Total(Init(runs));
      ImportRows.FlattenAppend(Interfaces(Init(runs)), Range(lo, Total(runs)));
      assert Range(0, lo) + Range(lo, Total(runs)) == Range(0, Total(runs));
    }
  }

  /** Each run's depths are the tops of its layers followed by the bottom of its own last layer. */
  lemma {:induction false} ProfilesOfRuns(runs: seq<Run>, top: seq<real>, bottom: seq<real>)
    requires |bottom| == |top| && Bounded(runs, |top|)
    ensures |Profiles(runs, top, bottom)| == |runs|
    ensures forall k :: 0 <= k < |runs| ==>
      Profiles(runs, top, bottom)[k] == Select(runs[k].rows, top) + [bottom[Last(runs[k].rows)]]
  {
    if runs != [] {
      ProfilesOfRuns(Init(runs), top, bottom);
    }
  }

  /**
   * The row whose bottom the code as written closes the last run with: k is
   * only updated on a run's second and later rows, so a one-row run takes
   * the bottom of an earlier run's last row, or of row 0.
   */
  function StaleRow(runs: seq<Run>): nat
  {
    if runs == [] then 0
    else if |Last(runs).rows| >= 2 then Last(Last(runs).rows)
    else StaleRow(Init(runs))
  }

  lemma {:induction false} StaleRowBound(runs: seq<Run>, n: nat)
    requires runs != [] && Bounded(runs, n)
    ensures StaleRow(runs) < n
  {
    var last := runs[|runs| - 1];
    assert last.rows[|last.rows| - 1] < n && last.rows[0] < n;
    if |last.rows| < 2 && Init(runs) != [] {
      StaleRowBound(Init(runs), n);
    }
  }

  /** The depths TopologicalNode computes as written. */
  function ProfilesAsWritten(runs: seq<Run>, top: seq<real>, bottom: seq<real>): seq<seq<real>>
    requires |bottom| == |top| && Bounded(runs, |top|)
  {
    if runs == [] then []
    else
      StaleRowBound(runs, |top|);
      ProfilesAsWritten(Init(runs), top, bottom) + [Select(Last(runs).rows, top) + [bottom[StaleRow(runs)]]]
  }

  /** Where every hole has at least two layers, the code as written computes the intended depths. */
  lemma {:induction false} AsWrittenAgreesOnThickHoles(runs: seq<Run>, top: seq<real>, bottom: seq<real>)
    requires |bottom| == |top| && Bounded(runs, |top|)
    requires forall k :: 0 <= k < |runs| ==> |runs[k].rows| >= 2
    ensures ProfilesAsWritten(runs, top, bottom) == Profiles(runs, top, bottom)
  {
    if runs != [] {
      AsWrittenAgreesOnThickHoles(Init(runs), top, bottom);
    }
  }

  /** Rows of holes 1, 1 and 2, all kept: hole 1 has two layers, hole 2 one. */
  lemma TwoHolesExample()
    ensures Runs([1, 1, 2], [1, 2], 3) == [Run(1, [0, 1]), Run(2, [2])]
  {
    var location, keep := [1, 1, 2], [1, 2];
    var one, two := [Run(1, [0])], [Run(1, [0, 1])];
    assert Runs(location, keep, 0) == [];
    assert Runs(location, keep, 1) == AddRow([], 1, 0) == one;
    assert Init(one) == [] && [0] + [1] == [0, 1];
    assert AddRow(one, 1, 1) == two;
    assert Runs(location, keep, 2) == two;
    assert AddRow(two, 2, 2) == two + [Run(2, [2])];
  }

  /**
   * In that example, as written, hole 2 ends at hole 1's bottom, 2.0,
   * instead of its own, 3.0.
   */
  lemma OneLayerHoleTakesStaleBottom()
    ensures ProfilesAsWritten([Run(1, [0, 1]), Run(2, [2])], [0.0, 1.0, 0.0], [1.0, 2.0, 3.0])[1] == [0.0, 2.0]
    ensures Profiles([Run(1, [0, 1]), Run(2, [2])], [0.0, 1.0, 0.0], [1.0, 2.0, 3.0])[1] == [0.0, 3.0]
  {
    var runs, top, bottom := [Run(1, [0, 1]), Run(2, [2])], [0.0, 1.0, 0.0], [1.0, 2.0, 3.0];
    assert Init(runs) == [Run(1, [0, 1])];
    assert StaleRow(runs) == 1;
    assert Select([2], top) == [0.0];
    ProfilesOfRuns(runs, top, bottom);
  }

  // ---------------------------------------------------------------------
  // DID
  // ---------------------------------------------------------------------

  /** The values of a column, run by run. */
  function Domains<T>(runs: seq<Run>, column: seq<T>): seq<seq<T>>
    requires Bounded(runs, |column|)
  {
    if runs == [] then [] else Domains(Init(runs), column) + [Select(Last(runs).rows, column)]
  }

  /** The state of the DID loop while the last of runs is open: the finished runs' codes and the open run's. */
  ghost predicate OpenDomain(runs: seq<Run>, codes: seq<nat>, domains: seq<seq<nat>>, id: seq<nat>)
  {
    runs != [] && Bounded(runs, |codes|) &&
    domains == Domains(Init(runs), codes) && id == Select(Last(runs).rows, codes) && id != []
  }

  lemma StartFirstDomain(h: int, i: nat, codes: seq<nat>)
    requires i < |codes|
    ensures OpenDomain([Run(h, [i])], codes, [], [codes[i]])
  {
    assert Init([Run(h, [i])]) == [];
  }

  lemma CloseDomain(runs: seq<Run>, codes: seq<nat>, domains: seq<seq<nat>>, id: seq<nat>)
    requires OpenDomain(runs, codes, domains, id)
    ensures Domains(runs, codes) == domains + [id]
  {
  }

  lemma StartNextDomain(runs: seq<Run>, codes: seq<nat>, domains: seq<seq<nat>>, id: seq<nat>, h: int, i: nat)
    requires OpenDomain(runs, codes, domains, id) && i < |codes|
    ensures OpenDomain(runs + [Run(h, [i])], codes, domains + [id], [codes[i]])
  {
    var next := runs + [Run(h, [i])];
    assert Init(next) == runs;
  }

  lemma ExtendDomain(runs: seq<Run>, codes: seq<nat>, domains: seq<seq<nat>>, id: seq<nat>, i: nat)
    requires OpenDomain(runs, codes, domains, id) && i < |codes|
    ensures OpenDomain(Init(runs) + [Run(Last(runs).hole, Last(runs).rows + [i])], codes, domains, id + [codes[i]])
  {
    var next := Init(runs) + [Run(Last(runs).hole, Last(runs).rows + [i])];
    assert Init(next) == Init(runs);
    assert Select(Last(runs).rows + [i], codes) == id + [codes[i]];
  }

  /** DID: for each run of kept rows, the hole id and the soil codes of its rows. */
  method SoilDomains(df: LayerFrame, holeIds: seq<int>) returns (holes: seq<int>, domains: seq<seq<nat>>)
    requires df.Valid() && df.soil.Some?
    ensures var runs := Runs(df.location, holeIds, |df.location|);
      Bounded(runs, |df.soil.value|) && holes == Holes(runs) && domains == Domains(runs, df.soil.value)
  {
    var location, codes := df.location, df.soil.value;
    var tmp: Option<int> := None;
    holes, domains := [], [];
    var id: seq<nat> := [];
    var i := 0;
    ghost var runs: seq<Run> := [];
    while i < |location|
      invariant 0 <= i <= |location|
      invariant runs == Runs(location, holeIds, i)
      invariant holes == Holes(runs)
      invariant runs == [] ==> tmp == None && domains == [] && id == []
      invariant runs != [] ==> tmp == Some(Last(runs).hole) && OpenDomain(runs, codes, domains, id)
    {
      if location[i] in holeIds {
        HolesStep(runs, location[i], i);
        if Some(location[i]) != tmp {
          if id != [] {
            StartNextDomain(runs, codes, domains, id, location[i], i);
            domains := domains + [id];
          } else {
            StartFirstDomain(location[i], i, codes);
          }
          tmp := Some(location[i]);
          holes := holes + [location[i]];
          id := [codes[i]];
        } else {
          ExtendDomain(runs, codes, domains, id, i);
          id := id + [codes[i]];
        }
        runs := AddRow(runs, location[i], i);
      }
      i := i + 1;
    }
    if id != [] {
      CloseDomain(runs, codes, domains, id);
      domains := domains + [id];
    }
    RunsBounded(location, holeIds, |location|);
  }

  /** The runs' values, concatenated, are the column's values at the kept rows. */
  lemma {:induction false} DomainsConcatenate<T>(runs: seq<Run>, column: seq<T>)
    requires Bounded(runs, |column|)
    ensures forall t :: 0 <= t < |Members(runs)| ==> Members(runs)[t] < |column|
    ensures ImportRows.Flatten(Domains(runs, column)) == Select(Members(runs), column)
  {
    if runs != [] {
      DomainsConcatenate(Init(runs), column);
      ImportRows.FlattenAppend(Domains(Init(runs), column), Select(Last(runs).rows, column));
      SelectAppend(Members(Init(runs)), Last(runs).rows, column);
    }
  }

  /** DID's groups, concatenated, are the soil codes of the kept rows in row order. */
  lemma DomainsAreKeptCodes(location: seq<int>, keep: seq<int>, codes: seq<nat>)
    requires |codes| == |location|
    ensures var runs := Runs(location, keep, |location|);
      Bounded(runs, |codes|) &&
      (forall t :: 0 <= t < |Kept(location, keep, |location|)| ==> Kept(location, keep, |location|)[t] < |codes|) &&
      ImportRows.Flatten(Domains(runs, codes)) == Select(Kept(location, keep, |location|), codes)
  {
    RunsBounded(location, keep, |location|);
    RunsMembers(location, keep, |location|);
    DomainsConcatenate(Runs(location, keep, |location|), codes);
  }
}
