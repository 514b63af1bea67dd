/** The last steps of DistributeManager.Run (src/DistributeManager.cs):
    the collected results are ordered by task name, then the results of a
    task that has more than one result all take the state "ERROR" when
    any of them has it (NormalizeReportState). */
module ResultNormalizer {
  import Text
  import R = DistributeResults

  type Results = seq<R.BaseResult>

  /** The ordinal order of strings: `a` is not after `b`. Task names are
      "Task " and digits, where the default comparer of OrderBy orders as
      this does. */
  predicate Leq(a: string, b: string)
    decreases |a|
  {
    a == [] || (b != [] && (a[0] < b[0] || (a[0] == b[0] && Leq(a[1..], b[1..]))))
  }

  lemma {:induction false} LeqRefl(a: string)
    ensures Leq(a, a)
    decreases |a|
  {
    if a != [] {
      LeqRefl(a[1..]);
    }
  }

  lemma {:induction false} LeqTotal(a: string, b: string)
    ensures Leq(a, b) || Leq(b, a)
    decreases |a|
  {
    if a != [] && b != [] && a[0] == b[0] {
      LeqTotal(a[1..], b[1..]);
    }
  }

  lemma {:induction false} LeqTrans(a: string, b: string, c: string)
    requires Leq(a, b) && Leq(b, c)
    ensures Leq(a, c)
    decreases |a|
  {
    if a != [] && b != [] && c != [] && a[0] == b[0] && b[0] == c[0] {
      LeqTrans(a[1..], b[1..], c[1..]);
    }
  }

  lemma {:induction false} LeqAntisymmetric(a: string, b: string)
    requires Leq(a, b) && Leq(b, a)
    ensures a == b
    decreases |a|
  {
    if a != [] && b != [] {
      LeqAntisymmetric(a[1..], b[1..]);
      assert a == [a[0]] + a[1..] && b == [b[0]] + b[1..];
    }
  }

  predicate Sorted(x: Results) {
    forall i, j :: 0 <= i < j < |x| ==> Leq(x[i].taskName, x[j].taskName)
  }

  /** The results of one task lie next to each other. */
  predicate Contiguous(x: Results) {
    forall i, j, m :: 0 <= i < j < m < |x| && x[i].taskName == x[m].taskName ==> x[j].taskName == x[i].taskName
  }

  /** The results of task `k`, in their order. */
  function Filter(x: Results, k: string): Results {
    if x == [] then []
    else Filter(x[..|x| - 1], k) + if x[|x| - 1].taskName == k then [x[|x| - 1]] else []
  }

  /** The results of a task are results of that task, taken from the list. */
  lemma {:induction false} FilterMembers(x: Results, k: string)
    ensures |Filter(x, k)| <= |x|
    ensures forall e :: e in Filter(x, k) ==> e in x && e.taskName == k
    ensures Filter(x, k) == [] <==> forall i :: 0 <= i < |x| ==> x[i].taskName != k
    decreases |x|
  {
    if x != [] {
      var init := x[..|x| - 1];
      FilterMembers(init, k);
      assert forall i :: 0 <= i < |init| ==> init[i] == x[i];
    }
  }

  lemma {:induction false} FilterAppend(a: Results, b: Results, k: string)
    ensures Filter(a + b, k) == Filter(a, k) + Filter(b, k)
    decreases |b|
  {
    if b == [] {
      assert a + b == a;
    } else {
      var init := b[..|b| - 1];
      assert (a + b)[..|a + b| - 1] == a + init;
      FilterAppend(a, init, k);
    }
  }

  /** Insertion of one result after every result whose task name is not
      after its own. */
  function Insert(s: Results, r: R.BaseResult): (t: Results)
    ensures multiset(t) == multiset(s) + multiset{r}
    decreases |s|
  {
    if s == [] then [r]
    else if Leq(s[|s| - 1].taskName, r.taskName) then s + [r]
    else
      var init := s[..|s| - 1];
      assert s == init + [s[|s| - 1]];
      Insert(init, r) + [s[|s| - 1]]
  }

  /** OrderBy(r => r.TaskName), a stable sort. */
  function SortByTaskName(x: Results): (r: Results)
    ensures multiset(r) == multiset(x) && |r| == |x|
  {
    if x == [] then []
    else
      var init := x[..|x| - 1];
      assert x == init + [x[|x| - 1]];
      var r := Insert(SortByTaskName(init), x[|x| - 1]);
      assert |multiset(r)| == |r| && |multiset(x)| == |x|;
      r
  }

  lemma SortedAppend(t: Results, l: R.BaseResult)
    requires Sorted(t)
    requires forall i :: 0 <= i < |t| ==> Leq(t[i].taskName, l.taskName)
    ensures Sorted(t + [l])
  {
    var u := t + [l];
    forall i, j | 0 <= i < j < |u|
      ensures Leq(u[i].taskName, u[j].taskName)
    {
      if j < |t| {
        assert u[i] == t[i] && u[j] == t[j];
      } else {
        assert u[i] == t[i] && u[j] == l;
      }
    }
  }

  lemma {:induction false} InsertSorted(s: Results, r: R.BaseResult)
    requires Sorted(s)
    ensures Sorted(Insert(s, r))
    decreases |s|
  {
    if s != [] {
      var l := s[|s| - 1];
      var init := s[..|s| - 1];
      if Leq(l.taskName, r.taskName) {
        forall i | 0 <= i < |s|
          ensures Leq(s[i].taskName, r.taskName)
        {
          if i < |s| - 1 {
            LeqTrans(s[i].taskName, l.taskName, r.taskName);
          }
        }
        SortedAppend(s, r);
      } else {
        LeqTotal(l.taskName, r.taskName);
        assert Sorted(init);
        InsertSorted(init, r);
        var t := Insert(init, r);
        forall i | 0 <= i < |t|
          ensures Leq(t[i].taskName, l.taskName)
        {
          assert t[i] in multiset(t);
          if t[i] != r {
            assert t[i] in multiset(init);
            var j :| 0 <= j < |init| && init[j] == t[i];
            assert s[j] == t[i];
          }
        }
        SortedAppend(t, l);
      }
    }
  }

  lemma FilterSingle(r: R.BaseResult, k: string)
    ensures Filter([r], k) == if r.taskName == k then [r] else []
  {
    assert [r][..0] == [];
  }

  lemma {:induction false} InsertFilter(s: Results, r: R.BaseResult, k: string)
    ensures Filter(Insert(s, r), k) == Filter(s, k) + Filter([r], k)
    decreases |s|
  {
    if s == [] {
      FilterSingle(r, k);
    } else if Leq(s[|s| - 1].taskName, r.taskName) {
      FilterAppend(s, [r], k);
    } else {
      var l := s[|s| - 1];
      var init := s[..|s| - 1];
      var t := Insert(init, r);
      assert Insert(s, r) == t + [l];
      assert s == init + [l];
      assert l.taskName != r.taskName by {
        if l.taskName == r.taskName {
          LeqRefl(l.taskName);
        }
      }
      InsertFilter(init, r, k);
      FilterPast(init, t, l, r, k);
    }
  }

  /** A result of another task moved past `r` leaves every task's results
      in the same order. */
  lemma FilterPast(init: Results, t: Results, l: R.BaseResult, r: R.BaseResult, k: string)
    requires Filter(t, k) == Filter(init, k) + Filter([r], k)
    requires l.taskName != r.taskName
    ensures Filter(t + [l], k) == Filter(init + [l], k) + Filter([r], k)
  {
    FilterAppend(t, [l], k);
    FilterAppend(init, [l], k);
    FilterSingle(r, k);
    FilterSingle(l, k);
    var fi := Filter(init, k);
    if l.taskName == k {
      assert fi + [] + [l] == fi + [l] + [];
    } else if r.taskName == k {
      assert fi + [r] + [] == fi + [] + [r];
    } else {
      assert fi + [] + [] == fi + [] + [];
    }
  }

  /** The order puts every result before the results of later task names. */
  lemma {:induction false} SortSorted(x: Results)
    ensures Sorted(SortByTaskName(x))
    decreases |x|
  {
    if x != [] {
      SortSorted(x[..|x| - 1]);
      InsertSorted(SortByTaskName(x[..|x| - 1]), x[|x| - 1]);
    }
  }

  /** The order is stable: the results of one task keep their order. */
  lemma {:induction false} SortStable(x: Results, k: string)
    ensures Filter(SortByTaskName(x), k) == Filter(x, k)
    decreases |x|
  {
    if x != [] {
      var init := x[..|x| - 1];
      var l := x[|x| - 1];
      SortStable(init, k);
      InsertFilter(SortByTaskName(init), l, k);
      assert [l][..0] == [];
      assert Filter([l], k) == if l.taskName == k then [l] else [];
    }
  }

  /** A sorted list holds the results of each task next to each other. */
  lemma SortedContiguous(x: Results)
    requires Sorted(x)
    ensures Contiguous(x)
  {
    forall i, j, m | 0 <= i < j < m < |x| && x[i].taskName == x[m].taskName
      ensures x[j].taskName == x[i].taskName
    {
      LeqAntisymmetric(x[i].taskName, x[j].taskName);
    }
  }

  /** The task names in the order of their first result. */
  function Keys(x: Results): (ks: seq<string>)
    ensures forall i, j :: 0 <= i < j < |ks| ==> ks[i] != ks[j]
    ensures forall k :: k in ks <==> exists i :: 0 <= i < |x| && x[i].taskName == k
  {
    if x == [] then []
    else
      var init := x[..|x| - 1];
      assert forall i :: 0 <= i < |init| ==> init[i] == x[i];
      var ks := Keys(init);
      if x[|x| - 1].taskName in ks then ks else ks + [x[|x| - 1].taskName]
  }

  /** GroupBy(r => r.TaskName): one non-empty group per task name, in the
      order of the names' first results, each in the results' order. */
  function GroupByTaskName(x: Results): (gs: seq<Results>)
    ensures |gs| == |Keys(x)|
    ensures forall i :: 0 <= i < |gs| ==> gs[i] == Filter(x, Keys(x)[i])
  {
    var ks := Keys(x);
    seq(|ks|, i requires 0 <= i < |ks| => Filter(x, ks[i]))
  }

  /** No group is empty. */
  lemma GroupsNonEmpty(x: Results)
    ensures forall i :: 0 <= i < |GroupByTaskName(x)| ==> GroupByTaskName(x)[i] != []
  {
    var ks := Keys(x);
    forall i | 0 <= i < |ks|
      ensures Filter(x, ks[i]) != []
    {
      assert ks[i] in ks;
      FilterMembers(x, ks[i]);
    }
  }

  /** The state lower-cases to "error". */
  predicate IsError(r: R.BaseResult) {
    Text.ToLower(r.reportState) == "error"
  }

  predicate HasError(g: Results) {
    exists i :: 0 <= i < |g| && IsError(g[i])
  }

  function AllError(g: Results): Results {
    seq(|g|, i requires 0 <= i < |g| => g[i].(reportState := "ERROR"))
  }

  /** The worst case of a group wins when the group has several results. */
  function FixGroup(g: Results): Results {
    if |g| > 1 && HasError(g) then AllError(g) else g
  }

  /** SelectMany(r => r) */
  function Flatten(gs: seq<Results>): Results {
    if gs == [] then [] else Flatten(gs[..|gs| - 1]) + gs[|gs| - 1]
  }

  /** NormalizeReportState on values: the fixed groups, one after the
      other. */
  function Normalize(x: Results): Results {
    var gs := GroupByTaskName(x);
    Flatten(seq(|gs|, i requires 0 <= i < |gs| => FixGroup(gs[i])))
  }

  /** The state one result ends with: "ERROR" when its task has several
      results and one of them is an error, its own state otherwise. */
  function Fix(x: Results, r: R.BaseResult): (f: R.BaseResult)
    ensures f.(reportState := r.reportState) == r
  {
    var g := Filter(x, r.taskName);
    if |g| > 1 && HasError(g) then r.(reportState := "ERROR") else r
  }

  function MapFix(x: Results, z: Results): (m: Results)
    ensures |m| == |z|
  {
    seq(|z|, i requires 0 <= i < |z| => Fix(x, z[i]))
  }

  lemma {:induction false} KeysSameNames(x: Results, y: Results)
    requires |x| == |y| && forall i :: 0 <= i < |x| ==> x[i].taskName == y[i].taskName
    ensures Keys(x) == Keys(y)
    decreases |x|
  {
    if x != [] {
      KeysSameNames(x[..|x| - 1], y[..|y| - 1]);
    }
  }

  lemma {:induction false} FilterMapFix(x: Results, z: Results, k: string)
    ensures Filter(MapFix(x, z), k) == MapFix(x, Filter(z, k))
    decreases |z|
  {
    if z != [] {
      var init := z[..|z| - 1];
      var l := z[|z| - 1];
      FilterMapFix(x, init, k);
      var m := MapFix(x, z);
      assert m[..|m| - 1] == MapFix(x, init);
      assert m[|m| - 1] == Fix(x, l);
      var fi := Filter(init, k);
      if l.taskName == k {
        assert MapFix(x, fi + [l]) == MapFix(x, fi) + [Fix(x, l)];
      } else {
        assert Filter(z, k) == fi;
      }
    }
  }

  lemma MapFixGroup(x: Results, k: string)
    ensures MapFix(x, Filter(x, k)) == FixGroup(Filter(x, k))
  {
    var g := Filter(x, k);
    FilterMembers(x, k);
    forall i | 0 <= i < |g|
      ensures g[i].taskName == k
    {
      assert g[i] in g;
    }
  }

  /** Normalisation is the per-result state fix, regrouped. */
  lemma NormalizeRegroups(x: Results)
    ensures Normalize(x) == Flatten(GroupByTaskName(MapFix(x, x)))
  {
    var y := MapFix(x, x);
    KeysSameNames(x, y);
    var gs := GroupByTaskName(x);
    var fixed := seq(|gs|, i requires 0 <= i < |gs| => FixGroup(gs[i]));
    var hs := GroupByTaskName(y);
    forall i | 0 <= i < |gs|
      ensures hs[i] == fixed[i]
    {
      FilterMapFix(x, x, Keys(x)[i]);
      MapFixGroup(x, Keys(x)[i]);
    }
    assert hs == fixed;
  }

  lemma {:induction false} FlattenUpdate(gs: seq<Results>, j: nat, r: R.BaseResult)
    requires j < |gs|
    ensures multiset(Flatten(gs[j := gs[j] + [r]])) == multiset(Flatten(gs)) + multiset{r}
    decreases |gs|
  {
    var hs := gs[j := gs[j] + [r]];
    var n := |gs| - 1;
    if j == n {
      assert hs[..n] == gs[..n];
    } else {
      assert hs[..n] == gs[..n][j := gs[j] + [r]];
      assert hs[n] == gs[n];
      FlattenUpdate(gs[..n], j, r);
    }
  }

  /** The groups of `y + [r]` from the groups of `y`: the group of r's task
      grows by r when it exists, otherwise a group [r] is appended. */
  lemma GroupsSnoc(y: Results, r: R.BaseResult)
    ensures var z := y + [r];
      var ks := Keys(y);
      if r.taskName in ks then
        Keys(z) == ks &&
        exists j :: 0 <= j < |ks| && ks[j] == r.taskName &&
          GroupByTaskName(z) == GroupByTaskName(y)[j := GroupByTaskName(y)[j] + [r]]
      else
        Keys(z) == ks + [r.taskName] && GroupByTaskName(z) == GroupByTaskName(y) + [[r]]
  {
    var z := y + [r];
    assert z[..|z| - 1] == y;
    var ks := Keys(y);
    var gy := GroupByTaskName(y);
    var gz := GroupByTaskName(z);
    if r.taskName in ks {
      var j :| 0 <= j < |ks| && ks[j] == r.taskName;
      forall i | 0 <= i < |ks|
        ensures gz[i] == gy[j := gy[j] + [r]][i]
      {
        assert gz[i] == Filter(z, ks[i]);
      }
      assert gz == gy[j := gy[j] + [r]];
    } else {
      forall i | 0 <= i < |ks|
        ensures gz[i] == gy[i]
      {
        assert gz[i] == Filter(z, ks[i]);
      }
      FilterMembers(y, r.taskName);
      assert Filter(y, r.taskName) == [];
      assert gz[|ks|] == Filter(z, r.taskName) == [r];
      assert gz == gy + [[r]];
    }
  }

  lemma {:induction false} FlattenGroupsPermutes(z: Results)
    ensures multiset(Flatten(GroupByTaskName(z))) == multiset(z)
    decreases |z|
  {
    if z != [] {
      var y := z[..|z| - 1];
      var r := z[|z| - 1];
      assert z == y + [r];
      FlattenGroupsPermutes(y);
      GroupsSnoc(y, r);
      var gy := GroupByTaskName(y);
      if r.taskName in Keys(y) {
        var j :| 0 <= j < |Keys(y)| && Keys(y)[j] == r.taskName &&
          GroupByTaskName(z) == gy[j := gy[j] + [r]];
        FlattenUpdate(gy, j, r);
      } else {
        assert (gy + [[r]])[..|gy|] == gy;
      }
    }
  }

  lemma {:induction false} KeysLast(y: Results)
    requires y != [] && Contiguous(y)
    ensures |Keys(y)| > 0 && Keys(y)[|Keys(y)| - 1] == y[|y| - 1].taskName
    decreases |y|
  {
    var init := y[..|y| - 1];
    var l := y[|y| - 1];
    if l.taskName in Keys(init) {
      var i :| 0 <= i < |init| && init[i].taskName == l.taskName;
      assert y[i] == init[i];
      if i < |init| - 1 {
        assert y[|y| - 2].taskName == l.taskName;
      }
      assert init[|init| - 1].taskName == l.taskName;
      assert Contiguous(init);
      KeysLast(init);
    }
  }

  /** In a list whose tasks lie together, a result of a task seen before
      belongs to the last group. */
  lemma ContiguousSnocKey(y: Results, r: R.BaseResult)
    requires Contiguous(y + [r]) && r.taskName in Keys(y)
    ensures Contiguous(y) && |Keys(y)| > 0 && Keys(y)[|Keys(y)| - 1] == r.taskName
  {
    var z := y + [r];
    assert forall i :: 0 <= i < |y| ==> z[i] == y[i];
    assert z[|y|] == r;
    assert Contiguous(y);
    var i :| 0 <= i < |y| && y[i].taskName == r.taskName;
    if i < |y| - 1 {
      assert z[i].taskName == z[|y|].taskName;
      assert z[|y| - 1].taskName == z[i].taskName;
    }
    KeysLast(y);
  }

  lemma FlattenGrowLast(gs: seq<Results>, r: R.BaseResult)
    requires gs != []
    ensures Flatten(gs[|gs| - 1 := gs[|gs| - 1] + [r]]) == Flatten(gs) + [r]
  {
    var hs := gs[|gs| - 1 := gs[|gs| - 1] + [r]];
    assert hs[..|hs| - 1] == gs[..|gs| - 1];
  }

  lemma {:induction false} FlattenGroupsContiguous(z: Results)
    requires Contiguous(z)
    ensures Flatten(GroupByTaskName(z)) == z
    decreases |z|
  {
    if z != [] {
      var y := z[..|z| - 1];
      var r := z[|z| - 1];
      assert z == y + [r];
      assert Contiguous(y);
      FlattenGroupsContiguous(y);
      GroupsSnoc(y, r);
      var gy := GroupByTaskName(y);
      if r.taskName in Keys(y) {
        ContiguousSnocKey(y, r);
        var j :| 0 <= j < |Keys(y)| && Keys(y)[j] == r.taskName &&
          GroupByTaskName(z) == gy[j := gy[j] + [r]];
        assert j == |gy| - 1;
        FlattenGrowLast(gy, r);
      } else {
        assert (gy + [[r]])[..|gy|] == gy;
      }
    }
  }

  lemma FixedContiguous(x: Results)
    requires Contiguous(x)
    ensures Contiguous(MapFix(x, x))
  {
  }

  /** Normalisation neither adds nor removes a result: up to order, it is
      each result with its state fixed. */
  lemma NormalizePermutes(x: Results)
    ensures multiset(Normalize(x)) == multiset(MapFix(x, x))
    ensures |Normalize(x)| == |x|
  {
    NormalizeRegroups(x);
    FlattenGroupsPermutes(MapFix(x, x));
    assert |multiset(Normalize(x))| == |Normalize(x)|;
  }

  /** When the results of each task lie together, as after sorting, the
      results stay where they are and only their states change. */
  lemma NormalizeInPlace(x: Results)
    requires Contiguous(x)
    ensures Normalize(x) == MapFix(x, x)
  {
    NormalizeRegroups(x);
    FixedContiguous(x);
    FlattenGroupsContiguous(MapFix(x, x));
  }

  /** Worst case wins: a result of a task with several results one of
      which is an error ends "ERROR"; any other result comes out as it
      went in (in particular the only result of its task). */
  lemma WorstCaseWins(x: Results, e: R.BaseResult)
    requires e in Normalize(x)
    ensures var g := Filter(x, e.taskName);
      && (|g| > 1 && HasError(g) ==> e.reportState == "ERROR")
      && (!(|g| > 1 && HasError(g)) ==> e in x)
  {
    NormalizePermutes(x);
    assert e in multiset(MapFix(x, x));
    var i :| 0 <= i < |x| && MapFix(x, x)[i] == e;
    assert e == Fix(x, x[i]);
  }

  /** What Run returns before serialising: the results sorted by task name,
      each with its task's worst case. */
  lemma SortThenNormalize(x: Results)
    ensures Normalize(SortByTaskName(x)) == MapFix(x, SortByTaskName(x))
  {
    var s := SortByTaskName(x);
    SortSorted(x);
    SortedContiguous(s);
    NormalizeInPlace(s);
    forall i | 0 <= i < |s|
      ensures Fix(s, s[i]) == Fix(x, s[i])
    {
      SortStable(x, s[i].taskName);
    }
  }

  /** NormalizeReportState: the groups of equal task names are built, each
      group's states are overwritten when one of them is "error" and the
      group has several results, and the groups are concatenated. */
  method NormalizeReportState(results: Results) returns (normalized: Results)
    ensures normalized == Normalize(results)
  {
    var groups := GroupByTaskName(results);
    var fixed := FixGroups(groups);
    assert fixed == seq(|groups|, j requires 0 <= j < |groups| => FixGroup(groups[j]));
    normalized := Concat(fixed);
  }

  /** The outer foreach over the groups. */
  method FixGroups(groups: seq<Results>) returns (fixed: seq<Results>)
    ensures |fixed| == |groups|
    ensures forall j :: 0 <= j < |groups| ==> fixed[j] == FixGroup(groups[j])
  {
    fixed := [];
    var i := 0;
    while i < |groups|
      invariant 0 <= i <= |groups|
      invariant |fixed| == i
      invariant forall j :: 0 <= j < i ==> fixed[j] == FixGroup(groups[j])
    {
      var group := FixOne(groups[i]);
      fixed := fixed + [group];
      i := i + 1;
    }
  }

  /** The foreach over one group: at the first "error" of a group with
      several results, every state is overwritten and the loop stops. */
  method FixOne(group: Results) returns (g: Results)
    ensures g == FixGroup(group)
  {
    g := group;
    var k := 0;
    while k < |group|
      invariant 0 <= k <= |group|
      invariant g == group
      invariant |group| > 1 ==> forall m :: 0 <= m < k ==> !IsError(group[m])
    {
      if IsError(group[k]) && |group| > 1 {
        g := SetAllError(group);
        return;
      }
      k := k + 1;
    }
  }

  /** SelectMany over the groups. */
  method Concat(fixed: seq<Results>) returns (all: Results)
    ensures all == Flatten(fixed)
  {
    all := [];
    var i := 0;
    while i < |fixed|
      invariant 0 <= i <= |fixed|
      invariant all == Flatten(fixed[..i])
    {
      assert fixed[..i + 1][..i] == fixed[..i];
      all := all + fixed[i];
      i := i + 1;
    }
    assert fixed[..|fixed|] == fixed;
  }

  /** The inner loop that sets every state of a group. */
  method SetAllError(group: Results) returns (g: Results)
    ensures g == AllError(group)
  {
    g := group;
    var m := 0;
    while m < |g|
      invariant 0 <= m <= |g| == |group|
      invariant forall j :: 0 <= j < m ==> g[j] == group[j].(reportState := "ERROR")
      invariant forall j :: m <= j < |g| ==> g[j] == group[j]
    {
      g := g[m := g[m].(reportState := "ERROR")];
      m := m + 1;
    }
  }
}
