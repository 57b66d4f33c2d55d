/**
 * The metadata converters of the frontend (frontend/src/utils.ts). JavaScript objects are
 * ordered association lists `seq<(key, value)>` whose keys are distinct, in `Object.keys` order.
 */
module FrontendUtils {
  import opened Text

  /** Display labels of the known framework keys. */
  const LabelMap: map<string, string> := map[
    "golly" := "golly (recommended)",
    "gin" := "Gin",
    "echo" := "Echo",
    "fiber" := "Fiber",
    "gokit" := "Go kit",
    "chi" := "Chi",
    "cobra" := "Cobra",
    "urfave" := "urfave/cli",
    "kingpin" := "Kingpin"]

  /** `labelMap[fw] || fw`: every label is non-empty, so a known key maps to its label and any other key to itself. */
  function FrameworkLabel(fw: string): string
  {
    if fw in LabelMap then LabelMap[fw] else fw
  }

  /** A key keeps its own spelling exactly when it is not one of the nine known framework keys. */
  lemma FrameworkLabelUnchangedIffUnknown(fw: string)
    ensures FrameworkLabel(fw) == fw <==> fw !in LabelMap
  {
    if fw in LabelMap {
      assert |LabelMap[fw]| != |fw| || LabelMap[fw][0] != fw[0];
    }
  }

  /** The labels of the frameworks whose flag is `true`, in key order. */
  function EnabledLabels(frameworks: seq<(string, bool)>): seq<string>
  {
    if frameworks == [] then []
    else
      var (fw, enabled) := frameworks[|frameworks| - 1];
      EnabledLabels(frameworks[..|frameworks| - 1]) + (if enabled then [FrameworkLabel(fw)] else [])
  }

  /** Filtering and labelling distribute over concatenation, so the labels keep the keys' order. */
  lemma {:induction false} EnabledLabelsAppend(a: seq<(string, bool)>, b: seq<(string, bool)>)
    ensures EnabledLabels(a + b) == EnabledLabels(a) + EnabledLabels(b)
    decreases |b|
  {
    if b == [] {
      assert a + b == a;
    } else {
      assert (a + b)[..|a + b| - 1] == a + b[..|b| - 1];
      EnabledLabelsAppend(a, b[..|b| - 1]);
    }
  }

  /** Every label comes from an enabled key, and every enabled key contributes its label. */
  lemma {:induction false} EnabledLabelsMembers(frameworks: seq<(string, bool)>, caption: string)
    ensures caption in EnabledLabels(frameworks) <==>
      exists i :: 0 <= i < |frameworks| && frameworks[i].1 && FrameworkLabel(frameworks[i].0) == caption
  {
    if frameworks != [] {
      var front := frameworks[..|frameworks| - 1];
      EnabledLabelsMembers(front, caption);
      if caption in EnabledLabels(front) {
        var i :| 0 <= i < |front| && front[i].1 && FrameworkLabel(front[i].0) == caption;
        assert frameworks[i] == front[i];
      }
      if exists i :: 0 <= i < |frameworks| && frameworks[i].1 && FrameworkLabel(frameworks[i].0) == caption {
        var i :| 0 <= i < |frameworks| && frameworks[i].1 && FrameworkLabel(frameworks[i].0) == caption;
        if i < |front| {
          assert front[i] == frameworks[i];
        }
      }
    }
  }

  /** `result[key] = value` on an object: an existing key keeps its place, a new key goes last. */
  function Assign<V>(entries: seq<(string, V)>, key: string, value: V): seq<(string, V)>
  {
    if entries == [] then [(key, value)]
    else if entries[0].0 == key then [(key, value)] + entries[1..]
    else [entries[0]] + Assign(entries[1..], key, value)
  }

  /** Assigning a key the object does not hold appends it. */
  lemma {:induction false} AssignNewKey<V>(entries: seq<(string, V)>, key: string, value: V)
    requires key !in Keys(entries)
    ensures Assign(entries, key, value) == entries + [(key, value)]
  {
    if entries != [] {
      assert Keys(entries[1..]) == Keys(entries)[1..];
      AssignNewKey(entries[1..], key, value);
    }
  }

  /** The object built by the `forEach`: one entry per project type, holding its enabled framework labels. */
  method ToSupportedFrameworkOptionsMap(supportedFrameworks: seq<(string, seq<(string, bool)>)>)
    returns (result: seq<(string, seq<string>)>)
    requires DistinctKeys(supportedFrameworks)
    ensures Keys(result) == Keys(supportedFrameworks)
    ensures DistinctKeys(result)
    ensures forall i :: 0 <= i < |result| ==> result[i].1 == EnabledLabels(supportedFrameworks[i].1)
  {
    result := [];
    var i := 0;
    while i < |supportedFrameworks|
      invariant 0 <= i <= |supportedFrameworks|
      invariant |result| == i
      invariant forall j :: 0 <= j < i ==> result[j] == (supportedFrameworks[j].0, EnabledLabels(supportedFrameworks[j].1))
    {
      var (ptype, frameworks) := supportedFrameworks[i];
      var arr := EnabledLabels(frameworks);
      assert ptype !in Keys(result) by {
        forall j | 0 <= j < i
          ensures Keys(result)[j] != ptype
        {
          assert supportedFrameworks[j].0 != supportedFrameworks[i].0;
        }
      }
      AssignNewKey(result, ptype, arr);
      result := Assign(result, ptype, arr);
      i := i + 1;
    }
  }

  // ---- Go versions -------------------------------------------------------------------------

  predicate AllDigits(s: string)
  {
    forall i :: 0 <= i < |s| ==> '0' <= s[i] <= '9'
  }

  function DecimalValue(s: string): nat
    requires AllDigits(s)
  {
    if s == [] then 0 else 10 * DecimalValue(s[..|s| - 1]) + (s[|s| - 1] as int - '0' as int)
  }

  /** `Number(c) || 0` on one version component: a run of decimal digits gives its value, anything else 0. */
  function ComponentValue(c: string): nat
  {
    if c != [] && AllDigits(c) then DecimalValue(c) else 0
  }

  /** `v.split('.').map(Number)`, with the `|| 0` of the comparator applied. */
  function Parts(v: string): (r: seq<nat>)
    ensures |r| == CountChar(v, '.') + 1
  {
    var pieces := Split(v, '.');
    SplitLength(v, '.');
    seq(|pieces|, i requires 0 <= i < |pieces| => ComponentValue(pieces[i]))
  }

  /** `p[i] || 0`: a missing component counts as 0. */
  function Part(p: seq<nat>, i: nat): nat
  {
    if i < |p| then p[i] else 0
  }

  function Max(a: nat, b: nat): nat
  {
    if a < b then b else a
  }

  /** The comparator's loop from position `i` up to `n`: the first difference decides, `pb[i] - pa[i]`. */
  function CompareFrom(pa: seq<nat>, pb: seq<nat>, i: nat, n: nat): int
    requires i <= n
    decreases n - i
  {
    if i == n then 0
    else if Part(pb, i) != Part(pa, i) then Part(pb, i) - Part(pa, i)
    else CompareFrom(pa, pb, i + 1, n)
  }

  /** The sort comparator: negative when `a` is the newer version and so goes first. */
  function Compare(a: string, b: string): int
  {
    var pa, pb := Parts(a), Parts(b);
    CompareFrom(pa, pb, 0, Max(|pa|, |pb|))
  }

  /** The comparator as written, with its `for` loop and early return. */
  method CompareVersions(a: string, b: string) returns (c: int)
    ensures c == Compare(a, b)
    ensures c == -Compare(b, a)
    ensures c == 0 <==> forall i :: 0 <= i < Max(|Parts(a)|, |Parts(b)|) ==> Part(Parts(a), i) == Part(Parts(b), i)
  {
    var pa := Parts(a);
    var pb := Parts(b);
    var n := Max(|pa|, |pb|);
    var i := 0;
    while i < n
      invariant 0 <= i <= n
      invariant CompareFrom(pa, pb, 0, n) == CompareFrom(pa, pb, i, n)
      invariant forall j :: 0 <= j < i ==> Part(pa, j) == Part(pb, j)
    {
      if Part(pb, i) != Part(pa, i) {
        CompareFromAntisymmetric(pa, pb, 0, n);
        CompareFromZero(pa, pb, 0, n);
        return Part(pb, i) - Part(pa, i);
      }
      i := i + 1;
    }
    CompareFromAntisymmetric(pa, pb, 0, n);
    CompareFromZero(pa, pb, 0, n);
    return 0;
  }

  lemma {:induction false} CompareFromAntisymmetric(pa: seq<nat>, pb: seq<nat>, i: nat, n: nat)
    requires i <= n
    ensures CompareFrom(pa, pb, i, n) == -CompareFrom(pb, pa, i, n)
    decreases n - i
  {
    if i < n && Part(pb, i) == Part(pa, i) {
      CompareFromAntisymmetric(pa, pb, i + 1, n);
    }
  }

  /** The comparison is 0 exactly when all components in range agree. */
  lemma {:induction false} CompareFromZero(pa: seq<nat>, pb: seq<nat>, i: nat, n: nat)
    requires i <= n
    ensures CompareFrom(pa, pb, i, n) == 0 <==> forall j :: i <= j < n ==> Part(pa, j) == Part(pb, j)
    decreases n - i
  {
    if i < n && Part(pb, i) == Part(pa, i) {
      CompareFromZero(pa, pb, i + 1, n);
    }
  }

  /** Beyond both lengths every component is 0, so a longer range compares the same. */
  lemma {:induction false} CompareFromExtend(pa: seq<nat>, pb: seq<nat>, i: nat, m: nat, n: nat)
    requires Max(|pa|, |pb|) <= m <= n && i <= m
    ensures CompareFrom(pa, pb, i, n) == CompareFrom(pa, pb, i, m)
    decreases m - i
  {
    if i == m {
      CompareFromZero(pa, pb, i, n);
    } else if Part(pb, i) == Part(pa, i) {
      CompareFromExtend(pa, pb, i + 1, m, n);
    }
  }

  lemma {:induction false} CompareFromTransitive(pa: seq<nat>, pb: seq<nat>, pc: seq<nat>, i: nat, n: nat)
    requires i <= n
    requires CompareFrom(pa, pb, i, n) <= 0 && CompareFrom(pb, pc, i, n) <= 0
    ensures CompareFrom(pa, pc, i, n) <= 0
    decreases n - i
  {
    if i < n && Part(pa, i) == Part(pb, i) == Part(pc, i) {
      CompareFromTransitive(pa, pb, pc, i + 1, n);
    }
  }

  /** `a` may stand before `b` in the sorted list. */
  predicate Before(a: string, b: string)
  {
    Compare(a, b) <= 0
  }

  /** The comparator is antisymmetric, so any two versions are ordered one way round or tie. */
  lemma BeforeTotal(a: string, b: string)
    ensures Compare(a, b) == -Compare(b, a)
    ensures Before(a, b) || Before(b, a)
  {
    CompareFromAntisymmetric(Parts(a), Parts(b), 0, Max(|Parts(a)|, |Parts(b)|));
    assert Max(|Parts(a)|, |Parts(b)|) == Max(|Parts(b)|, |Parts(a)|);
  }

  lemma BeforeTransitive(a: string, b: string, c: string)
    requires Before(a, b) && Before(b, c)
    ensures Before(a, c)
  {
    var pa, pb, pc := Parts(a), Parts(b), Parts(c);
    var n := Max(Max(|pa|, |pb|), |pc|);
    CompareFromExtend(pa, pb, 0, Max(|pa|, |pb|), n);
    CompareFromExtend(pb, pc, 0, Max(|pb|, |pc|), n);
    CompareFromExtend(pa, pc, 0, Max(|pa|, |pc|), n);
    CompareFromTransitive(pa, pb, pc, 0, n);
  }

  predicate SortedDesc(s: seq<string>)
  {
    forall i, j {:trigger Before(s[i], s[j])} :: 0 <= i < j < |s| ==> Before(s[i], s[j])
  }

  /** Places `x` after every element of `s` that does not strictly follow it, as a stable sort does. */
  function Insert(x: string, s: seq<string>): (r: seq<string>)
    ensures multiset(r) == multiset(s) + multiset{x}
    ensures |r| == |s| + 1
  {
    if s == [] then [x]
    else if Compare(x, s[0]) < 0 then [x] + s
    else
      assert s == [s[0]] + s[1..];
      [s[0]] + Insert(x, s[1..])
  }

  /** A version that precedes the inserted one and every listed one precedes the whole result. */
  lemma {:induction false} InsertBound(a: string, x: string, s: seq<string>)
    requires Before(a, x)
    requires forall k :: 0 <= k < |s| ==> Before(a, s[k])
    ensures forall k :: 0 <= k < |Insert(x, s)| ==> Before(a, Insert(x, s)[k])
  {
    if s != [] && Compare(x, s[0]) >= 0 {
      var rest := s[1..];
      assert forall k :: 0 <= k < |rest| ==> rest[k] == s[k + 1];
      InsertBound(a, x, rest);
      assert Insert(x, s) == [s[0]] + Insert(x, rest);
    }
  }

  lemma {:induction false} InsertSorted(x: string, s: seq<string>)
    requires SortedDesc(s)
    ensures SortedDesc(Insert(x, s))
  {
    var r := Insert(x, s);
    if s == [] {
    } else if Compare(x, s[0]) < 0 {
      BeforeTotal(x, s[0]);
      assert r == [x] + s;
      forall i, j | 0 <= i < j < |r|
        ensures Before(r[i], r[j])
      {
        if i == 0 && j > 1 {
          assert Before(s[0], s[j - 1]);
          BeforeTransitive(x, s[0], s[j - 1]);
        } else if i > 0 {
          assert Before(s[i - 1], s[j - 1]);
        }
      }
    } else {
      var rest := s[1..];
      var t := Insert(x, rest);
      SortedDescTail(s);
      InsertSorted(x, rest);
      BeforeTotal(x, s[0]);
      forall k | 0 <= k < |rest|
        ensures Before(s[0], rest[k])
      {
        assert Before(s[0], s[k + 1]);
      }
      InsertBound(s[0], x, rest);
      assert r == [s[0]] + t;
      forall i, j | 0 <= i < j < |r|
        ensures Before(r[i], r[j])
      {
        if i == 0 {
          assert Before(s[0], t[j - 1]);
        } else {
          assert Before(t[i - 1], t[j - 1]);
        }
      }
    }
  }

  /** A stable insertion sort by the version comparator, newest first. */
  function SortDesc(keys: seq<string>): (r: seq<string>)
    ensures multiset(r) == multiset(keys)
    ensures |r| == |keys|
    ensures SortedDesc(r)
  {
    if keys == [] then []
    else
      var front := keys[..|keys| - 1];
      assert keys == front + [keys[|keys| - 1]];
      var sorted := SortDesc(front);
      InsertSorted(keys[|keys| - 1], sorted);
      Insert(keys[|keys| - 1], sorted)
  }

  /** The elements of `s` that compare equal to `v`, in their order in `s`. */
  function Ties(s: seq<string>, v: string): seq<string>
  {
    if s == [] then [] else (if Compare(s[0], v) == 0 then [s[0]] else []) + Ties(s[1..], v)
  }

  lemma {:induction false} TiesAppend(a: seq<string>, b: seq<string>, v: string)
    ensures Ties(a + b, v) == Ties(a, v) + Ties(b, v)
  {
    if a == [] {
      assert a + b == b;
    } else {
      assert (a + b)[0] == a[0] && (a + b)[1..] == a[1..] + b;
      TiesAppend(a[1..], b, v);
    }
  }

  /** The tail of a descending list is descending. */
  lemma SortedDescTail(s: seq<string>)
    requires SortedDesc(s) && s != []
    ensures SortedDesc(s[1..])
  {
    var rest := s[1..];
    forall i, j | 0 <= i < j < |rest|
      ensures Before(rest[i], rest[j])
    {
      assert rest[i] == s[i + 1] && rest[j] == s[j + 1];
    }
  }

  /** Unfolding `Ties` once at the front. */
  lemma TiesCons(y: string, s: seq<string>, v: string)
    ensures Ties([y] + s, v) == (if Compare(y, v) == 0 then [y] else []) + Ties(s, v)
  {
    assert ([y] + s)[0] == y && ([y] + s)[1..] == s;
  }

  /** No element of a descending list ties with a version that is strictly newer than its head. */
  lemma {:induction false} NoTiesBelow(x: string, s: seq<string>, v: string)
    requires SortedDesc(s) && s != [] && Compare(x, s[0]) < 0 && Compare(x, v) == 0
    ensures Ties(s, v) == []
  {
    BeforeTotal(x, s[0]);
    BeforeTotal(x, v);
    if Before(s[0], v) {
      BeforeTransitive(s[0], v, x);
    }
    if |s| > 1 {
      var rest := s[1..];
      SortedDescTail(s);
      assert Before(s[0], s[1]);
      BeforeTotal(x, rest[0]);
      if Before(rest[0], x) {
        BeforeTransitive(s[0], rest[0], x);
      }
      NoTiesBelow(x, rest, v);
    }
  }

  /** Inserting at the front: nothing already listed ties with `x`. */
  lemma InsertTiesFront(x: string, s: seq<string>, v: string)
    requires SortedDesc(s) && s != [] && Compare(x, s[0]) < 0
    ensures Ties(Insert(x, s), v) == Ties(s, v) + (if Compare(x, v) == 0 then [x] else [])
  {
    assert Insert(x, s) == [x] + s;
    TiesCons(x, s, v);
    if Compare(x, v) == 0 {
      NoTiesBelow(x, s, v);
      assert Ties(s, v) + [x] == [x];
    } else {
      assert [] + Ties(s, v) == Ties(s, v) + [];
    }
  }

  /** Inserting `x` puts it after every element it ties with. */
  lemma {:induction false} InsertTies(x: string, s: seq<string>, v: string)
    requires SortedDesc(s)
    ensures Ties(Insert(x, s), v) == Ties(s, v) + (if Compare(x, v) == 0 then [x] else [])
  {
    var tx := if Compare(x, v) == 0 then [x] else [];
    if s == [] {
      TiesCons(x, [], v);
      assert [x] + [] == [x];
    } else if Compare(x, s[0]) < 0 {
      InsertTiesFront(x, s, v);
    } else {
      var rest := s[1..];
      var t := Insert(x, rest);
      var head := if Compare(s[0], v) == 0 then [s[0]] else [];
      SortedDescTail(s);
      calc {
        Ties(Insert(x, s), v);
      == { assert Insert(x, s) == [s[0]] + t; }
        Ties([s[0]] + t, v);
      == { TiesCons(s[0], t, v); }
        head + Ties(t, v);
      == { InsertTies(x, rest, v); }
        head + (Ties(rest, v) + tx);
      ==
        (head + Ties(rest, v)) + tx;
      == { TiesCons(s[0], rest, v); assert [s[0]] + rest == s; }
        Ties(s, v) + tx;
      }
    }
  }

  /** Unfolding `Ties` once at the back. */
  lemma TiesSnoc(s: seq<string>, v: string)
    requires s != []
    ensures Ties(s, v) == Ties(s[..|s| - 1], v) + (if Compare(s[|s| - 1], v) == 0 then [s[|s| - 1]] else [])
  {
    var front, last := s[..|s| - 1], s[|s| - 1];
    assert s == front + [last];
    TiesAppend(front, [last], v);
    TiesCons(last, [], v);
    assert [last] + [] == [last];
  }

  /** The sort is stable: versions that compare equal keep their input order. */
  lemma {:induction false} SortDescStable(keys: seq<string>, v: string)
    ensures Ties(SortDesc(keys), v) == Ties(keys, v)
  {
    if keys != [] {
      var front := keys[..|keys| - 1];
      var sorted := SortDesc(front);
      assert SortDesc(keys) == Insert(keys[|keys| - 1], sorted);
      SortDescStable(front, v);
      InsertTies(keys[|keys| - 1], sorted, v);
      TiesSnoc(keys, v);
    }
  }

  /** A radio option: the version and its `label` (`label` is a Dafny keyword, hence `caption`). */
  datatype VersionOption = VersionOption(version: string, caption: string)

  const LatestSuffix: string := " (latest stable)"

  function VersionsOf(options: seq<VersionOption>): (r: seq<string>)
    ensures |r| == |options|
    ensures forall i :: 0 <= i < |options| ==> r[i] == options[i].version
  {
    seq(|options|, i requires 0 <= i < |options| => options[i].version)
  }

  /**
   * Every key, whatever its flag, newest first, and only the first option labelled as the latest
   * stable release.
   */
  function ToGoVersionOptions(versions: seq<(string, bool)>): (r: seq<VersionOption>)
    ensures multiset(VersionsOf(r)) == multiset(Keys(versions))
    ensures SortedDesc(VersionsOf(r))
    ensures forall i :: 0 <= i < |r| ==> r[i].caption == if i == 0 then r[i].version + LatestSuffix else r[i].version
    ensures r == [] <==> versions == []
  {
    var sorted := SortDesc(Keys(versions));
    var r := seq(|sorted|, i requires 0 <= i < |sorted| =>
      VersionOption(sorted[i], if i == 0 then sorted[i] + LatestSuffix else sorted[i]));
    assert VersionsOf(r) == sorted;
    r
  }

  datatype ProjectTypeOption = ProjectTypeOption(projectType: string, caption: string)

  /** `projectTypes[key]`: the value of the key's entry. */
  function Get<V>(entries: seq<(string, V)>, key: string): Option<V>
  {
    if entries == [] then None
    else if entries[0].0 == key then Some(entries[0].1)
    else Get(entries[1..], key)
  }

  /** In an object with distinct keys, looking up the i-th key gives the i-th value. */
  lemma {:induction false} GetAt<V>(entries: seq<(string, V)>, i: nat)
    requires DistinctKeys(entries) && i < |entries|
    ensures Get(entries, entries[i].0) == Some(entries[i].1)
  {
    if i > 0 {
      assert entries[0].0 != entries[i].0;
      GetAt(entries[1..], i - 1);
    }
  }

  lemma GetEvery<V>(entries: seq<(string, V)>)
    requires DistinctKeys(entries)
    ensures forall i :: 0 <= i < |entries| ==> Get(entries, entries[i].0) == Some(entries[i].1)
  {
    forall i | 0 <= i < |entries|
      ensures Get(entries, entries[i].0) == Some(entries[i].1)
    {
      GetAt(entries, i);
    }
  }

  function ToSupportedProjectTypes(projectTypes: seq<(string, string)>): (r: seq<ProjectTypeOption>)
    requires DistinctKeys(projectTypes)
    ensures |r| == |projectTypes|
    ensures forall i :: 0 <= i < |r| ==> r[i].projectType == Keys(projectTypes)[i]
    ensures forall i :: 0 <= i < |r| ==> Get(projectTypes, r[i].projectType) == Some(r[i].caption)
  {
    var keys := Keys(projectTypes);
    GetEvery(projectTypes);
    seq(|keys|, i requires 0 <= i < |keys| => ProjectTypeOption(keys[i], Get(projectTypes, keys[i]).value))
  }
}
