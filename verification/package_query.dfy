// The package-manager query helper of the Android library
// (`PackageManager.intentReceivers`) and Kotlin's `distinct()`, which it uses
// to turn the activities resolved for an intent into distinct package names.

module PackageQuery {

  /** The optional value Kotlin writes as a nullable type. */
  datatype Option<+T> = None | Some(value: T)

  /** What `queryIntentActivities` returns per matching activity; only the
      package name of its `activityInfo` is used by the library. */
  datatype ResolveInfo = ResolveInfo(packageName: string, activityName: string)

  /** The two implicit intents the library queries with: an action and a
      MIME type. Extras are irrelevant to which activities resolve. */
  datatype QueryIntent = QueryIntent(action: string, mimeType: string)

  const ACTION_VIEW: string := "android.intent.action.VIEW"
  const ACTION_SEND: string := "android.intent.action.SEND"
  const SPAYD_MIME_TYPE: string := "application/x-shortpaymentdescriptor"
  const IMAGE_MIME_TYPE: string := "image/*"

  /** The installed-application state as seen through
      `queryIntentActivities(intent, MATCH_DEFAULT_ONLY)`: a snapshot that
      maps an intent to the activities able to handle it, in platform order. */
  type PackageManager = QueryIntent -> seq<ResolveInfo>

  /** No element occurs twice. */
  predicate NoDup<T(==)>(s: seq<T>) {
    forall i, j :: 0 <= i < j < |s| ==> s[i] != s[j]
  }

  /** Index of the first occurrence of `x` in `s`, or `|s|` when absent. */
  function IndexOf<T(==)>(s: seq<T>, x: T): (r: nat)
    ensures r <= |s|
    ensures r < |s| <==> x in s
    ensures r < |s| ==> s[r] == x
    ensures forall k :: 0 <= k < r ==> s[k] != x
  {
    if |s| == 0 then 0
    else if x in s[..|s| - 1] then IndexOf(s[..|s| - 1], x)
    else if s[|s| - 1] == x then |s| - 1
    else |s|
  }

  /** The elements of `r` appear in the order of their first occurrence in `s`. */
  predicate FirstOccurrenceOrder<T(==)>(s: seq<T>, r: seq<T>) {
    forall i, j :: 0 <= i < j < |r| ==> IndexOf(s, r[i]) < IndexOf(s, r[j])
  }

  /** Kotlin's `Iterable.distinct()`: keeps the first occurrence of every
      element, dropping later repetitions. */
  function Distinct<T(==,!new)>(s: seq<T>): (r: seq<T>)
    ensures NoDup(r)
    ensures forall x :: x in r <==> x in s
    ensures |r| <= |s|
  {
    if |s| == 0 then []
    else
      var d := Distinct(s[..|s| - 1]);
      if s[|s| - 1] in d then d else d + [s[|s| - 1]]
  }

  /** `Distinct` lists its elements in first-occurrence order. */
  lemma {:induction false} DistinctOrder<T(!new)>(s: seq<T>)
    ensures FirstOccurrenceOrder(s, Distinct(s))
  {
    if |s| > 0 {
      var init := s[..|s| - 1];
      var last := s[|s| - 1];
      DistinctOrder(init);
      var d := Distinct(init);
      var r := Distinct(s);
      forall y | y in init
        ensures IndexOf(s, y) == IndexOf(init, y) < |s| - 1
      {
        assert s[..|s| - 1] == init;
      }
      forall i, j | 0 <= i < j < |r|
        ensures IndexOf(s, r[i]) < IndexOf(s, r[j])
      {
        assert r[i] in init;
        if j < |d| {
          assert r[j] == d[j] && r[i] == d[i];
          assert r[j] in init;
        } else {
          assert r[j] == last && last !in init;
          assert IndexOf(s, last) == |s| - 1;
        }
      }
    }
  }

  /** Two sequences with the same elements, each strictly increasing under
      the same key, are equal. */
  lemma {:induction false} SortedByKeyUnique<T>(a: seq<T>, b: seq<T>, key: T -> int)
    requires forall i, j :: 0 <= i < j < |a| ==> key(a[i]) < key(a[j])
    requires forall i, j :: 0 <= i < j < |b| ==> key(b[i]) < key(b[j])
    requires forall x :: x in a <==> x in b
    ensures a == b
    decreases |a|
  {
    assert |a| > 0 ==> a[0] in b;
    assert |b| > 0 ==> b[0] in a;
    if |a| > 0 {
      if a[0] != b[0] {
        assert false;
      }
      forall x
        ensures x in a[1..] <==> x in b[1..]
      {
        if x in a[1..] {
          var k :| 1 <= k < |a| && a[k] == x;
          assert x != a[0];
          assert x in b;
          var m :| 0 <= m < |b| && b[m] == x;
          assert m != 0;
        }
        if x in b[1..] {
          var k :| 1 <= k < |b| && b[k] == x;
          assert x != b[0];
          assert x in a;
          var m :| 0 <= m < |a| && a[m] == x;
          assert m != 0;
        }
      }
      SortedByKeyUnique(a[1..], b[1..], key);
      assert a == [a[0]] + a[1..] && b == [b[0]] + b[1..];
    }
  }

  /** `Distinct(s)` is the one duplicate-free list holding exactly the
      elements of `s` in first-occurrence order. */
  lemma DistinctCharacterized<T(!new)>(s: seq<T>, r: seq<T>)
    ensures r == Distinct(s) <==>
              NoDup(r) && (forall x :: x in r <==> x in s) && FirstOccurrenceOrder(s, r)
  {
    DistinctOrder(s);
    if NoDup(r) && (forall x :: x in r <==> x in s) && FirstOccurrenceOrder(s, r) {
      SortedByKeyUnique(r, Distinct(s), x => IndexOf(s, x));
    }
  }

  /** A duplicate-free list is its own `distinct()`. */
  lemma DistinctOfNoDup<T(!new)>(s: seq<T>)
    requires NoDup(s)
    ensures Distinct(s) == s
  {
    forall i, j | 0 <= i < j < |s|
      ensures IndexOf(s, s[i]) < IndexOf(s, s[j])
    {
      assert IndexOf(s, s[i]) == i && IndexOf(s, s[j]) == j;
    }
    DistinctCharacterized(s, s);
  }

  /** `distinct()` as the library runs it: one pass that remembers the
      elements already emitted, as a `LinkedHashSet` does. */
  method DistinctPass<T(==,!new)>(s: seq<T>) returns (r: seq<T>)
    ensures r == Distinct(s)
    ensures NoDup(r) && forall x :: x in r <==> x in s
  {
    var seen: set<T> := {};
    r := [];
    var i := 0;
    while i < |s|
      invariant 0 <= i <= |s|
      invariant r == Distinct(s[..i])
      invariant seen == set x | x in r
    {
      assert s[..i + 1][..i] == s[..i];
      if s[i] !in seen {
        r := r + [s[i]];
        seen := seen + {s[i]};
      }
      i := i + 1;
    }
    assert s[..i] == s;
  }

  /** The package names of the resolved activities, in platform order. */
  function PackageNames(infos: seq<ResolveInfo>): (names: seq<string>)
    ensures |names| == |infos|
    ensures forall k :: 0 <= k < |infos| ==> names[k] == infos[k].packageName
  {
    seq(|infos|, k requires 0 <= k < |infos| => infos[k].packageName)
  }

  /** `PackageManager.intentReceivers`: the distinct package names able to
      handle `intent`; a null intent has no receivers. */
  function IntentReceivers(pm: PackageManager, intent: Option<QueryIntent>): (r: seq<string>)
    ensures intent.None? ==> r == []
    ensures NoDup(r)
    ensures intent.Some? ==>
              forall p :: p in r <==>
                exists k :: 0 <= k < |pm(intent.value)| && pm(intent.value)[k].packageName == p
  {
    match intent
    case None => []
    case Some(q) =>
      var names := PackageNames(pm(q));
      assert forall p :: p in names <==>
        exists k :: 0 <= k < |pm(q)| && pm(q)[k].packageName == p by {
        forall p | p in names
          ensures exists k :: 0 <= k < |pm(q)| && pm(q)[k].packageName == p
        {
          var k :| 0 <= k < |names| && names[k] == p;
          assert pm(q)[k].packageName == p;
        }
      }
      Distinct(names)
  }

  /** The receivers come in the order in which their package first shows
      up among the resolved activities. */
  lemma IntentReceiversOrder(pm: PackageManager, q: QueryIntent)
    ensures FirstOccurrenceOrder(PackageNames(pm(q)), IntentReceivers(pm, Some(q)))
  {
    DistinctOrder(PackageNames(pm(q)));
  }
}
