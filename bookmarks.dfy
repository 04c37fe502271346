/**
  The "Assign to bookmark" submenu both images lists build from the bookmark
  table: a placeholder entry when there are no bookmarks, otherwise one entry
  per bookmark label in ascending order.
 */
module Bookmarks {
  import opened KGeoTag

  /** Strict lexicographic order on strings, character by character. */
  predicate Below(a: string, b: string)
    decreases |a|
  {
    if |a| == 0 then |b| > 0
    else if |b| == 0 then false
    else a[0] < b[0] || (a[0] == b[0] && Below(a[1..], b[1..]))
  }

  lemma {:induction false} BelowIrreflexive(a: string)
    ensures !Below(a, a)
    decreases |a|
  {
    if |a| > 0 {
      BelowIrreflexive(a[1..]);
    }
  }

  lemma {:induction false} BelowTransitive(a: string, b: string, c: string)
    requires Below(a, b) && Below(b, c)
    ensures Below(a, c)
    decreases |a|
  {
    if |a| > 0 && a[0] == b[0] && b[0] == c[0] {
      BelowTransitive(a[1..], b[1..], c[1..]);
    }
  }

  lemma {:induction false} BelowTotal(a: string, b: string)
    ensures a == b || Below(a, b) || Below(b, a)
    decreases |a|
  {
    if |a| > 0 && |b| > 0 && a[0] == b[0] {
      BelowTotal(a[1..], b[1..]);
      if a[1..] == b[1..] {
        assert a == [a[0]] + a[1..] && b == [b[0]] + b[1..];
      }
    }
  }

  predicate Ascending(s: seq<string>)
  {
    forall i, j | 0 <= i < j < |s| :: Below(s[i], s[j])
  }

  /** Inserting a new label into an ascending list at its place. */
  function InsertLabel(s: seq<string>, x: string): (r: seq<string>)
    requires Ascending(s) && x !in s
    ensures Ascending(r) && |r| == |s| + 1
    ensures forall y :: y in r <==> y in s || y == x
  {
    if s == [] then [x]
    else if Below(x, s[0]) then
      BelowAllAfterFirst(s, x);
      [x] + s
    else
      BelowTotal(x, s[0]);
      var tail := InsertLabel(s[1..], x);
      assert forall y | y in tail :: Below(s[0], y) by {
        forall y | y in tail ensures Below(s[0], y) {
          if y != x {
            var j :| 1 <= j < |s| && s[j] == y;
          }
        }
      }
      [s[0]] + tail
  }

  lemma BelowAllAfterFirst(s: seq<string>, x: string)
    requires Ascending(s) && s != [] && Below(x, s[0])
    ensures forall j | 0 <= j < |s| :: Below(x, s[j])
  {
    forall j | 1 <= j < |s| ensures Below(x, s[j]) {
      BelowTransitive(x, s[0], s[j]);
    }
  }

  /** The labels of a set in ascending order (the sort of the bookmark keys). */
  method SortedLabels(labels: set<string>) returns (s: seq<string>)
    ensures Ascending(s) && |s| == |labels|
    ensures forall x :: x in s <==> x in labels
  {
    s := [];
    var rest := labels;
    while rest != {}
      invariant rest <= labels
      invariant Ascending(s)
      invariant |s| + |rest| == |labels|
      invariant forall x :: x in s <==> x in labels && x !in rest
      decreases rest
    {
      var x :| x in rest;
      s := InsertLabel(s, x);
      rest := rest - {x};
    }
  }

  datatype MenuEntry = Placeholder | Bookmark(name: string)

  method BookmarkEntries(bookmarks: map<string, Coordinates>) returns (entries: seq<MenuEntry>)
    ensures |bookmarks| == 0 ==> entries == [Placeholder]
    ensures |bookmarks| > 0 ==>
      && |entries| == |bookmarks|
      && (forall i | 0 <= i < |entries| :: entries[i].Bookmark?)
      && (forall i, j | 0 <= i < j < |entries| :: Below(entries[i].name, entries[j].name))
      && (forall name :: Bookmark(name) in entries <==> name in bookmarks)
  {
    if |bookmarks| == 0 {
      return [Placeholder];
    }
    var labels := SortedLabels(bookmarks.Keys);
    entries := [];
    var i := 0;
    while i < |labels|
      invariant i <= |labels|
      invariant |entries| == i
      invariant forall k | 0 <= k < i :: entries[k] == Bookmark(labels[k])
    {
      entries := entries + [Bookmark(labels[i])];
      i := i + 1;
    }
    forall name ensures Bookmark(name) in entries <==> name in bookmarks {
      if Bookmark(name) in entries {
        var k :| 0 <= k < |entries| && entries[k] == Bookmark(name);
        assert labels[k] == name;
      }
      if name in bookmarks {
        var k :| 0 <= k < |labels| && labels[k] == name;
        assert entries[k] == Bookmark(name);
      }
    }
  }
}
