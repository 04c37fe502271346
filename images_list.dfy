/**
  The per-view images list widget: one item per image with its changed
  flag and match type copied from the image cache, plus the elevation
  updates the list writes back to the cache. The list widget sorts its
  items for display; the model keeps them in a sequence and states its
  properties by membership and count.
 */
module ListMaintenance {
  import opened KGeoTag

  datatype ImageItem = ImageItem(path: string, changed: bool, matchType: MatchType)

  function Paths(items: seq<ImageItem>): (r: seq<string>)
    ensures |r| == |items| && forall i | 0 <= i < |items| :: r[i] == items[i].path
  {
    seq(|items|, i requires 0 <= i < |items| => items[i].path)
  }

  predicate UniquePaths(items: seq<ImageItem>)
  {
    forall i, j | 0 <= i < j < |items| :: items[i].path != items[j].path
  }

  /** The index of the first item with the path, or the item count. */
  function FirstIndex(items: seq<ImageItem>, path: string): (k: nat)
    ensures k <= |items|
    ensures k < |items| ==> items[k].path == path
    ensures forall i | 0 <= i < k :: items[i].path != path
  {
    if items == [] then 0
    else if items[0].path == path then 0
    else 1 + FirstIndex(items[1..], path)
  }

  /** The list after an add-or-update: the first item with the path gets the
      cached flags, or a new item is appended. */
  function UpdateOrAdd(items: seq<ImageItem>, path: string, changed: bool, matchType: MatchType): seq<ImageItem>
  {
    var k := FirstIndex(items, path);
    var item := ImageItem(path, changed, matchType);
    if k < |items| then items[k := item] else items + [item]
  }

  /** The list after removing the first item with the path, if any. */
  function RemoveFirst(items: seq<ImageItem>, path: string): seq<ImageItem>
  {
    var k := FirstIndex(items, path);
    if k < |items| then items[..k] + items[k + 1..] else items
  }

  /** The list grows by one exactly when the path was absent, and never gains a duplicate. */
  lemma UpdateOrAddCount(items: seq<ImageItem>, path: string, changed: bool, matchType: MatchType)
    ensures |UpdateOrAdd(items, path, changed, matchType)| == |items| + (if path in Paths(items) then 0 else 1)
    ensures UniquePaths(items) ==> UniquePaths(UpdateOrAdd(items, path, changed, matchType))
  {
    var k := FirstIndex(items, path);
    if path in Paths(items) {
      var j :| 0 <= j < |items| && Paths(items)[j] == path;
      assert k <= j;
    }
  }

  /** Afterwards the item for the path carries the cached changed flag and match
      type, and every item for another path is still there, unchanged. */
  lemma UpdateOrAddContents(items: seq<ImageItem>, path: string, changed: bool, matchType: MatchType)
    ensures var r := UpdateOrAdd(items, path, changed, matchType);
      && ImageItem(path, changed, matchType) in r
      && r[FirstIndex(r, path)] == ImageItem(path, changed, matchType)
      && forall it: ImageItem | it.path != path :: it in r <==> it in items
  {
    var r := UpdateOrAdd(items, path, changed, matchType);
    var k := FirstIndex(items, path);
    assert r[k] == ImageItem(path, changed, matchType);
    FirstIndexOf(r, path, k);
    forall it: ImageItem | it.path != path ensures it in r <==> it in items {
      if it in r {
        var j :| 0 <= j < |r| && r[j] == it;
        assert j != k && items[j] == it;
      }
      if it in items {
        var j :| 0 <= j < |items| && items[j] == it;
        assert j != k && r[j] == it;
      }
    }
  }

  lemma FirstIndexOf(items: seq<ImageItem>, path: string, k: nat)
    requires k < |items| && items[k].path == path
    requires forall i | 0 <= i < k :: items[i].path != path
    ensures FirstIndex(items, path) == k
  {
    var f := FirstIndex(items, path);
    if f < k {
    } else if f > k {
    }
  }

  /** Removing an absent path changes nothing; removing a present one takes
      out exactly the first item with it. */
  lemma RemoveFirstSpec(items: seq<ImageItem>, path: string)
    ensures path !in Paths(items) ==> RemoveFirst(items, path) == items
    ensures path in Paths(items) ==>
      && |RemoveFirst(items, path)| == |items| - 1
      && multiset(RemoveFirst(items, path)) == multiset(items) - multiset{items[FirstIndex(items, path)]}
  {
    if path in Paths(items) {
      FirstIndexPresent(items, path);
      SplitMultiset(items, FirstIndex(items, path));
    }
  }

  /** A listed path has a first index inside the list. */
  lemma FirstIndexPresent(items: seq<ImageItem>, path: string)
    requires path in Paths(items)
    ensures FirstIndex(items, path) < |items|
  {
    var j :| 0 <= j < |items| && Paths(items)[j] == path;
    assert FirstIndex(items, path) <= j;
  }

  lemma SplitMultiset(items: seq<ImageItem>, k: nat)
    requires k < |items|
    ensures |items[..k] + items[k + 1..]| == |items| - 1
    ensures multiset(items[..k] + items[k + 1..]) == multiset(items) - multiset{items[k]}
  {
    var a, b := items[..k], items[k + 1..];
    assert items == a + [items[k]] + b;
    assert multiset(items) == multiset(a) + multiset{items[k]} + multiset(b);
  }

  /** In a list without duplicates, removal leaves no item with the path and no duplicate. */
  lemma RemoveFirstUnique(items: seq<ImageItem>, path: string)
    requires UniquePaths(items)
    ensures path !in Paths(RemoveFirst(items, path))
    ensures UniquePaths(RemoveFirst(items, path))
  {
    var k := FirstIndex(items, path);
    var r := RemoveFirst(items, path);
    if k < |items| {
      assert forall i | 0 <= i < |r| :: r[i] == items[if i < k then i else i + 1];
      forall i, j | 0 <= i < j < |r| ensures r[i].path != r[j].path {
        var i', j' := if i < k then i else i + 1, if j < k then j else j + 1;
        assert r[i] == items[i'] && r[j] == items[j'] && i' < j';
      }
    }
  }

  /** The only element kinds that matter here: image targets and all others. */
  datatype Target = ImageTarget | OtherTarget

  /** The coordinates an elevation result writes back to the cache: none for
      a target that is not an image, else the cached ones with the new altitude. */
  function ElevationProcessed(target: Target, cached: Coordinates, elevation: real): (write: Option<Coordinates>)
    ensures target != ImageTarget ==> write.None?
    ensures target == ImageTarget ==> write.Some? && write.value.alt == elevation
    ensures write.Some? ==> write.value.lon == cached.lon && write.value.lat == cached.lat && write.value.isSet == cached.isSet
  {
    if target != ImageTarget then None else Some(WithAlt(cached, elevation))
  }

  const MinElevation: real := -12000.0
  const MaxElevation: real := 8900.0

  /** The dialog's spin box keeps its value within its bounds. */
  function DialogValue(entered: real): (v: real)
    ensures MinElevation <= v <= MaxElevation
    ensures MinElevation <= entered <= MaxElevation ==> v == entered
  {
    if entered < MinElevation then MinElevation
    else if entered > MaxElevation then MaxElevation
    else entered
  }

  /** Manual elevation: a cancelled dialog (None) writes nothing; an accepted
      one writes the cached coordinates with the dialog's value as altitude,
      which lies within the bounds. */
  function SetElevation(dialog: Option<real>, cached: Coordinates): (write: Option<Coordinates>)
    ensures dialog.None? ==> write.None?
    ensures dialog.Some? ==> write.Some? && MinElevation <= write.value.alt <= MaxElevation
    ensures dialog.Some? ==> write == Some(WithAlt(cached, DialogValue(dialog.value)))
    ensures write.Some? ==> write.value.lon == cached.lon && write.value.lat == cached.lat && write.value.isSet == cached.isSet
  {
    match dialog
    case None => None
    case Some(entered) => ElevationProcessed(ImageTarget, cached, DialogValue(entered))
  }

  class ImagesList {
    var items: seq<ImageItem>

    /** No two items share a path. */
    ghost predicate Valid()
      reads this
    {
      UniquePaths(items)
    }

    constructor ()
      ensures Valid() && items == []
    {
      items := [];
    }

    method AddOrUpdateImage(path: string, cachedChanged: bool, cachedMatchType: MatchType)
      requires Valid()
      modifies this
      ensures Valid()
      ensures items == UpdateOrAdd(old(items), path, cachedChanged, cachedMatchType)
      ensures path in Paths(items)
      ensures |items| == |old(items)| + (if path in Paths(old(items)) then 0 else 1)
    {
      var itemFound := false;
      var index := 0;
      var i := 0;
      while i < |items|
        invariant i <= |items|
        invariant forall j | 0 <= j < i :: items[j].path != path
      {
        if items[i].path == path {
          index := i;
          itemFound := true;
          break;
        }
        i := i + 1;
      }
      UpdateOrAddCount(items, path, cachedChanged, cachedMatchType);
      ghost var expected := UpdateOrAdd(items, path, cachedChanged, cachedMatchType);
      if itemFound {
        FirstIndexOf(items, path, index);
        items := items[index := ImageItem(path, cachedChanged, cachedMatchType)];
      } else {
        items := items + [ImageItem(path, cachedChanged, cachedMatchType)];
      }
      assert items == expected;
      assert Paths(items)[FirstIndex(items, path)] == path by {
        UpdateOrAddContents(old(items), path, cachedChanged, cachedMatchType);
      }
    }

    method AllImages() returns (paths: seq<string>)
      ensures |paths| == |items|
      ensures forall i | 0 <= i < |items| :: paths[i] == items[i].path
    {
      paths := [];
      var i := 0;
      while i < |items|
        invariant i <= |items|
        invariant |paths| == i
        invariant forall j | 0 <= j < i :: paths[j] == items[j].path
      {
        paths := paths + [items[i].path];
        i := i + 1;
      }
    }

    method RemoveImage(path: string)
      requires Valid()
      modifies this
      ensures Valid()
      ensures items == RemoveFirst(old(items), path)
      ensures path !in Paths(items)
    {
      RemoveFirstUnique(items, path);
      var i := 0;
      while i < |items|
        invariant i <= |items|
        invariant forall j | 0 <= j < i :: items[j].path != path
      {
        if items[i].path == path {
          FirstIndexOf(items, path, i);
          items := items[..i] + items[i + 1..];
          return;
        }
        i := i + 1;
      }
    }
  }
}
