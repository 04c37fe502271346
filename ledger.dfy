/**
  The image assignment ledger: the list of loaded image paths, kept sorted by
  date, and one record per path holding the image's date, its current and
  its original (file-derived) coordinates and how the current ones were
  obtained. Reading the image, its metadata and its file times are foreign
  calls; their outcomes reach the model as an ImageFile value.
 */
module Ledger {
  import opened KGeoTag

  datatype LoadResult = LoadingSucceeded | AlreadyLoaded | LoadingImageFailed | LoadingMetadataFailed

  /** A GPS fix read from the image's metadata. */
  datatype Gps = Gps(lon: real, lat: real, alt: real)

  /** What the image decoder, the metadata reader and the file system report about one file.
      A date source that yields an invalid date is None. */
  datatype ImageFile = ImageFile(
    imageLoads: bool,
    metadataLoads: bool,
    exifDate: Option<int>,
    birthTime: Option<int>,
    lastModified: int,
    gps: Option<Gps>)

  datatype ImageData = ImageData(
    date: int,
    coordinates: Coordinates,
    originalCoordinates: Coordinates,
    matchType: MatchType)

  /** The record a hash lookup yields for a path it does not hold; the date 0
      stands for an invalid date. */
  const DefaultImageData := ImageData(0, NoCoordinates, NoCoordinates, NotMatched)

  /** Lookup by value: the stored record, or the default one. */
  function Lookup(data: map<string, ImageData>, path: string): ImageData
  {
    if path in data then data[path] else DefaultImageData
  }

  /** An image is changed when its coordinates differ from the original ones. */
  predicate IsChanged(d: ImageData)
  {
    d.coordinates != d.originalCoordinates
  }

  predicate NoDuplicates(s: seq<string>)
  {
    forall i, j | 0 <= i < j < |s| :: s[i] != s[j]
  }

  ghost predicate SortedByDate(paths: seq<string>, data: map<string, ImageData>)
  {
    forall i, j | 0 <= i < j < |paths| :: Lookup(data, paths[i]).date <= Lookup(data, paths[j]).date
  }

  function InsertAt(s: seq<string>, row: nat, x: string): (r: seq<string>)
    requires row <= |s|
    ensures |r| == |s| + 1 && r[row] == x
    ensures r[..row] == s[..row] && r[row + 1..] == s[row..]
  {
    s[..row] + [x] + s[row..]
  }

  /** Which of the four results a load gives; the re-load guard comes first. */
  function LoadOutcome(alreadyLoaded: bool, file: ImageFile): (r: LoadResult)
    ensures r == AlreadyLoaded <==> alreadyLoaded
    ensures r == LoadingImageFailed <==> !alreadyLoaded && !file.imageLoads
    ensures r == LoadingMetadataFailed <==> !alreadyLoaded && file.imageLoads && !file.metadataLoads
    ensures r == LoadingSucceeded <==> !alreadyLoaded && file.imageLoads && file.metadataLoads
  {
    if alreadyLoaded then AlreadyLoaded
    else if !file.imageLoads then LoadingImageFailed
    else if !file.metadataLoads then LoadingMetadataFailed
    else LoadingSucceeded
  }

  /** The date of a new image: the metadata date if valid, else the birth time
      if valid, else the modification time. */
  function ImageDate(file: ImageFile): (date: int)
    ensures file.exifDate.Some? ==> date == file.exifDate.value
    ensures file.exifDate.None? && file.birthTime.Some? ==> date == file.birthTime.value
    ensures file.exifDate.None? && file.birthTime.None? ==> date == file.lastModified
  {
    match file.exifDate
    case Some(d) => d
    case None =>
      match file.birthTime
      case Some(b) => b
      case None => file.lastModified
  }

  /** The record of a freshly loaded image. */
  function NewRecord(file: ImageFile): (d: ImageData)
    ensures d.date == ImageDate(file) && d.matchType == NotMatched
    ensures !IsChanged(d)
    ensures d.coordinates.isSet <==> file.gps.Some?
    ensures file.gps.Some? ==> d.coordinates == Coordinates(file.gps.value.lon, file.gps.value.lat, file.gps.value.alt, true)
  {
    var c := match file.gps
      case Some(g) => Coordinates(g.lon, g.lat, g.alt, true)
      case None => NoCoordinates;
    ImageData(ImageDate(file), c, c, NotMatched)
  }

  /** The row at which an image with the given date is inserted: the first
      row whose date is later, or the end. */
  function InsertionRow(paths: seq<string>, data: map<string, ImageData>, date: int): (row: nat)
    ensures row <= |paths|
    ensures forall i | 0 <= i < row :: Lookup(data, paths[i]).date <= date
    ensures row < |paths| ==> Lookup(data, paths[row]).date > date
  {
    if paths == [] then 0
    else if Lookup(data, paths[0]).date > date then 0
    else 1 + InsertionRow(paths[1..], data, date)
  }

  /** The two properties of InsertionRow determine it. */
  lemma {:induction false} InsertionRowUnique(paths: seq<string>, data: map<string, ImageData>, date: int, row: nat)
    requires row <= |paths|
    requires forall i | 0 <= i < row :: Lookup(data, paths[i]).date <= date
    requires row < |paths| ==> Lookup(data, paths[row]).date > date
    ensures row == InsertionRow(paths, data, date)
  {
    if paths != [] && row > 0 {
      InsertionRowUnique(paths[1..], data, date, row - 1);
    }
  }

  /** The row search of the load operation. */
  method FindRow(paths: seq<string>, data: map<string, ImageData>, date: int) returns (row: nat)
    ensures row == InsertionRow(paths, data, date)
  {
    row := 0;
    while row < |paths|
      invariant row <= |paths|
      invariant forall i | 0 <= i < row :: Lookup(data, paths[i]).date <= date
    {
      if Lookup(data, paths[row]).date > date {
        break;
      }
      row := row + 1;
    }
    InsertionRowUnique(paths, data, date, row);
  }

  /** Inserting a new path at its insertion row keeps the list sorted by date;
      every earlier row has an equal or earlier date and every later row a
      strictly later one. */
  lemma InsertKeepsSorted(paths: seq<string>, data: map<string, ImageData>, path: string, rec: ImageData, row: nat)
    requires SortedByDate(paths, data) && path !in paths
    requires row == InsertionRow(paths, data, rec.date)
    ensures SortedByDate(InsertAt(paths, row, path), data[path := rec])
    ensures forall i | 0 <= i < row :: Lookup(data[path := rec], InsertAt(paths, row, path)[i]).date <= rec.date
    ensures forall i | row < i <= |paths| :: Lookup(data[path := rec], InsertAt(paths, row, path)[i]).date > rec.date
  {
    var paths' := InsertAt(paths, row, path);
    var data' := data[path := rec];
    assert Lookup(data', path) == rec;
    forall i | 0 <= i < |paths'| && i != row
      ensures paths'[i] == paths[if i < row then i else i - 1]
      ensures Lookup(data', paths'[i]) == Lookup(data, paths[if i < row then i else i - 1])
    {
      if i < row {
        assert paths'[i] == paths'[..row][i];
      } else {
        assert paths'[i] == paths'[row + 1..][i - row - 1];
      }
    }
    forall i | row < i <= |paths|
      ensures Lookup(data', paths'[i]).date > rec.date
    {
      assert Lookup(data, paths[row]).date <= Lookup(data, paths[i - 1]).date;
    }
    forall i, j | 0 <= i < j < |paths'|
      ensures Lookup(data', paths'[i]).date <= Lookup(data', paths'[j]).date
    {
      if i != row && j != row {
        var i0, j0 := if i < row then i else i - 1, if j < row then j else j - 1;
        assert i0 < j0;
      }
    }
  }

  /** Inserting an absent path keeps the list free of duplicates, so the new
      path occurs exactly once, and the other paths keep their order. */
  lemma InsertKeepsUnique(paths: seq<string>, row: nat, path: string)
    requires NoDuplicates(paths) && path !in paths && row <= |paths|
    ensures NoDuplicates(InsertAt(paths, row, path))
    ensures multiset(InsertAt(paths, row, path)) == multiset(paths) + multiset{path}
  {
    var paths' := InsertAt(paths, row, path);
    assert forall i | 0 <= i < |paths'| && i != row :: paths'[i] == paths[if i < row then i else i - 1];
    calc {
      multiset(paths');
      multiset(paths[..row] + [path] + paths[row..]);
      multiset(paths[..row]) + multiset{path} + multiset(paths[row..]);
      { assert paths == paths[..row] + paths[row..]; }
      multiset(paths) + multiset{path};
    }
  }

  /** The changed paths, in list order. */
  function ChangedPaths(paths: seq<string>, data: map<string, ImageData>): seq<string>
  {
    if paths == [] then []
    else (if IsChanged(Lookup(data, paths[0])) then [paths[0]] else []) + ChangedPaths(paths[1..], data)
  }

  /** A path is reported changed exactly when it is listed and its record is changed. */
  lemma {:induction false} ChangedPathsMembers(paths: seq<string>, data: map<string, ImageData>, p: string)
    ensures p in ChangedPaths(paths, data) <==> p in paths && IsChanged(Lookup(data, p))
  {
    if paths != [] {
      ChangedPathsMembers(paths[1..], data, p);
      assert paths == [paths[0]] + paths[1..];
    }
  }

  /** The changed list of a concatenation is the concatenation of the changed
      lists, so the report keeps list order. */
  lemma {:induction false} ChangedPathsConcat(a: seq<string>, b: seq<string>, data: map<string, ImageData>)
    ensures ChangedPaths(a + b, data) == ChangedPaths(a, data) + ChangedPaths(b, data)
  {
    if a == [] {
      assert a + b == b;
    } else {
      var head := if IsChanged(Lookup(data, a[0])) then [a[0]] else [];
      assert (a + b)[0] == a[0];
      assert (a + b)[1..] == a[1..] + b;
      calc {
        ChangedPaths(a + b, data);
        head + ChangedPaths(a[1..] + b, data);
        { ChangedPathsConcat(a[1..], b, data); }
        head + (ChangedPaths(a[1..], data) + ChangedPaths(b, data));
        (head + ChangedPaths(a[1..], data)) + ChangedPaths(b, data);
        ChangedPaths(a, data) + ChangedPaths(b, data);
      }
    }
  }

  /** Replacing the record of one path changes the report only for that path. */
  lemma UpdateAffectsOnlyPath(paths: seq<string>, data: map<string, ImageData>, p: string, rec: ImageData, q: string)
    requires q != p
    ensures p in ChangedPaths(paths, data[p := rec]) <==> p in paths && IsChanged(rec)
    ensures q in ChangedPaths(paths, data[p := rec]) <==> q in ChangedPaths(paths, data)
  {
    ChangedPathsMembers(paths, data[p := rec], p);
    ChangedPathsMembers(paths, data[p := rec], q);
    ChangedPathsMembers(paths, data, q);
  }

  /** The record after an assignment: new coordinates and match type. */
  function Assigned(d: ImageData, c: Coordinates, matchType: MatchType): (r: ImageData)
    ensures r.coordinates == c && r.matchType == matchType
    ensures r.originalCoordinates == d.originalCoordinates && r.date == d.date
    ensures IsChanged(r) <==> c != d.originalCoordinates
  {
    d.(coordinates := c, matchType := matchType)
  }

  /** The record after an elevation update: only the altitude differs. */
  function WithElevation(d: ImageData, elevation: real): (r: ImageData)
    ensures r.coordinates == WithAlt(d.coordinates, elevation)
    ensures r.originalCoordinates == d.originalCoordinates
    ensures r.matchType == d.matchType && r.date == d.date
  {
    d.(coordinates := WithAlt(d.coordinates, elevation))
  }

  /** The record after discarding changes. */
  function Reset(d: ImageData): (r: ImageData)
    ensures !IsChanged(r) && r.matchType == NotMatched
    ensures r.originalCoordinates == d.originalCoordinates && r.date == d.date
  {
    d.(coordinates := d.originalCoordinates, matchType := NotMatched)
  }

  /** The record after its coordinates were written to the file. */
  function Saved(d: ImageData): (r: ImageData)
    ensures !IsChanged(r)
    ensures r.coordinates == d.coordinates && r.matchType == d.matchType && r.date == d.date
  {
    d.(originalCoordinates := d.coordinates)
  }

  /** Discarding changes twice is discarding them once. */
  lemma ResetIdempotent(d: ImageData)
    ensures Reset(Reset(d)) == Reset(d)
  {
  }

  /** Saving twice is saving once, and discarding after saving keeps the saved coordinates. */
  lemma SavedIdempotent(d: ImageData)
    ensures Saved(Saved(d)) == Saved(d)
    ensures Reset(Saved(d)).coordinates == d.coordinates
  {
  }

  /** Every listed path has a record, no path is listed twice and the list is sorted by date. */
  ghost predicate WellFormed(paths: seq<string>, data: map<string, ImageData>)
  {
    && (forall p | p in paths :: p in data)
    && NoDuplicates(paths)
    && SortedByDate(paths, data)
  }

  /** A successful load keeps the ledger well formed, and the new image is not changed. */
  lemma InsertKeepsWellFormed(paths: seq<string>, data: map<string, ImageData>, path: string, rec: ImageData, row: nat)
    requires WellFormed(paths, data) && path !in paths && !IsChanged(rec)
    requires row == InsertionRow(paths, data, rec.date)
    ensures WellFormed(InsertAt(paths, row, path), data[path := rec])
    ensures path !in ChangedPaths(InsertAt(paths, row, path), data[path := rec])
  {
    var paths', data' := InsertAt(paths, row, path), data[path := rec];
    InsertKeepsSorted(paths, data, path, rec, row);
    InsertKeepsUnique(paths, row, path);
    forall p | p in paths' ensures p in data' {
      assert p in multiset(paths');
    }
    ChangedPathsMembers(paths', data', path);
  }

  class ImagesModel {
    var paths: seq<string>
    var imageData: map<string, ImageData>

    ghost predicate Valid()
      reads this
    {
      WellFormed(paths, imageData)
    }

    constructor ()
      ensures Valid() && paths == [] && imageData == map[]
    {
      paths := [];
      imageData := map[];
    }

    method AddImage(path: string, file: ImageFile) returns (r: LoadResult)
      requires Valid()
      modifies this
      ensures Valid()
      ensures r == LoadOutcome(path in old(paths), file)
      ensures r != LoadingSucceeded ==> paths == old(paths) && imageData == old(imageData)
      ensures r == LoadingSucceeded ==>
        && paths == InsertAt(old(paths), InsertionRow(old(paths), old(imageData), ImageDate(file)), path)
        && imageData == old(imageData)[path := NewRecord(file)]
      ensures r == LoadingSucceeded ==> path !in ChangedPaths(paths, imageData)
    {
      if path in paths {
        return AlreadyLoaded;
      }
      if !file.imageLoads {
        return LoadingImageFailed;
      }
      if !file.metadataLoads {
        return LoadingMetadataFailed;
      }

      var date := file.lastModified;
      if file.exifDate.Some? {
        date := file.exifDate.value;
      } else if file.birthTime.Some? {
        date := file.birthTime.value;
      }
      var coordinates := NoCoordinates;
      var originalCoordinates := NoCoordinates;
      if file.gps.Some? {
        var g := file.gps.value;
        originalCoordinates := Coordinates(g.lon, g.lat, g.alt, true);
        coordinates := Coordinates(g.lon, g.lat, g.alt, true);
      }
      var data := ImageData(date, coordinates, originalCoordinates, NotMatched);
      assert data == NewRecord(file);

      var row := FindRow(paths, imageData, date);
      InsertKeepsWellFormed(paths, imageData, path, data, row);
      paths := InsertAt(paths, row, path);
      imageData := imageData[path := data];
      return LoadingSucceeded;
    }

    function Contains(path: string): (r: bool)
      requires Valid()
      reads this
      ensures r ==> path in imageData && Lookup(imageData, path) == imageData[path]
    {
      path in paths
    }

    function CoordinatesOf(path: string): (c: Coordinates)
      reads this
      ensures path in imageData ==> c == imageData[path].coordinates
      ensures path !in imageData ==> c == NoCoordinates
    {
      Lookup(imageData, path).coordinates
    }

    function MatchTypeOf(path: string): (t: MatchType)
      reads this
      ensures path in imageData ==> t == imageData[path].matchType
      ensures path !in imageData ==> t == NotMatched
    {
      Lookup(imageData, path).matchType
    }

    method ChangedImages() returns (changed: seq<string>)
      ensures changed == ChangedPaths(paths, imageData)
      ensures forall p :: p in changed <==> p in paths && IsChanged(Lookup(imageData, p))
    {
      changed := [];
      var i := 0;
      while i < |paths|
        invariant i <= |paths|
        invariant changed == ChangedPaths(paths[..i], imageData)
      {
        var path := paths[i];
        ChangedPathsConcat(paths[..i], [path], imageData);
        assert paths[..i + 1] == paths[..i] + [path];
        if IsChanged(Lookup(imageData, path)) {
          changed := changed + [path];
        }
        i := i + 1;
      }
      assert paths[..i] == paths;
      forall p ensures p in changed <==> p in paths && IsChanged(Lookup(imageData, p)) {
        ChangedPathsMembers(paths, imageData, p);
      }
    }

    method SetCoordinates(path: string, coordinates: Coordinates, matchType: MatchType)
      requires Valid()
      modifies this
      ensures Valid() && paths == old(paths)
      ensures imageData == old(imageData)[path := Assigned(Lookup(old(imageData), path), coordinates, matchType)]
    {
      var d := Lookup(imageData, path);
      imageData := imageData[path := Assigned(d, coordinates, matchType)];
      assert forall q | q in paths :: Lookup(imageData, q).date == Lookup(old(imageData), q).date;
    }

    method SetElevation(path: string, elevation: real)
      requires Valid()
      modifies this
      ensures Valid() && paths == old(paths)
      ensures imageData == old(imageData)[path := WithElevation(Lookup(old(imageData), path), elevation)]
    {
      var d := Lookup(imageData, path);
      imageData := imageData[path := WithElevation(d, elevation)];
      assert forall q | q in paths :: Lookup(imageData, q).date == Lookup(old(imageData), q).date;
    }

    method ResetChanges(path: string)
      requires Valid()
      modifies this
      ensures Valid() && paths == old(paths)
      ensures imageData == old(imageData)[path := Reset(Lookup(old(imageData), path))]
      ensures path !in ChangedPaths(paths, imageData)
    {
      var d := Lookup(imageData, path);
      imageData := imageData[path := Reset(d)];
      assert forall q | q in paths :: Lookup(imageData, q).date == Lookup(old(imageData), q).date;
      ChangedPathsMembers(paths, imageData, path);
    }

    method SetSaved(path: string)
      requires Valid()
      modifies this
      ensures Valid() && paths == old(paths)
      ensures imageData == old(imageData)[path := Saved(Lookup(old(imageData), path))]
      ensures path !in ChangedPaths(paths, imageData)
    {
      var d := Lookup(imageData, path);
      imageData := imageData[path := Saved(d)];
      assert forall q | q in paths :: Lookup(imageData, q).date == Lookup(old(imageData), q).date;
      ChangedPathsMembers(paths, imageData, path);
    }
  }
}
