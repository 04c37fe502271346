/**
  The filter in front of an images list: which rows of the images model a
  view shows, and what happens when URLs are dropped on it. Dropped files
  that are not loaded yet are requested for loading; on the list of images
  without coordinates, dropped images that have coordinates are requested
  to lose them.
 */
module ViewFilter {
  import opened KGeoTag
  import opened Ledger

  datatype ListType = AllImages | AssignedImages | UnAssignedImages

  /** Whether a view of the given type shows a row with these coordinates. */
  predicate FilterAcceptsRow(listType: ListType, rowCoordinates: Coordinates)
  {
    listType == AllImages
    || (listType == AssignedImages && rowCoordinates.isSet)
    || (listType == UnAssignedImages && !rowCoordinates.isSet)
  }

  /** The view of all images shows every row. */
  lemma AllImagesAcceptsEveryRow(c: Coordinates)
    ensures FilterAcceptsRow(AllImages, c)
  {
  }

  /** Every row is shown by exactly one of the assigned and the unassigned views. */
  lemma AssignedAndUnassignedPartition(c: Coordinates)
    ensures FilterAcceptsRow(AssignedImages, c) <==> !FilterAcceptsRow(UnAssignedImages, c)
    ensures FilterAcceptsRow(AssignedImages, c) <==> c.isSet
  {
  }

  const CopyAction: bv32 := 0x1
  const MoveAction: bv32 := 0x2

  /** A dropped URL: whether it names a local file, and that file's path. */
  datatype Url = Url(isLocalFile: bool, localFile: string)

  /** The dragged data: whether it carries a URI list at all, the URLs of
      that list (possibly none) and the tag of the list the drag started in
      (empty when the drag did not come from an images list). */
  datatype MimeData = MimeData(hasUrls: bool, urls: seq<Url>, sourceList: string)

  /** The guard both drop functions share: a copy or move carrying a URI list. */
  predicate DropGuard(mime: MimeData, action: bv32)
  {
    action & (CopyAction | MoveAction) != 0 && mime.hasUrls
  }

  /** Whether a drop may happen; `ownTag` is the tag of this view's list type. */
  predicate CanDropMimeData(mime: MimeData, action: bv32, ownTag: string)
  {
    DropGuard(mime, action) && !(mime.sourceList != [] && mime.sourceList == ownTag)
  }

  /** A drag carrying the view's own tag is refused; any other guarded drag is accepted. */
  lemma CanDropRule(mime: MimeData, action: bv32, ownTag: string)
    ensures !DropGuard(mime, action) ==> !CanDropMimeData(mime, action, ownTag)
    ensures DropGuard(mime, action) && mime.sourceList != [] && mime.sourceList == ownTag ==> !CanDropMimeData(mime, action, ownTag)
    ensures DropGuard(mime, action) && (mime.sourceList == [] || mime.sourceList != ownTag) ==> CanDropMimeData(mime, action, ownTag)
  {
  }

  /** What one dropped URL adds to the list of paths to load. */
  function AddedBy(url: Url, paths: seq<string>): seq<string>
  {
    if url.isLocalFile && url.localFile !in paths then [url.localFile] else []
  }

  /** What one dropped URL adds to the list of paths that lose their coordinates. */
  function RemovedBy(listType: ListType, url: Url, paths: seq<string>, data: map<string, ImageData>): seq<string>
  {
    if url.isLocalFile && url.localFile in paths && listType == UnAssignedImages
       && Lookup(data, url.localFile).coordinates.isSet
    then [url.localFile]
    else []
  }

  /** The paths to load: local files the model does not hold, in drop order. */
  function AddPaths(urls: seq<Url>, paths: seq<string>): seq<string>
  {
    if urls == [] then [] else AddedBy(urls[0], paths) + AddPaths(urls[1..], paths)
  }

  /** The paths that lose their coordinates: on the unassigned view, local
      files the model holds and that have coordinates, in drop order. */
  function RemovePaths(listType: ListType, urls: seq<Url>, paths: seq<string>, data: map<string, ImageData>): seq<string>
  {
    if urls == [] then [] else RemovedBy(listType, urls[0], paths, data) + RemovePaths(listType, urls[1..], paths, data)
  }

  /** A request a drop emits, with its list of paths. */
  datatype Request = RemoveCoordinatesRequest(paths: seq<string>) | AddImagesRequest(paths: seq<string>)

  /** The outcome of a drop: its return value and the requests it emits, in emission order. */
  datatype DropResult = DropResult(accepted: bool, requests: seq<Request>)

  /** The requests for the two lists: each only when its list is non-empty,
      the removal before the addition. */
  function Requests(remove: seq<string>, add: seq<string>): seq<Request>
  {
    (if remove == [] then [] else [RemoveCoordinatesRequest(remove)])
    + (if add == [] then [] else [AddImagesRequest(add)])
  }

  function DropSpec(listType: ListType, paths: seq<string>, data: map<string, ImageData>, mime: MimeData, action: bv32): DropResult
  {
    if !DropGuard(mime, action) then DropResult(false, [])
    else DropResult(true, Requests(RemovePaths(listType, mime.urls, paths, data), AddPaths(mime.urls, paths)))
  }

  /** A dropped file is requested for loading exactly when it is a local file the model does not hold. */
  lemma {:induction false} AddPathsMembers(urls: seq<Url>, paths: seq<string>, p: string)
    ensures p in AddPaths(urls, paths) <==> p !in paths && exists i :: 0 <= i < |urls| && urls[i].isLocalFile && urls[i].localFile == p
  {
    if urls != [] {
      AddPathsMembers(urls[1..], paths, p);
      if p !in paths && urls[0].isLocalFile && urls[0].localFile == p {
        assert p in AddPaths(urls, paths);
      }
      assert forall i | 1 <= i < |urls| :: urls[i] == urls[1..][i - 1];
    }
  }

  /** A dropped file is requested to lose its coordinates exactly when it is a
      local file the model holds, the view is the unassigned one and the file
      has coordinates. */
  lemma {:induction false} RemovePathsMembers(listType: ListType, urls: seq<Url>, paths: seq<string>, data: map<string, ImageData>, p: string)
    ensures p in RemovePaths(listType, urls, paths, data) <==>
      && p in paths && listType == UnAssignedImages && Lookup(data, p).coordinates.isSet
      && exists i :: 0 <= i < |urls| && urls[i].isLocalFile && urls[i].localFile == p
  {
    if urls != [] {
      RemovePathsMembers(listType, urls[1..], paths, data, p);
      if p in paths && listType == UnAssignedImages && Lookup(data, p).coordinates.isSet && urls[0].isLocalFile && urls[0].localFile == p {
        assert p in RemovePaths(listType, urls, paths, data);
      }
      assert forall i | 1 <= i < |urls| :: urls[i] == urls[1..][i - 1];
    }
  }

  /** No path is both loaded and stripped of its coordinates. */
  lemma DropListsDisjoint(listType: ListType, urls: seq<Url>, paths: seq<string>, data: map<string, ImageData>, p: string)
    ensures !(p in AddPaths(urls, paths) && p in RemovePaths(listType, urls, paths, data))
  {
    AddPathsMembers(urls, paths, p);
    RemovePathsMembers(listType, urls, paths, data, p);
  }

  /** The load list follows drop order: the list of a concatenation is the concatenated lists. */
  lemma {:induction false} AddPathsConcat(u: seq<Url>, v: seq<Url>, paths: seq<string>)
    ensures AddPaths(u + v, paths) == AddPaths(u, paths) + AddPaths(v, paths)
  {
    if u == [] {
      assert u + v == v;
    } else {
      assert (u + v)[0] == u[0];
      assert (u + v)[1..] == u[1..] + v;
      calc {
        AddPaths(u + v, paths);
        AddedBy(u[0], paths) + AddPaths(u[1..] + v, paths);
        { AddPathsConcat(u[1..], v, paths); }
        AddedBy(u[0], paths) + (AddPaths(u[1..], paths) + AddPaths(v, paths));
        (AddedBy(u[0], paths) + AddPaths(u[1..], paths)) + AddPaths(v, paths);
      }
    }
  }

  /** The removal list follows drop order in the same way. */
  lemma {:induction false} RemovePathsConcat(listType: ListType, u: seq<Url>, v: seq<Url>, paths: seq<string>, data: map<string, ImageData>)
    ensures RemovePaths(listType, u + v, paths, data) == RemovePaths(listType, u, paths, data) + RemovePaths(listType, v, paths, data)
  {
    if u == [] {
      assert u + v == v;
    } else {
      assert (u + v)[0] == u[0];
      assert (u + v)[1..] == u[1..] + v;
      calc {
        RemovePaths(listType, u + v, paths, data);
        RemovedBy(listType, u[0], paths, data) + RemovePaths(listType, u[1..] + v, paths, data);
        { RemovePathsConcat(listType, u[1..], v, paths, data); }
        RemovedBy(listType, u[0], paths, data) + (RemovePaths(listType, u[1..], paths, data) + RemovePaths(listType, v, paths, data));
        (RemovedBy(listType, u[0], paths, data) + RemovePaths(listType, u[1..], paths, data)) + RemovePaths(listType, v, paths, data);
      }
    }
  }

  /** A drop that passes the guard reports success even when it requests
      nothing; a drop that fails the guard does nothing. Each list is
      requested at most once, only when it is non-empty, and the removal
      request comes before the loading request. */
  lemma DropOutcome(listType: ListType, paths: seq<string>, data: map<string, ImageData>, mime: MimeData, action: bv32)
    ensures var r := DropSpec(listType, paths, data, mime, action);
      && (r.accepted <==> DropGuard(mime, action))
      && (!r.accepted ==> r.requests == [])
      && |r.requests| <= 2
      && (forall k | 0 <= k < |r.requests| :: r.requests[k].paths != [])
      && (forall k | 0 <= k < |r.requests| && r.requests[k].RemoveCoordinatesRequest? ::
            r.requests[k].paths == RemovePaths(listType, mime.urls, paths, data))
      && (forall k | 0 <= k < |r.requests| && r.requests[k].AddImagesRequest? ::
            r.requests[k].paths == AddPaths(mime.urls, paths))
      && (forall i, j | 0 <= i < j < |r.requests| :: r.requests[i].RemoveCoordinatesRequest? && r.requests[j].AddImagesRequest?)
      && ((exists k | 0 <= k < |r.requests| :: r.requests[k].RemoveCoordinatesRequest?)
            <==> r.accepted && RemovePaths(listType, mime.urls, paths, data) != [])
      && ((exists k | 0 <= k < |r.requests| :: r.requests[k].AddImagesRequest?)
            <==> r.accepted && AddPaths(mime.urls, paths) != [])
  {
    var r := DropSpec(listType, paths, data, mime, action);
    if r.accepted {
      var remove, add := RemovePaths(listType, mime.urls, paths, data), AddPaths(mime.urls, paths);
      if remove != [] {
        assert r.requests[0].RemoveCoordinatesRequest?;
      }
      if add != [] {
        assert r.requests[|r.requests| - 1].AddImagesRequest?;
      }
    }
  }

  /** A copy or move with a URI list that holds no URL is still accepted, and requests nothing. */
  lemma EmptyUriListAccepted(listType: ListType, paths: seq<string>, data: map<string, ImageData>, sourceList: string, action: bv32)
    requires action & (CopyAction | MoveAction) != 0
    ensures DropSpec(listType, paths, data, MimeData(true, [], sourceList), action) == DropResult(true, [])
  {
  }

  /** Whatever the drag's source, a drop that may happen is one the drop
      function accepts; the drop function accepts more, namely the drags that
      carry this view's own tag. */
  lemma CanDropImpliesDropAccepted(listType: ListType, paths: seq<string>, data: map<string, ImageData>, mime: MimeData, action: bv32, ownTag: string)
    ensures CanDropMimeData(mime, action, ownTag) ==> DropSpec(listType, paths, data, mime, action).accepted
    ensures DropSpec(listType, paths, data, mime, action).accepted && !CanDropMimeData(mime, action, ownTag)
      ==> mime.sourceList != [] && mime.sourceList == ownTag
  {
  }

  /** One more URL extends both lists by what that URL contributes. */
  lemma DropStep(listType: ListType, urls: seq<Url>, i: nat, paths: seq<string>, data: map<string, ImageData>)
    requires i < |urls|
    ensures AddPaths(urls[..i + 1], paths) == AddPaths(urls[..i], paths) + AddedBy(urls[i], paths)
    ensures RemovePaths(listType, urls[..i + 1], paths, data)
      == RemovePaths(listType, urls[..i], paths, data) + RemovedBy(listType, urls[i], paths, data)
  {
    assert urls[..i + 1] == urls[..i] + [urls[i]];
    AddPathsConcat(urls[..i], [urls[i]], paths);
    RemovePathsConcat(listType, urls[..i], [urls[i]], paths, data);
    assert AddPaths([urls[i]], paths) == AddedBy(urls[i], paths) + AddPaths([], paths);
    assert RemovePaths(listType, [urls[i]], paths, data) == RemovedBy(listType, urls[i], paths, data) + RemovePaths(listType, [], paths, data);
  }

  /** The drop handler: sorts the dropped local files into the two lists and
      emits a request for each non-empty one. */
  method DropMimeData(listType: ListType, model: ImagesModel, mime: MimeData, action: bv32) returns (r: DropResult)
    requires model.Valid()
    ensures r == DropSpec(listType, model.paths, model.imageData, mime, action)
  {
    if !(action & (CopyAction | MoveAction) != 0) || !mime.hasUrls {
      return DropResult(false, []);
    }

    var paths: seq<string> := [];
    var removeCoordinates: seq<string> := [];
    var i := 0;
    while i < |mime.urls|
      invariant i <= |mime.urls|
      invariant paths == AddPaths(mime.urls[..i], model.paths)
      invariant removeCoordinates == RemovePaths(listType, mime.urls[..i], model.paths, model.imageData)
    {
      var url := mime.urls[i];
      DropStep(listType, mime.urls, i, model.paths, model.imageData);
      i := i + 1;
      if !url.isLocalFile {
        continue;
      }
      var path := url.localFile;
      if !model.Contains(path) {
        paths := paths + [path];
      } else if listType == UnAssignedImages && model.CoordinatesOf(path).isSet {
        removeCoordinates := removeCoordinates + [path];
      }
    }
    assert mime.urls[..i] == mime.urls;

    var emitted: seq<Request> := [];
    if removeCoordinates != [] {
      emitted := emitted + [RemoveCoordinatesRequest(removeCoordinates)];
    }
    if paths != [] {
      emitted := emitted + [AddImagesRequest(paths)];
    }
    return DropResult(true, emitted);
  }
}
