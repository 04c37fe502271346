/**
  The context menu of the combined images view: which of its actions are
  shown for the current selection, decided from how many selected images
  have coordinates and how many are changed. The image cache is queried
  through two lookup functions.
 */
module ContextMenu {
  import opened KGeoTag
  import Ledger

  /** How many of the paths have coordinates other than NoCoordinates. */
  function CountWithCoordinates(paths: seq<string>, coordinatesOf: string -> Coordinates): nat
  {
    if paths == [] then 0
    else CountWithCoordinates(paths[..|paths| - 1], coordinatesOf) + HasCoordinates(coordinatesOf(paths[|paths| - 1]))
  }

  function HasCoordinates(c: Coordinates): nat
  {
    if c != NoCoordinates then 1 else 0
  }

  /** How many of the paths are changed. */
  function CountChanged(paths: seq<string>, changedOf: string -> bool): nat
  {
    if paths == [] then 0
    else CountChanged(paths[..|paths| - 1], changedOf) + (if changedOf(paths[|paths| - 1]) then 1 else 0)
  }

  /** The counters never exceed the selection size; they are zero exactly when
      no selected image qualifies and full exactly when every one does. */
  lemma {:induction false} CountWithCoordinatesSpec(paths: seq<string>, coordinatesOf: string -> Coordinates)
    ensures CountWithCoordinates(paths, coordinatesOf) <= |paths|
    ensures CountWithCoordinates(paths, coordinatesOf) == 0 <==> forall i | 0 <= i < |paths| :: coordinatesOf(paths[i]) == NoCoordinates
    ensures CountWithCoordinates(paths, coordinatesOf) == |paths| <==> forall i | 0 <= i < |paths| :: coordinatesOf(paths[i]) != NoCoordinates
  {
    if paths != [] {
      var init := paths[..|paths| - 1];
      CountWithCoordinatesSpec(init, coordinatesOf);
      assert forall i | 0 <= i < |init| :: init[i] == paths[i];
    }
  }

  lemma {:induction false} CountChangedSpec(paths: seq<string>, changedOf: string -> bool)
    ensures CountChanged(paths, changedOf) <= |paths|
    ensures CountChanged(paths, changedOf) == 0 <==> forall i | 0 <= i < |paths| :: !changedOf(paths[i])
  {
    if paths != [] {
      var init := paths[..|paths| - 1];
      CountChangedSpec(init, changedOf);
      assert forall i | 0 <= i < |init| :: init[i] == paths[i];
    }
  }

  /** The visibility of the five selection-dependent actions. */
  datatype Visibility = Visibility(
    assignManually: bool,
    editCoordinates: bool,
    lookupElevation: bool,
    removeCoordinates: bool,
    discardChanges: bool)

  function MenuVisibility(allPaths: nat, hasCoordinates: nat, changed: nat): Visibility
  {
    Visibility(hasCoordinates == 0, hasCoordinates > 0, hasCoordinates == allPaths, hasCoordinates > 0, changed > 0)
  }

  /** For a non-empty selection: "set coordinates manually" is shown exactly
      when no selected image has coordinates and "edit coordinates" exactly
      when one does, so exactly one of them; "lookup elevation" exactly when
      all have coordinates; "remove coordinates" exactly when one has them;
      "discard changes" exactly when one is changed. */
  lemma VisibilityRule(paths: seq<string>, coordinatesOf: string -> Coordinates, changedOf: string -> bool)
    requires paths != []
    ensures var v := MenuVisibility(|paths|, CountWithCoordinates(paths, coordinatesOf), CountChanged(paths, changedOf));
      && (v.assignManually <==> forall i | 0 <= i < |paths| :: coordinatesOf(paths[i]) == NoCoordinates)
      && (v.editCoordinates <==> exists i | 0 <= i < |paths| :: coordinatesOf(paths[i]) != NoCoordinates)
      && v.assignManually != v.editCoordinates
      && (v.lookupElevation <==> forall i | 0 <= i < |paths| :: coordinatesOf(paths[i]) != NoCoordinates)
      && (v.removeCoordinates <==> v.editCoordinates)
      && (v.discardChanges <==> exists i | 0 <= i < |paths| :: changedOf(paths[i]))
  {
    CountWithCoordinatesSpec(paths, coordinatesOf);
    CountChangedSpec(paths, changedOf);
  }

  /** Whether the view asks the map to centre on an image with these coordinates. */
  predicate CheckCenterImage(coordinates: Coordinates)
  {
    coordinates != NoCoordinates
  }

  /** A freshly loaded image is centred on exactly when its file has a GPS fix. */
  lemma FreshImageCentredIffGps(file: Ledger.ImageFile)
    ensures CheckCenterImage(Ledger.NewRecord(file).coordinates) <==> file.gps.Some?
  {
  }

  /** For a single selected image, centring on it and offering to edit its
      coordinates go together. */
  lemma CenterAgreesWithMenu(path: string, coordinatesOf: string -> Coordinates, changedOf: string -> bool)
    ensures CheckCenterImage(coordinatesOf(path))
      <==> MenuVisibility(1, CountWithCoordinates([path], coordinatesOf), CountChanged([path], changedOf)).editCoordinates
  {
    assert [path][..0] == [];
  }

  /** The paths of the selected rows, one per row, in selection order. */
  method SelectedPaths(selectedRows: seq<nat>, modelPaths: seq<string>) returns (paths: seq<string>)
    requires forall i | 0 <= i < |selectedRows| :: selectedRows[i] < |modelPaths|
    ensures |paths| == |selectedRows|
    ensures forall i | 0 <= i < |selectedRows| :: paths[i] == modelPaths[selectedRows[i]]
  {
    paths := [];
    var i := 0;
    while i < |selectedRows|
      invariant i <= |selectedRows|
      invariant |paths| == i
      invariant forall j | 0 <= j < i :: paths[j] == modelPaths[selectedRows[j]]
    {
      paths := paths + [modelPaths[selectedRows[i]]];
      i := i + 1;
    }
  }

  class ImagesListView {
    var visibility: Visibility

    constructor (initial: Visibility)
      ensures visibility == initial
    {
      visibility := initial;
    }

    /** Returns whether the menu is shown. */
    method ShowContextMenu(selected: seq<string>, coordinatesOf: string -> Coordinates, changedOf: string -> bool)
      returns (shown: bool)
      modifies this
      ensures shown <==> selected != []
      ensures !shown ==> visibility == old(visibility)
      ensures shown ==> visibility == MenuVisibility(|selected|,
        CountWithCoordinates(selected, coordinatesOf), CountChanged(selected, changedOf))
    {
      var allPaths := |selected|;
      if allPaths == 0 {
        return false;
      }

      var hasCoordinates := 0;
      var changed := 0;
      var i := 0;
      while i < |selected|
        invariant i <= |selected|
        invariant hasCoordinates == CountWithCoordinates(selected[..i], coordinatesOf)
        invariant changed == CountChanged(selected[..i], changedOf)
      {
        assert selected[..i + 1][..i] == selected[..i];
        if coordinatesOf(selected[i]) != NoCoordinates {
          hasCoordinates := hasCoordinates + 1;
        }
        if changedOf(selected[i]) {
          changed := changed + 1;
        }
        i := i + 1;
      }
      assert selected[..i] == selected;

      visibility := Visibility(hasCoordinates == 0, hasCoordinates > 0, hasCoordinates == allPaths,
                               hasCoordinates > 0, changed > 0);
      return true;
    }
  }
}
