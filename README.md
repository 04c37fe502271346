# KGeoTag core, modelled in Dafny

KGeoTag assigns GPS coordinates to photos by matching their dates against
GPX track logs. This project models what that program keeps, and how
it changes:

- the image ledger (`ImagesModel`). It holds one record per loaded image and a path list sorted by date. The record tracks the original and the current coordinates and the match type.
- the loading of GPX track logs into the map's segment list and time index (`MapWidget::addGpx`).
- the view filter in front of each images list: which rows it shows, and what a drop of files does.
- the images list widget's item maintenance. This covers the elevation values it writes back to the cache and the sorted bookmark submenu.
- the settings store: defaults, round trips and the pen-style table.
- the availability rule of the images view's context menu.

Files and modules:

| file | module | models |
|---|---|---|
| `kgeotag.dfy` | `KGeoTag` | the shared `Coordinates`, `NoCoordinates`, `MatchType` and `Option` |
| `ledger.dfy` | `Ledger` | `src/ImagesModel.cpp`: class `ImagesModel` over a path list and a record map |
| `tracks.dfy` | `TrackLoading` | `src/MapWidget.cpp`: the reader loop as a fold `Run` over tokens, and class `MapWidget` |
| `view_filter.dfy` | `ViewFilter` | `src/ImagesViewFilter.cpp` |
| `images_list.dfy` | `ListMaintenance` | `src/ImagesList.cpp`: class `ImagesList` over a sequence of items |
| `bookmarks.dfy` | `Bookmarks` | the bookmark submenu of `src/ImagesList.cpp` and `src/ImagesListView.cpp` |
| `settings.dfy` | `SettingsStore` | `src/Settings.cpp`: class `Settings` over a key/value map |
| `context_menu.dfy` | `ContextMenu` | `src/ImagesListView.cpp` |

Some things the program gets from its libraries become inputs to the model:

- The image decoder, the metadata reader and the file system are the fields of an `ImageFile` value: whether the image and the metadata load, the three candidate dates, and the GPS fix.
- The XML reader is a sequence of `Token`s.
- The ISO date parser is a function parameter `parse`.
- The image cache is queried through lookup functions, or through an `ImagesModel`.

## Model

| member | source | states |
|---|---|---|
| `KGeoTag.WithAlt` | src/ImagesModel.cpp:238-241 | only the altitude changes: longitude, latitude and the set flag are kept |
| `Ledger.LoadOutcome` | src/ImagesModel.cpp:113-128 | the four load results, each as an if-and-only-if: the re-load guard comes first, then image failure, then metadata failure |
| `Ledger.ImageDate` | src/ImagesModel.cpp:138-149 | the date is the metadata date if valid, else the file birth time if valid, else the last-modified time |
| `Ledger.NewRecord` | src/ImagesModel.cpp:151-158 | a fresh record is never changed and has coordinates exactly when the file has a GPS fix; its match type is taken to be NotMatched (see "Left out") |
| `Ledger.InsertAt` | src/ImagesModel.cpp:181-184 | inserting at a row shifts the later entries by one and leaves the earlier ones in place |
| `Ledger.InsertionRow` | src/ImagesModel.cpp:170-177 | the row is past every entry dated at or before the new date, and stops at the first later one |
| `Ledger.InsertionRowUnique` | src/ImagesModel.cpp:170-177 | these two properties determine the insertion row |
| `Ledger.FindRow` | src/ImagesModel.cpp:170-177 | the search loop finds exactly the insertion row |
| `Ledger.InsertKeepsSorted` | src/ImagesModel.cpp:170-184 | inserting at the insertion row keeps the list sorted by date; the new path comes after every equal or earlier date and before every later one |
| `Ledger.InsertKeepsUnique` | src/ImagesModel.cpp:181-184 | the list grows by exactly the new path, with no duplicate, as a multiset identity |
| `Ledger.ChangedPaths` | src/ImagesModel.cpp:203-213 | the changed-image report over the path list; `ChangedPathsMembers` states its members and `ChangedPathsConcat` its order |
| `Ledger.ChangedPathsMembers` | src/ImagesModel.cpp:203-213 | a path is reported changed if and only if it is listed and its coordinates differ from its original ones |
| `Ledger.ChangedPathsConcat` | src/ImagesModel.cpp:203-213 | the report follows list order: the report of a concatenation is the concatenated reports |
| `Ledger.UpdateAffectsOnlyPath` | src/ImagesModel.cpp:230-260 | replacing one path's record changes the report for that path only |
| `Ledger.Assigned` | src/ImagesModel.cpp:230-236 | assignment sets coordinates and match type, keeps the original coordinates, and leaves the image changed exactly when the new coordinates differ from them |
| `Ledger.WithElevation` | src/ImagesModel.cpp:238-241 | an elevation update changes only the altitude, and keeps the original coordinates and the match type |
| `Ledger.Reset` | src/ImagesModel.cpp:243-249 | discarding changes leaves the record unchanged with match type NotMatched |
| `Ledger.Saved` | src/ImagesModel.cpp:256-260 | saving makes the current coordinates the original ones, so the record is no longer changed |
| `Ledger.ResetIdempotent` | src/ImagesModel.cpp:243-249 | discarding changes twice is the same as discarding them once |
| `Ledger.SavedIdempotent` | src/ImagesModel.cpp:243-260 | saving is idempotent, and discarding after saving keeps the saved coordinates |
| `Ledger.InsertKeepsWellFormed` | src/ImagesModel.cpp:170-184 | a successful load keeps every path recorded, unique and sorted by date, and the new image is not changed |
| `Ledger.ImagesModel.AddImage` | src/ImagesModel.cpp:110-190 | the result is `LoadOutcome`, and every failure leaves both containers unchanged. On success the path goes in at the insertion row, its record is fresh and not changed, and the invariant (sorted by date, no duplicates, a record for every path) holds |
| `Ledger.ImagesModel.Contains` | src/ImagesModel.cpp:220-223 | a listed path has a record, and a lookup returns it |
| `Ledger.ImagesModel.CoordinatesOf` | src/ImagesModel.cpp:225-228 | the stored coordinates, or NoCoordinates for an unknown path |
| `Ledger.ImagesModel.MatchTypeOf` | src/ImagesModel.cpp:262-265 | the stored match type, or NotMatched for an unknown path |
| `Ledger.ImagesModel.ChangedImages` | src/ImagesModel.cpp:203-213 | exactly the changed paths, in list order |
| `Ledger.ImagesModel.SetCoordinates` | src/ImagesModel.cpp:230-236 | only the path's record changes, and it becomes `Assigned` |
| `Ledger.ImagesModel.SetElevation` | src/ImagesModel.cpp:238-241 | only the path's altitude changes |
| `Ledger.ImagesModel.ResetChanges` | src/ImagesModel.cpp:243-249 | only the path's record changes, and the path leaves the changed report |
| `Ledger.ImagesModel.SetSaved` | src/ImagesModel.cpp:256-260 | only the path's record changes, and the path leaves the changed report |
| `TrackLoading.Run` | src/MapWidget.cpp:62-89 | the reader loop as a fold over the tokens; `PointConservation`, `TracksGrowByNonEmpty`, `ErrorTruncates`, `PointsOnlyGrow`, `RunSplit`, `LastPointIsCurrent` and `RepeatedTimestampKeepsLast` state what it does |
| `TrackLoading.TextOf` | src/MapWidget.cpp:76-77 | the text read after a `time` start tag: that of character data, a comment, a DTD or an entity reference; none for element tags and errors |
| `TrackLoading.Load` | src/MapWidget.cpp:50-91 | one whole load from the current tracks and time index; `LoadPointBound`, `TracksIndependent` and `LoadTwiceDuplicates` state what it does, and `MapWidget.AddGpx` is proved equal to it |
| `TrackLoading.FlattenAppend` | src/MapWidget.cpp:81-84 | appending a segment appends its points |
| `TrackLoading.TracksGrowByNonEmpty` | src/MapWidget.cpp:81-84 | the loop only appends to the track list, and every segment it appends is non-empty |
| `TrackLoading.PointConservation` | src/MapWidget.cpp:62-89 | every `trkpt` read lands once, in document order, in the flushed segments or the pending line; a flushed segment is cleared, so no point is in two segments |
| `TrackLoading.ProcessedBound` | src/MapWidget.cpp:67-73 | at most one point is read per `trkpt` start tag |
| `TrackLoading.LoadPointBound` | src/MapWidget.cpp:62-89 | a load adds at most as many points to the tracks as the stream has `trkpt` tags |
| `TrackLoading.ErrorTruncates` | src/MapWidget.cpp:62 | the loop stops at the first error and keeps everything it had accumulated before it |
| `TrackLoading.TracksIndependent` | src/MapWidget.cpp:50-91 | the segments a load appends do not depend on the tracks it starts from |
| `TrackLoading.LoadTwiceDuplicates` | src/MapWidget.cpp:50-91 | there is no re-load guard: loading the same stream twice appends its segments twice |
| `TrackLoading.PointsOnlyGrow` | src/MapWidget.cpp:85-86 | the time index only gains keys |
| `TrackLoading.LastPointRead` | src/MapWidget.cpp:67-73 | after a pass the reader holds the longitude and latitude of the last `trkpt` read, or its earlier ones if none was read |
| `TrackLoading.RunSplit` | src/MapWidget.cpp:62-89 | a pass over an error-free prefix that leaves no `time` start waiting for its text, then over the rest, is one pass over both |
| `TrackLoading.LastPointIsCurrent` | src/MapWidget.cpp:67-86 | in any stream, a `time` end tag writes into the time index, under the time last read, the longitude and latitude of the last `trkpt` read before it (or the earlier ones if none), and the pass goes on from that state |
| `TrackLoading.RepeatedTimestampKeepsLast` | src/MapWidget.cpp:85-86 | two `time` end tags under the same time, whatever lies between them: the index keeps the later write, which is the last `trkpt` read before it |
| `TrackLoading.MapWidget.AddGpx` | src/MapWidget.cpp:50-91 | the loop leaves tracks and time index exactly as the fold `Load` does, and the image positions alone |
| `TrackLoading.MapWidget.AddImage` | src/MapWidget.cpp:123-126 | one position per path, overwriting any earlier one, with nothing else changed |
| `ViewFilter.FilterAcceptsRow` | src/ImagesViewFilter.cpp:42-53 | which rows a view shows; `AllImagesAcceptsEveryRow` and `AssignedAndUnassignedPartition` state the rule |
| `ViewFilter.AllImagesAcceptsEveryRow` | src/ImagesViewFilter.cpp:44-46 | the view of all images shows every row |
| `ViewFilter.AssignedAndUnassignedPartition` | src/ImagesViewFilter.cpp:48-52 | a row is in the assigned view if and only if its coordinates are set, and then it is not in the unassigned view |
| `ViewFilter.DropGuard` | src/ImagesViewFilter.cpp:93-95 | copy or move, and a URI list present; shared by both drop functions |
| `ViewFilter.CanDropMimeData` | src/ImagesViewFilter.cpp:71-88 | whether a drag may be dropped; `CanDropRule` states its three cases and `CanDropImpliesDropAccepted` relates it to the drop |
| `ViewFilter.CanDropRule` | src/ImagesViewFilter.cpp:71-88 | no copy or move, or no URLs: refused; a drag carrying this view's own tag: refused; anything else: accepted |
| `ViewFilter.AddPaths` | src/ImagesViewFilter.cpp:100-113 | the paths to load; `AddPathsMembers` states its members, `AddPathsConcat` its order and `DropListsDisjoint` its separation from the removal list |
| `ViewFilter.RemovePaths` | src/ImagesViewFilter.cpp:100-113 | the paths to strip of coordinates; `RemovePathsMembers` states its members and `RemovePathsConcat` its order |
| `ViewFilter.Requests` | src/ImagesViewFilter.cpp:115-121 | the emitted requests in emission order; `DropOutcome` states the order and when each is emitted |
| `ViewFilter.DropSpec` | src/ImagesViewFilter.cpp:90-124 | the result of a drop; `DropOutcome` and `EmptyUriListAccepted` state it |
| `ViewFilter.AddPathsMembers` | src/ImagesViewFilter.cpp:100-113 | a dropped path is requested for loading if and only if it is a local file the model does not hold |
| `ViewFilter.RemovePathsMembers` | src/ImagesViewFilter.cpp:100-113 | a dropped path loses its coordinates if and only if it is a local file the model holds, the view is the unassigned one and the file has coordinates |
| `ViewFilter.DropListsDisjoint` | src/ImagesViewFilter.cpp:105-113 | no path is in both lists |
| `ViewFilter.AddPathsConcat` | src/ImagesViewFilter.cpp:100-113 | the load list keeps drop order |
| `ViewFilter.RemovePathsConcat` | src/ImagesViewFilter.cpp:100-113 | the removal list keeps drop order |
| `ViewFilter.DropStep` | src/ImagesViewFilter.cpp:100-113 | one more URL extends each list by exactly what that URL contributes |
| `ViewFilter.DropOutcome` | src/ImagesViewFilter.cpp:90-124 | the drop succeeds exactly when the guard passes, even if nothing is requested; a refused drop emits nothing; at most two requests, each with a non-empty list equal to the removal or the load list; the removal request is emitted exactly when that list is non-empty, the load request likewise, and removal always comes first |
| `ViewFilter.EmptyUriListAccepted` | src/ImagesViewFilter.cpp:93-123 | a copy or move whose URI list is present but empty is accepted and emits nothing |
| `ViewFilter.CanDropImpliesDropAccepted` | src/ImagesViewFilter.cpp:71-124 | every drop that may happen is accepted; the drop function also accepts the drags that carry this view's own tag |
| `ViewFilter.DropMimeData` | src/ImagesViewFilter.cpp:90-124 | the URL loop and the emissions yield `DropSpec`: acceptance and the requests in emission order |
| `ListMaintenance.Paths` | src/ImagesList.cpp:193-200 | one path per item, in item order |
| `ListMaintenance.FirstIndex` | src/ImagesList.cpp:167-173 | the first item with the path, or the item count when there is none |
| `ListMaintenance.FirstIndexPresent` | src/ImagesList.cpp:167-173 | the search finds a listed path inside the list |
| `ListMaintenance.FirstIndexOf` | src/ImagesList.cpp:167-173 | an index holding the path, with no earlier one, is the first index |
| `ListMaintenance.UpdateOrAdd` | src/ImagesList.cpp:158-191 | the list after an add-or-update; `UpdateOrAddCount` and `UpdateOrAddContents` state it |
| `ListMaintenance.RemoveFirst` | src/ImagesList.cpp:202-212 | the list after a removal; `RemoveFirstSpec` and `RemoveFirstUnique` state it |
| `ListMaintenance.UpdateOrAddCount` | src/ImagesList.cpp:175-186 | the count grows by one if and only if the path was absent; a list without duplicates never gains one |
| `ListMaintenance.UpdateOrAddContents` | src/ImagesList.cpp:181-182 | the item for the path carries the cache's changed flag and match type; every item for another path is kept |
| `ListMaintenance.RemoveFirstSpec` | src/ImagesList.cpp:202-212 | an absent path changes nothing; otherwise exactly the first item with the path is gone |
| `ListMaintenance.RemoveFirstUnique` | src/ImagesList.cpp:202-212 | in a list without duplicates, removal leaves no item with the path and no duplicate |
| `ListMaintenance.ElevationProcessed` | src/ImagesList.cpp:287-301 | a target that is not an image writes nothing; an image gets the cached coordinates with only the altitude replaced |
| `ListMaintenance.DialogValue` | src/ImagesList.cpp:276-279 | the dialog's value lies in [-12000, 8900], and a value within those bounds is kept |
| `ListMaintenance.SetElevation` | src/ImagesList.cpp:272-285 | a cancelled dialog writes nothing; an accepted one writes the cached coordinates with the dialog's value as altitude, which lies in [-12000, 8900], and keeps longitude, latitude and the set flag |
| `ListMaintenance.ImagesList.AddOrUpdateImage` | src/ImagesList.cpp:158-191 | the search loop and the update give `UpdateOrAdd`; afterwards the path is listed, the count grew by one exactly when it was new, and no two items share a path |
| `ListMaintenance.ImagesList.AllImages` | src/ImagesList.cpp:193-200 | one path per item, in list order |
| `ListMaintenance.ImagesList.RemoveImage` | src/ImagesList.cpp:202-212 | the search loop and the removal give `RemoveFirst`; afterwards no item has the path, and no two items share a path |
| `Bookmarks.BelowIrreflexive` | src/ImagesList.cpp:313 | the label order is irreflexive |
| `Bookmarks.BelowTransitive` | src/ImagesList.cpp:313 | the label order is transitive |
| `Bookmarks.BelowTotal` | src/ImagesList.cpp:313 | of two distinct labels, one is below the other |
| `Bookmarks.InsertLabel` | src/ImagesList.cpp:313 | inserting a new label keeps the list ascending and adds exactly that label |
| `Bookmarks.BelowAllAfterFirst` | src/ImagesList.cpp:313 | a label below the head of an ascending list is below all of it |
| `Bookmarks.SortedLabels` | src/ImagesList.cpp:313 | the sort gives the label set in strictly ascending order |
| `Bookmarks.BookmarkEntries` | src/ImagesList.cpp:303-320 | no bookmarks: one placeholder entry; otherwise one entry per label, in ascending order (the view builds the same submenu at src/ImagesListView.cpp:92-107) |
| `SettingsStore.IndexOf` | src/Settings.cpp:236 | the first index of an entry, or -1 exactly when the entry is absent |
| `SettingsStore.EncodeStyle` | src/Settings.cpp:234-237 | a tabled style is stored as the word at the same table index |
| `SettingsStore.DecodeStyle` | src/Settings.cpp:239-247 | a tabled word reads back as the style at the same index; any other word reads back as DotLine |
| `SettingsStore.TablesAligned` | src/Settings.cpp:49-62 | the two tables are equally long and neither repeats an entry |
| `SettingsStore.IndexOfDistinct` | src/Settings.cpp:49-62 | in a table without repeats, an entry's index is its position |
| `SettingsStore.StyleRoundTrip` | src/Settings.cpp:234-247 | each of the five tabled styles reads back after saving |
| `SettingsStore.WordRoundTrip` | src/Settings.cpp:234-247 | each tabled word maps back to itself through its style |
| `SettingsStore.DotLineFallback` | src/Settings.cpp:241-246 | DotLine is read back if and only if the word is "dots" or the table lacks it |
| `SettingsStore.ToInt` | src/Settings.cpp:154 | an integer reads back as itself, a boolean as 1 or 0 |
| `SettingsStore.ToBool` | src/Settings.cpp:266 | a boolean reads back as itself, an integer as whether it is non-zero; empty text and "0" read as false |
| `SettingsStore.LowerChar` | src/Settings.cpp:266 | an ASCII capital maps to its small letter, and every other character to itself |
| `SettingsStore.Lower` | src/Settings.cpp:266 | lower-casing keeps the length and maps each character by `LowerChar` |
| `SettingsStore.TextReading` | src/Settings.cpp:129 | text reads as false if and only if it is empty, "0" or "false" in any letter case |
| `SettingsStore.TextFalseAnyCase` | src/Settings.cpp:266 | every spelling of "false" in upper or lower case reads as false |
| `SettingsStore.ToText` | src/Settings.cpp:164 | text reads back as itself, anything else as the empty string |
| `SettingsStore.ToColor` | src/Settings.cpp:226 | a colour reads back as itself, anything else as the invalid colour |
| `SettingsStore.IntSetting` | src/Settings.cpp:152-155 | an unset key gives the default, and a stored integer gives itself |
| `SettingsStore.FloaterKey` | src/Settings.cpp:116 | a floater's key is the group prefix followed by its name |
| `SettingsStore.FloaterName` | src/Settings.cpp:128-130 | a key of the floater group gives back the non-empty name it was built from |
| `SettingsStore.FloatersRoundTrip` | src/Settings.cpp:112-133 | visibilities saved under non-empty names read back unchanged |
| `SettingsStore.FloaterKeyInjective` | src/Settings.cpp:116 | distinct floater names have distinct keys |
| `SettingsStore.Settings.Zoom` | src/Settings.cpp:152-155 | 1520 when unset, else the stored integer |
| `SettingsStore.Settings.SaveZoom` | src/Settings.cpp:147-150 | writes the key alone, and the zoom reads back |
| `SettingsStore.Settings.LastOpenPath` | src/Settings.cpp:162-165 | empty when unset, else the stored text |
| `SettingsStore.Settings.SaveLastOpenPath` | src/Settings.cpp:157-160 | writes the key alone, and the path reads back |
| `SettingsStore.Settings.ThumbnailSize` | src/Settings.cpp:172-176 | always square; 32 by 32 when unset |
| `SettingsStore.Settings.SaveThumbnailSize` | src/Settings.cpp:167-170 | writes the key alone, and the square size reads back |
| `SettingsStore.Settings.PreviewSize` | src/Settings.cpp:183-187 | always square; 400 by 400 when unset |
| `SettingsStore.Settings.SavePreviewSize` | src/Settings.cpp:178-181 | writes the key alone, and the square size reads back |
| `SettingsStore.Settings.ExactMatchTolerance` | src/Settings.cpp:194-197 | 10 when unset, else the stored integer |
| `SettingsStore.Settings.SaveExactMatchTolerance` | src/Settings.cpp:189-192 | writes the key alone, and the value reads back |
| `SettingsStore.Settings.MaximumInterpolationInterval` | src/Settings.cpp:204-207 | -1 when unset, else the stored integer |
| `SettingsStore.Settings.SaveMaximumInterpolationInterval` | src/Settings.cpp:199-202 | writes the key alone, and the value reads back |
| `SettingsStore.Settings.MaximumInterpolationDistance` | src/Settings.cpp:214-217 | -1 when unset, else the stored integer |
| `SettingsStore.Settings.SaveMaximumInterpolationDistance` | src/Settings.cpp:209-212 | writes the key alone, and the value reads back |
| `SettingsStore.Settings.TrackWidth` | src/Settings.cpp:254-257 | 3 when unset, else the stored integer |
| `SettingsStore.Settings.SaveTrackWidth` | src/Settings.cpp:249-252 | writes the key alone, and the width reads back |
| `SettingsStore.Settings.CreateBackups` | src/Settings.cpp:264-267 | true when unset, else the stored boolean |
| `SettingsStore.Settings.SaveCreateBackups` | src/Settings.cpp:259-262 | writes the key alone, and the flag reads back |
| `SettingsStore.Settings.TrackColor` | src/Settings.cpp:224-232 | always a valid colour: the stored one when it is valid, else (255, 0, 255, 150) |
| `SettingsStore.Settings.SaveTrackColor` | src/Settings.cpp:219-222 | writes the key alone; a valid colour reads back, an invalid one reads back as the fallback |
| `SettingsStore.Settings.TrackStyle` | src/Settings.cpp:239-247 | a tabled style; DotLine when the key is unset or holds a word the table lacks |
| `SettingsStore.Settings.SaveTrackStyle` | src/Settings.cpp:234-237 | only tabled styles may be saved; writes the key alone, and the style reads back |
| `SettingsStore.Settings.SaveFloatersVisibility` | src/Settings.cpp:112-118 | every visibility is written under its floater key; no key is deleted, and every key outside the written ones keeps its value |
| `SettingsStore.Settings.FloatersVisibility` | src/Settings.cpp:120-133 | every key of the floater group, by name, with its value read as a boolean, and nothing else |
| `ContextMenu.CountWithCoordinates` | src/ImagesListView.cpp:202-211 | how many selected images have coordinates; `CountWithCoordinatesSpec` states its bounds and extremes |
| `ContextMenu.CountChanged` | src/ImagesListView.cpp:202-211 | how many selected images are changed; `CountChangedSpec` states its bounds and its zero case |
| `ContextMenu.MenuVisibility` | src/ImagesListView.cpp:213-217 | the five flags from the two counts; `VisibilityRule` states them over the selection |
| `ContextMenu.CountWithCoordinatesSpec` | src/ImagesListView.cpp:202-211 | 0 ≤ count ≤ selection size; the count is 0 iff no selected image has coordinates, and full iff all have |
| `ContextMenu.CountChangedSpec` | src/ImagesListView.cpp:202-211 | 0 ≤ count ≤ selection size; the count is 0 iff no selected image is changed |
| `ContextMenu.VisibilityRule` | src/ImagesListView.cpp:213-217 | "set manually" iff no image has coordinates, "edit" iff one has, so exactly one of the two; "lookup elevation" iff all have; "remove" iff one has; "discard" iff one is changed |
| `ContextMenu.CheckCenterImage` | src/ImagesListView.cpp:170-175 | whether centring is requested; `FreshImageCentredIffGps` and `CenterAgreesWithMenu` state it |
| `ContextMenu.FreshImageCentredIffGps` | src/ImagesListView.cpp:170-175 | a freshly loaded image is centred on exactly when its file has a GPS fix (with `NewRecord`, src/ImagesModel.cpp:151-158) |
| `ContextMenu.CenterAgreesWithMenu` | src/ImagesListView.cpp:170-217 | for a single selected image, centring on it and offering to edit its coordinates go together |
| `ContextMenu.SelectedPaths` | src/ImagesListView.cpp:160-168 | one path per selected index, in selection order |
| `ContextMenu.ImagesListView.ShowContextMenu` | src/ImagesListView.cpp:194-220 | an empty selection shows no menu and changes no flag; otherwise the counting loop sets the flags as `MenuVisibility` of the two counts |

## Left out

- Image, metadata and thumbnail work: decoding, metadata reading and scaling are library calls. Their outcomes are the fields of `ImageFile`.
- The invalid last-modified time: the model treats the last-modified time as always valid.
- The record type: it follows `src/ImagesModel.cpp`. A hash lookup of an absent path yields a default record whose date 0 stands for an invalid date.
- `NewRecord`: the match type of a fresh record is taken to be NotMatched. `ImagesModel::addImage` never assigns it and `src/ImagesModel.h` declares the field without an initialiser, so the program leaves it indeterminate until a match is written.
- `ImagesModel::data`: role dispatch, colours, fonts and translated strings are presentation. The model-view notifications of `ImagesModel` are left out too: `beginInsertRows`/`endInsertRows` around the insert (`src/ImagesModel.cpp:181-184`) and the `dataChanged` signals (`src/ImagesModel.cpp:187`, 192-195, 235 and 248). Only the data they announce is modelled.
- The matching engine: exact and interpolated matching, distances and drift correction. Match types are tags written by callers.
- XML tokenizing and ISO 8601 date parsing: they become tokens and the `parse` parameter. Invalid input is one `Invalid` token.
- Longitude, latitude and altitude are `real` and compared only by equality. No floating-point rounding is modelled.
- `Coordinates.h` is not part of this model. Its equality is taken to be field-wise, and its default value to equal `NoCoordinates`.
- The uninitialised longitude and latitude before the first `trkpt` are taken as 0. The initial time is the invalid date.
- Display order: `ImagesList` turns on the widget's own sorting (`src/ImagesList.cpp:60`), so it shows its items sorted by the widget, not in insertion order. The model keeps them in insertion order and states its properties by membership and count. The views of `ImagesListView` show the rows in `ImagesModel`'s date order, which `InsertKeepsSorted` keeps.
- `SortedLabels`: it orders labels by character code. It does not model the UTF-16 code-unit comparison of `QString`.
- `ImagesList::setElevation`: the dialog's limit on its input is modelled as a clamp to [-12000, 8900]. Its one-decimal precision is left out.
- `ImagesList::showContextMenu`: an enabled-state rule that looks only at the current item, not at a selection, and counts nothing. It does nothing without a current item. "Lookup elevation" follows a setting flag, "remove coordinates" the item's `isSet`, and "discard changes" its changed flag. It is widget-only. Also left out: the `imageSelected` and `checkUpdatePreview` signals, cursor handling and `clearSelection`.
- `Target`: it distinguishes only image targets from all others. The elevation lookup itself is network I/O.
- `ToInt`: does not parse text; text reads as 0. The modelled store keeps typed values. The model does not cover settings read back as text from the settings file after a restart; there the program parses the text into integers.
- `ToBool`: lower-cases ASCII letters only, not the full Unicode case mapping.
- `ToText`: gives the empty string for any value that is not text, and a floater-group key is not normalised.
- `ToColor`: does not convert a colour name stored as text (such as "#ff00ff") into a colour; any value that is not a colour reads as the invalid colour.
- `DropMimeData`: the two requests are modelled as values in emission order, not as signals delivered to receivers.
- Window geometry, window state and the map centre: they are byte arrays and floating-point values outside the modelled settings.
- UI: painting, map centring and zoom, mouse, key and drag events, menus and dialogs. This includes `MainWindow`, `PreviewWidget`, `SettingsDialog` and `RetrySkipCancelDialog`.
