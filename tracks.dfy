/**
  Loading a GPX track into the map: a pass over the XML reader's tokens that
  collects track points into line strings, one per non-empty track segment,
  and records a position for every timestamp. The XML tokenizer and the
  ISO 8601 date parser are foreign; the tokens arrive as a sequence and the
  parser as a function parameter.
 */
module TrackLoading {

  /** A token of the XML stream reader. Attribute values arrive already
      converted to numbers; a missing or unreadable one reads as 0. Any other
      token carries the text the reader reports for it: the text of a
      comment, a DTD or an entity reference, and nothing for the remaining
      kinds. Invalid is the token the reader yields when it hits an error. */
  datatype Token =
    | StartElement(name: string, attributes: map<string, real>)
    | EndElement(name: string)
    | Characters(text: string)
    | OtherToken(text: string)
    | Invalid

  datatype DateTime = InvalidDateTime | DateTime(msecs: int)

  datatype LonLat = LonLat(lon: real, lat: real)

  type LineString = seq<LonLat>

  /** The loop's state: the local segment accumulator, the last longitude,
      latitude and time read, and the widget's track list and time index. */
  datatype Reader = Reader(
    line: LineString,
    lon: real,
    lat: real,
    time: DateTime,
    tracks: seq<LineString>,
    points: map<DateTime, LonLat>)

  function Attribute(attributes: map<string, real>, key: string): real
  {
    if key in attributes then attributes[key] else 0.0
  }

  /** The text the reader reports for a token; element tags and errors have none. */
  function TextOf(t: Token): (text: string)
    ensures t.Characters? || t.OtherToken? ==> text == t.text
    ensures t.StartElement? || t.EndElement? || t.Invalid? ==> text == ""
  {
    match t
    case Characters(text) => text
    case OtherToken(text) => text
    case _ => ""
  }

  /** The state at the start of a load; the coordinates not yet read are 0. */
  function Start(tracks: seq<LineString>, points: map<DateTime, LonLat>): Reader
  {
    Reader([], 0.0, 0.0, InvalidDateTime, tracks, points)
  }

  /** The reader loop over the remaining tokens. A `time` start tag consumes
      the next token as its text; the loop stops at the end of the tokens or
      right after an Invalid one. */
  function Run(r: Reader, toks: seq<Token>, parse: string -> DateTime): Reader
    decreases |toks|
  {
    if toks == [] then r
    else match toks[0]
      case Invalid => r
      case StartElement(name, attributes) =>
        if name == "trkpt" then
          var lon, lat := Attribute(attributes, "lon"), Attribute(attributes, "lat");
          Run(r.(lon := lon, lat := lat, line := r.line + [LonLat(lon, lat)]), toks[1..], parse)
        else if name == "time" then
          if |toks| == 1 || toks[1].Invalid? then r.(time := parse(""))
          else Run(r.(time := parse(TextOf(toks[1]))), toks[2..], parse)
        else Run(r, toks[1..], parse)
      case EndElement(name) =>
        if name == "trkseg" && r.line != [] then
          Run(r.(tracks := r.tracks + [r.line], line := []), toks[1..], parse)
        else if name == "time" then
          Run(r.(points := r.points[r.time := LonLat(r.lon, r.lat)]), toks[1..], parse)
        else Run(r, toks[1..], parse)
      case Characters(_) => Run(r, toks[1..], parse)
      case OtherToken(_) => Run(r, toks[1..], parse)
  }

  /** The result of loading a token stream into the given tracks and index. */
  function Load(tracks: seq<LineString>, points: map<DateTime, LonLat>, toks: seq<Token>, parse: string -> DateTime): Reader
  {
    Run(Start(tracks, points), toks, parse)
  }

  /** The track points the loop actually reads, in document order: a `trkpt`
      swallowed as the text of a `time` tag, or after an error, is not read. */
  function Processed(toks: seq<Token>): seq<LonLat>
    decreases |toks|
  {
    if toks == [] then []
    else match toks[0]
      case Invalid => []
      case StartElement(name, attributes) =>
        if name == "trkpt" then [LonLat(Attribute(attributes, "lon"), Attribute(attributes, "lat"))] + Processed(toks[1..])
        else if name == "time" then
          if |toks| == 1 || toks[1].Invalid? then [] else Processed(toks[2..])
        else Processed(toks[1..])
      case EndElement(_) => Processed(toks[1..])
      case Characters(_) => Processed(toks[1..])
      case OtherToken(_) => Processed(toks[1..])
  }

  predicate IsTrkpt(t: Token)
  {
    t.StartElement? && t.name == "trkpt"
  }

  /** The number of `trkpt` start tags in the stream. */
  function CountTrkpt(toks: seq<Token>): nat
  {
    if toks == [] then 0 else (if IsTrkpt(toks[0]) then 1 else 0) + CountTrkpt(toks[1..])
  }

  function Flatten(tracks: seq<LineString>): LineString
  {
    if tracks == [] then [] else Flatten(tracks[..|tracks| - 1]) + tracks[|tracks| - 1]
  }

  lemma FlattenAppend(tracks: seq<LineString>, line: LineString)
    ensures Flatten(tracks + [line]) == Flatten(tracks) + line
  {
    assert (tracks + [line])[..|tracks|] == tracks;
  }

  /** The loop only appends to the track list, and every segment it appends is non-empty. */
  lemma {:induction false} TracksGrowByNonEmpty(r: Reader, toks: seq<Token>, parse: string -> DateTime)
    ensures r.tracks <= Run(r, toks, parse).tracks
    ensures forall k | |r.tracks| <= k < |Run(r, toks, parse).tracks| :: Run(r, toks, parse).tracks[k] != []
    decreases |toks|
  {
    if toks != [] {
      match toks[0]
      case Invalid =>
      case StartElement(name, attributes) =>
        if name == "trkpt" {
          var lon, lat := Attribute(attributes, "lon"), Attribute(attributes, "lat");
          TracksGrowByNonEmpty(r.(lon := lon, lat := lat, line := r.line + [LonLat(lon, lat)]), toks[1..], parse);
        } else if name == "time" {
          if !(|toks| == 1 || toks[1].Invalid?) {
            TracksGrowByNonEmpty(r.(time := parse(TextOf(toks[1]))), toks[2..], parse);
          }
        } else {
          TracksGrowByNonEmpty(r, toks[1..], parse);
        }
      case EndElement(name) =>
        if name == "trkseg" && r.line != [] {
          var r' := r.(tracks := r.tracks + [r.line], line := []);
          TracksGrowByNonEmpty(r', toks[1..], parse);
          assert r'.tracks[|r.tracks|] == r.line;
        } else if name == "time" {
          TracksGrowByNonEmpty(r.(points := r.points[r.time := LonLat(r.lon, r.lat)]), toks[1..], parse);
        } else {
          TracksGrowByNonEmpty(r, toks[1..], parse);
        }
      case Characters(_) => TracksGrowByNonEmpty(r, toks[1..], parse);
      case OtherToken(_) => TracksGrowByNonEmpty(r, toks[1..], parse);
    }
  }

  /** Every point read lands once, in order, in the segments flushed so far
      followed by the open accumulator: no point is lost or repeated, and none
      lands in two segments. */
  lemma {:induction false} PointConservation(r: Reader, toks: seq<Token>, parse: string -> DateTime)
    ensures Flatten(Run(r, toks, parse).tracks) + Run(r, toks, parse).line == Flatten(r.tracks) + r.line + Processed(toks)
    decreases |toks|
  {
    if toks != [] {
      match toks[0]
      case Invalid =>
      case StartElement(name, attributes) =>
        if name == "trkpt" {
          var lon, lat := Attribute(attributes, "lon"), Attribute(attributes, "lat");
          PointConservation(r.(lon := lon, lat := lat, line := r.line + [LonLat(lon, lat)]), toks[1..], parse);
        } else if name == "time" {
          if !(|toks| == 1 || toks[1].Invalid?) {
            PointConservation(r.(time := parse(TextOf(toks[1]))), toks[2..], parse);
          }
        } else {
          PointConservation(r, toks[1..], parse);
        }
      case EndElement(name) =>
        if name == "trkseg" && r.line != [] {
          PointConservation(r.(tracks := r.tracks + [r.line], line := []), toks[1..], parse);
          FlattenAppend(r.tracks, r.line);
        } else if name == "time" {
          PointConservation(r.(points := r.points[r.time := LonLat(r.lon, r.lat)]), toks[1..], parse);
        } else {
          PointConservation(r, toks[1..], parse);
        }
      case Characters(_) => PointConservation(r, toks[1..], parse);
      case OtherToken(_) => PointConservation(r, toks[1..], parse);
    }
  }

  /** At most one point is read per `trkpt` start tag. */
  lemma {:induction false} ProcessedBound(toks: seq<Token>)
    ensures |Processed(toks)| <= CountTrkpt(toks)
    decreases |toks|
  {
    if toks != [] {
      ProcessedBound(toks[1..]);
      if toks[0].StartElement? && toks[0].name == "time" && |toks| > 1 && !toks[1].Invalid? {
        ProcessedBound(toks[2..]);
        assert toks[1..][1..] == toks[2..];
      }
    }
  }

  /** A load adds to the tracks at most as many points as the stream has `trkpt`
      tags; the points after the last segment end are not added at all. */
  lemma LoadPointBound(tracks: seq<LineString>, points: map<DateTime, LonLat>, toks: seq<Token>, parse: string -> DateTime)
    ensures |Flatten(Load(tracks, points, toks, parse).tracks)| <= |Flatten(tracks)| + CountTrkpt(toks)
  {
    PointConservation(Start(tracks, points), toks, parse);
    ProcessedBound(toks);
    var r := Load(tracks, points, toks, parse);
    assert |Flatten(r.tracks)| + |r.line| == |Flatten(tracks)| + |Processed(toks)|;
  }

  /** The loop stops at the first error and keeps what it had accumulated
      before it: nothing after the error is read, and nothing is rolled back. */
  lemma {:induction false} ErrorTruncates(r: Reader, pre: seq<Token>, rest: seq<Token>, parse: string -> DateTime)
    requires Invalid !in pre
    ensures Run(r, pre + [Invalid] + rest, parse) == Run(r, pre, parse)
    decreases |pre|
  {
    var toks := pre + [Invalid] + rest;
    assert toks[..|pre|] == pre && toks[|pre|] == Invalid;
    if pre == [] {
    } else {
      assert toks[0] == pre[0];
      assert toks[1..] == pre[1..] + [Invalid] + rest;
      match pre[0]
      case StartElement(name, attributes) =>
        if name == "trkpt" {
          var lon, lat := Attribute(attributes, "lon"), Attribute(attributes, "lat");
          ErrorTruncates(r.(lon := lon, lat := lat, line := r.line + [LonLat(lon, lat)]), pre[1..], rest, parse);
        } else if name == "time" {
          if |pre| > 1 {
            assert toks[1] == pre[1];
            assert toks[2..] == pre[2..] + [Invalid] + rest;
            ErrorTruncates(r.(time := parse(TextOf(pre[1]))), pre[2..], rest, parse);
          }
        } else {
          ErrorTruncates(r, pre[1..], rest, parse);
        }
      case EndElement(name) =>
        if name == "trkseg" && r.line != [] {
          ErrorTruncates(r.(tracks := r.tracks + [r.line], line := []), pre[1..], rest, parse);
        } else if name == "time" {
          ErrorTruncates(r.(points := r.points[r.time := LonLat(r.lon, r.lat)]), pre[1..], rest, parse);
        } else {
          ErrorTruncates(r, pre[1..], rest, parse);
        }
      case Characters(_) => ErrorTruncates(r, pre[1..], rest, parse);
      case OtherToken(_) => ErrorTruncates(r, pre[1..], rest, parse);
    }
  }

  /** The state with the widget's track list and time index emptied. */
  function Strip(r: Reader): Reader
  {
    r.(tracks := [], points := map[])
  }

  /** The segments a pass appends do not depend on the tracks and index it starts from. */
  lemma {:induction false} TracksIndependent(r: Reader, toks: seq<Token>, parse: string -> DateTime)
    ensures Run(r, toks, parse).tracks == r.tracks + Run(Strip(r), toks, parse).tracks
    decreases |toks|
  {
    if toks != [] {
      match toks[0]
      case Invalid =>
      case StartElement(name, attributes) =>
        if name == "trkpt" {
          var lon, lat := Attribute(attributes, "lon"), Attribute(attributes, "lat");
          var r' := r.(lon := lon, lat := lat, line := r.line + [LonLat(lon, lat)]);
          TracksIndependent(r', toks[1..], parse);
          assert Strip(r).(lon := lon, lat := lat, line := r.line + [LonLat(lon, lat)]) == Strip(r');
        } else if name == "time" {
          if !(|toks| == 1 || toks[1].Invalid?) {
            var r' := r.(time := parse(TextOf(toks[1])));
            TracksIndependent(r', toks[2..], parse);
            assert Strip(r).(time := parse(TextOf(toks[1]))) == Strip(r');
          }
        } else {
          TracksIndependent(r, toks[1..], parse);
        }
      case EndElement(name) =>
        if name == "trkseg" && r.line != [] {
          var r' := r.(tracks := r.tracks + [r.line], line := []);
          var s' := Strip(r).(tracks := [] + [r.line], line := []);
          TracksIndependent(r', toks[1..], parse);
          TracksIndependent(s', toks[1..], parse);
          assert Strip(s') == Strip(r');
        } else if name == "time" {
          var r' := r.(points := r.points[r.time := LonLat(r.lon, r.lat)]);
          var s' := Strip(r).(points := map[][r.time := LonLat(r.lon, r.lat)]);
          TracksIndependent(r', toks[1..], parse);
          TracksIndependent(s', toks[1..], parse);
          assert Strip(s') == Strip(r');
        } else {
          TracksIndependent(r, toks[1..], parse);
        }
      case Characters(_) => TracksIndependent(r, toks[1..], parse);
      case OtherToken(_) => TracksIndependent(r, toks[1..], parse);
    }
  }

  /** There is no re-load guard: loading the same stream twice appends its
      segments twice. */
  lemma LoadTwiceDuplicates(tracks: seq<LineString>, points: map<DateTime, LonLat>, toks: seq<Token>, parse: string -> DateTime)
    ensures var once := Load(tracks, points, toks, parse);
      var twice := Load(once.tracks, once.points, toks, parse);
      var added := Load([], map[], toks, parse).tracks;
      twice.tracks == tracks + added + added
  {
    var once := Load(tracks, points, toks, parse);
    TracksIndependent(Start(tracks, points), toks, parse);
    TracksIndependent(Start(once.tracks, once.points), toks, parse);
    assert Strip(Start(tracks, points)) == Start([], map[]);
    assert Strip(Start(once.tracks, once.points)) == Start([], map[]);
  }

  /** The time index only gains keys. */
  lemma {:induction false} PointsOnlyGrow(r: Reader, toks: seq<Token>, parse: string -> DateTime)
    ensures r.points.Keys <= Run(r, toks, parse).points.Keys
    decreases |toks|
  {
    if toks != [] {
      match toks[0]
      case Invalid =>
      case StartElement(name, attributes) =>
        if name == "trkpt" {
          var lon, lat := Attribute(attributes, "lon"), Attribute(attributes, "lat");
          PointsOnlyGrow(r.(lon := lon, lat := lat, line := r.line + [LonLat(lon, lat)]), toks[1..], parse);
        } else if name == "time" {
          if !(|toks| == 1 || toks[1].Invalid?) {
            PointsOnlyGrow(r.(time := parse(TextOf(toks[1]))), toks[2..], parse);
          }
        } else {
          PointsOnlyGrow(r, toks[1..], parse);
        }
      case EndElement(name) =>
        if name == "trkseg" && r.line != [] {
          PointsOnlyGrow(r.(tracks := r.tracks + [r.line], line := []), toks[1..], parse);
        } else if name == "time" {
          PointsOnlyGrow(r.(points := r.points[r.time := LonLat(r.lon, r.lat)]), toks[1..], parse);
        } else {
          PointsOnlyGrow(r, toks[1..], parse);
        }
      case Characters(_) => PointsOnlyGrow(r, toks[1..], parse);
      case OtherToken(_) => PointsOnlyGrow(r, toks[1..], parse);
    }
  }

  /** After a pass the reader's longitude and latitude are those of the last
      point read, or the previous ones if no point was read. */
  lemma {:induction false} LastPointRead(r: Reader, toks: seq<Token>, parse: string -> DateTime)
    ensures var p := Processed(toks); var r' := Run(r, toks, parse);
      if p == [] then r'.lon == r.lon && r'.lat == r.lat
      else LonLat(r'.lon, r'.lat) == p[|p| - 1]
    decreases |toks|
  {
    if toks != [] {
      match toks[0]
      case Invalid =>
      case StartElement(name, attributes) =>
        if name == "trkpt" {
          var lon, lat := Attribute(attributes, "lon"), Attribute(attributes, "lat");
          LastPointRead(r.(lon := lon, lat := lat, line := r.line + [LonLat(lon, lat)]), toks[1..], parse);
        } else if name == "time" {
          if !(|toks| == 1 || toks[1].Invalid?) {
            LastPointRead(r.(time := parse(TextOf(toks[1]))), toks[2..], parse);
          }
        } else {
          LastPointRead(r, toks[1..], parse);
        }
      case EndElement(name) =>
        if name == "trkseg" && r.line != [] {
          LastPointRead(r.(tracks := r.tracks + [r.line], line := []), toks[1..], parse);
        } else if name == "time" {
          LastPointRead(r.(points := r.points[r.time := LonLat(r.lon, r.lat)]), toks[1..], parse);
        } else {
          LastPointRead(r, toks[1..], parse);
        }
      case Characters(_) => LastPointRead(r, toks[1..], parse);
      case OtherToken(_) => LastPointRead(r, toks[1..], parse);
    }
  }

  /** No `time` start tag in the stream is left waiting for its text. */
  predicate Complete(toks: seq<Token>)
    decreases |toks|
  {
    if toks == [] then true
    else if toks[0].StartElement? && toks[0].name == "time" then |toks| >= 2 && Complete(toks[2..])
    else Complete(toks[1..])
  }

  /** A pass over a complete, error-free prefix and then over the rest is one
      pass over both. */
  lemma {:induction false} RunSplit(r: Reader, pre: seq<Token>, rest: seq<Token>, parse: string -> DateTime)
    requires Invalid !in pre && Complete(pre)
    ensures Run(r, pre + rest, parse) == Run(Run(r, pre, parse), rest, parse)
    decreases |pre|
  {
    if pre != [] {
      var toks := pre + rest;
      assert toks[0] == pre[0];
      assert pre[0] in pre;
      if pre[0].StartElement? && pre[0].name == "time" {
        assert pre[1] in pre;
        assert toks[1] == pre[1] && toks[2..] == pre[2..] + rest;
        RunSplit(r.(time := parse(TextOf(pre[1]))), pre[2..], rest, parse);
      } else {
        assert toks[1..] == pre[1..] + rest;
        match pre[0]
        case StartElement(name, attributes) =>
          if name == "trkpt" {
            var lon, lat := Attribute(attributes, "lon"), Attribute(attributes, "lat");
            RunSplit(r.(lon := lon, lat := lat, line := r.line + [LonLat(lon, lat)]), pre[1..], rest, parse);
          } else {
            RunSplit(r, pre[1..], rest, parse);
          }
        case EndElement(name) =>
          if name == "trkseg" && r.line != [] {
            RunSplit(r.(tracks := r.tracks + [r.line], line := []), pre[1..], rest, parse);
          } else if name == "time" {
            RunSplit(r.(points := r.points[r.time := LonLat(r.lon, r.lat)]), pre[1..], rest, parse);
          } else {
            RunSplit(r, pre[1..], rest, parse);
          }
        case Characters(_) => RunSplit(r, pre[1..], rest, parse);
        case OtherToken(_) => RunSplit(r, pre[1..], rest, parse);
      }
    } else {
      assert pre + rest == rest;
    }
  }

  /** A `time` end tag writes into the time index, under the time last read,
      the longitude and latitude of the last point read before it (or the
      previous ones if the prefix reads no point), and the pass goes on from
      there. */
  lemma LastPointIsCurrent(r: Reader, pre: seq<Token>, rest: seq<Token>, parse: string -> DateTime)
    requires Invalid !in pre && Complete(pre)
    ensures var m := Run(r, pre, parse); var p := Processed(pre);
      && Run(r, pre + [EndElement("time")] + rest, parse)
         == Run(m.(points := m.points[m.time := LonLat(m.lon, m.lat)]), rest, parse)
      && LonLat(m.lon, m.lat) == (if p == [] then LonLat(r.lon, r.lat) else p[|p| - 1])
  {
    assert pre + [EndElement("time")] + rest == pre + ([EndElement("time")] + rest);
    RunSplit(r, pre, [EndElement("time")] + rest, parse);
    assert ([EndElement("time")] + rest)[1..] == rest;
    LastPointRead(r, pre, parse);
  }

  /** Two `time` end tags under the same time: whatever lies between them, the
      index keeps the position written by the later one, which is the last
      point read before it. */
  lemma RepeatedTimestampKeepsLast(r: Reader, pre: seq<Token>, mid: seq<Token>, parse: string -> DateTime)
    requires Invalid !in pre && Complete(pre) && Invalid !in mid && Complete(mid)
    requires var m1 := Run(r, pre, parse);
      Run(m1.(points := m1.points[m1.time := LonLat(m1.lon, m1.lat)]), mid, parse).time == m1.time
    ensures var m1 := Run(r, pre, parse);
      var m2 := Run(m1.(points := m1.points[m1.time := LonLat(m1.lon, m1.lat)]), mid, parse);
      var p := Processed(mid);
      var index := Run(r, pre + [EndElement("time")] + mid + [EndElement("time")], parse).points;
      && m1.time in index && index[m1.time] == LonLat(m2.lon, m2.lat)
      && LonLat(m2.lon, m2.lat) == (if p == [] then LonLat(m1.lon, m1.lat) else p[|p| - 1])
  {
    var m1 := Run(r, pre, parse);
    var w := m1.(points := m1.points[m1.time := LonLat(m1.lon, m1.lat)]);
    LastPointIsCurrent(r, pre, mid + [EndElement("time")], parse);
    assert pre + [EndElement("time")] + mid + [EndElement("time")] == pre + [EndElement("time")] + (mid + [EndElement("time")]);
    LastPointIsCurrent(w, mid, [], parse);
    assert mid + [EndElement("time")] + [] == mid + [EndElement("time")];
  }

  class MapWidget {
    var tracks: seq<LineString>
    var points: map<DateTime, LonLat>
    var images: map<string, LonLat>

    constructor ()
      ensures tracks == [] && points == map[] && images == map[]
    {
      tracks, points, images := [], map[], map[];
    }

    method AddGpx(tokens: seq<Token>, parse: string -> DateTime)
      modifies this
      ensures tracks == Load(old(tracks), old(points), tokens, parse).tracks
      ensures points == Load(old(tracks), old(points), tokens, parse).points
      ensures images == old(images)
    {
      var lineString: LineString := [];
      var lon, lat := 0.0, 0.0;
      var time := InvalidDateTime;
      ghost var final := Load(tracks, points, tokens, parse);

      var i := 0;
      var failed := false;
      while i < |tokens| && !failed
        invariant i <= |tokens|
        invariant images == old(images)
        invariant failed ==> Reader(lineString, lon, lat, time, tracks, points) == final
        invariant !failed ==> Run(Reader(lineString, lon, lat, time, tracks, points), tokens[i..], parse) == final
        decreases |tokens| - i
      {
        ghost var rest := tokens[i..];
        var token := tokens[i];
        i := i + 1;
        assert rest[1..] == tokens[i..];
        match token {
          case Invalid =>
            failed := true;
          case StartElement(name, attributes) =>
            if name == "trkpt" {
              lon := Attribute(attributes, "lon");
              lat := Attribute(attributes, "lat");
              lineString := lineString + [LonLat(lon, lat)];
            } else if name == "time" {
              if i < |tokens| {
                var next := tokens[i];
                i := i + 1;
                assert rest[2..] == tokens[i..];
                time := parse(TextOf(next));
                failed := next.Invalid?;
              } else {
                time := parse("");
              }
            }
          case EndElement(name) =>
            if name == "trkseg" && lineString != [] {
              tracks := tracks + [lineString];
              lineString := [];
            } else if name == "time" {
              points := points[time := LonLat(lon, lat)];
            }
          case Characters(_) =>
          case OtherToken(_) =>
        }
      }
    }

    method AddImage(path: string, lon: real, lat: real)
      modifies this
      ensures images == old(images)[path := LonLat(lon, lat)]
      ensures tracks == old(tracks) && points == old(points)
    {
      images := images[path := LonLat(lon, lat)];
    }
  }
}
