/**
  The application settings: a key/value store in which every getter reads
  one key and falls back to a fixed default when the key is unset, and every
  setter writes one key. The track line style is stored as a word taken from
  a table aligned with the table of pen styles.
 */
module SettingsStore {

  datatype PenStyle = NoPen | SolidLine | DashLine | DotLine | DashDotLine | DashDotDotLine | CustomDashLine

  /** The two aligned tables: the pen style at index i is stored as the word at index i. */
  const StyleEnum: seq<PenStyle> := [SolidLine, DashLine, DotLine, DashDotLine, DashDotDotLine]
  const StyleString: seq<string> := ["solid", "dashes", "dots", "dash_dot", "dash_dot_dot"]

  /** The index of the first occurrence of x, or -1 when there is none. */
  function IndexOf<T(==)>(s: seq<T>, x: T): (i: int)
    ensures -1 <= i < |s|
    ensures i == -1 <==> x !in s
    ensures i >= 0 ==> s[i] == x && forall j | 0 <= j < i :: s[j] != x
  {
    if s == [] then -1
    else if s[0] == x then 0
    else
      var k := IndexOf(s[1..], x);
      if k == -1 then -1 else k + 1
  }

  /** The word a tabled style is stored as. */
  function EncodeStyle(style: PenStyle): (word: string)
    requires style in StyleEnum
    ensures word in StyleString
    ensures IndexOf(StyleString, word) == IndexOf(StyleEnum, style)
  {
    StyleString[IndexOf(StyleEnum, style)]
  }

  /** The style a stored word stands for: the tabled style at the word's
      index, or DotLine for a word the table lacks. */
  function DecodeStyle(word: string): (style: PenStyle)
    ensures style in StyleEnum
    ensures word in StyleString ==> IndexOf(StyleEnum, style) == IndexOf(StyleString, word)
    ensures word !in StyleString ==> style == DotLine
  {
    if word in StyleString then StyleEnum[IndexOf(StyleString, word)] else DotLine
  }

  /** Both tables are equally long and neither repeats an entry, so a table
      index determines the entry on either side. */
  lemma TablesAligned()
    ensures |StyleEnum| == |StyleString|
    ensures forall i, j | 0 <= i < j < |StyleEnum| :: StyleEnum[i] != StyleEnum[j]
    ensures forall i, j | 0 <= i < j < |StyleString| :: StyleString[i] != StyleString[j]
  {
  }

  lemma IndexOfDistinct<T>(s: seq<T>, i: nat)
    requires i < |s|
    requires forall a, b | 0 <= a < b < |s| :: s[a] != s[b]
    ensures IndexOf(s, s[i]) == i
  {
  }

  /** Every tabled style comes back from its stored word. */
  lemma StyleRoundTrip(style: PenStyle)
    requires style in StyleEnum
    ensures DecodeStyle(EncodeStyle(style)) == style
  {
    TablesAligned();
    var word := EncodeStyle(style);
    var k := IndexOf(StyleEnum, style);
    IndexOfDistinct(StyleEnum, IndexOf(StyleEnum, DecodeStyle(word)));
    assert IndexOf(StyleEnum, DecodeStyle(word)) == k;
  }

  /** Every tabled word comes back from the style it decodes to. */
  lemma WordRoundTrip(word: string)
    requires word in StyleString
    ensures EncodeStyle(DecodeStyle(word)) == word
  {
    TablesAligned();
    var style := DecodeStyle(word);
    IndexOfDistinct(StyleString, IndexOf(StyleString, EncodeStyle(style)));
  }

  /** DotLine is read back exactly for the word "dots" and for every word the
      table lacks. */
  lemma DotLineFallback(word: string)
    ensures DecodeStyle(word) == DotLine <==> word == "dots" || word !in StyleString
  {
    TablesAligned();
    if word in StyleString && DecodeStyle(word) == DotLine {
      IndexOfDistinct(StyleEnum, 2);
      IndexOfDistinct(StyleString, IndexOf(StyleString, word));
    }
  }

  /** A colour: invalid, or red, green, blue and alpha components. */
  datatype Color = InvalidColor | Rgba(r: int, g: int, b: int, a: int)

  predicate IsValidColor(c: Color)
  {
    c.Rgba? && 0 <= c.r <= 255 && 0 <= c.g <= 255 && 0 <= c.b <= 255 && 0 <= c.a <= 255
  }

  const TrackColorFallback: Color := Rgba(255, 0, 255, 150)

  datatype Size = Size(width: int, height: int)

  /** The kinds of stored value the settings use. */
  datatype Value = IntValue(n: int) | BoolValue(b: bool) | TextValue(t: string) | ColorValue(c: Color)

  /** Conversions of a stored value to the kind a getter asks for. */
  function ToInt(v: Value): (n: int)
    ensures v.IntValue? ==> n == v.n
    ensures v.BoolValue? ==> (n == 1 <==> v.b) && (n == 0 <==> !v.b)
  {
    match v
    case IntValue(n) => n
    case BoolValue(b) => if b then 1 else 0
    case TextValue(_) => 0
    case ColorValue(_) => 0
  }

  /** The lower-case form of an ASCII capital; every other character is kept. */
  function LowerChar(c: char): (l: char)
    ensures 'A' <= c <= 'Z' ==> 'a' <= l <= 'z' && l as int - c as int == 32
    ensures !('A' <= c <= 'Z') ==> l == c
  {
    if 'A' <= c <= 'Z' then (c as int + 32) as char else c
  }

  function Lower(t: string): (l: string)
    ensures |l| == |t| && forall i | 0 <= i < |t| :: l[i] == LowerChar(t[i])
  {
    seq(|t|, i requires 0 <= i < |t| => LowerChar(t[i]))
  }

  /** Text reads as false when it is empty, "0", or "false" in any mix of cases. */
  function ToBool(v: Value): (b: bool)
    ensures v.BoolValue? ==> b == v.b
    ensures v.IntValue? ==> (b <==> v.n != 0)
    ensures v.TextValue? && (v.t == "" || v.t == "0") ==> !b
    ensures v.ColorValue? ==> !b
  {
    match v
    case IntValue(n) => n != 0
    case BoolValue(b) => b
    case TextValue(t) => var l := Lower(t); l != "" && l != "0" && l != "false"
    case ColorValue(_) => false
  }

  /** Text reads as false exactly when it is empty, "0", or "false" in some mix of cases. */
  lemma {:induction false} TextReading(t: string)
    ensures !ToBool(TextValue(t)) <==> t == "" || t == "0" || Lower(t) == "false"
  {
    if |t| == 1 && Lower(t) == "0" {
      assert LowerChar(t[0]) == '0';
      assert t == [t[0]];
    }
  }

  /** So every spelling of "false" reads as false, whatever its case. */
  lemma TextFalseAnyCase(t: string)
    requires |t| == 5
    requires t[0] in "fF" && t[1] in "aA" && t[2] in "lL" && t[3] in "sS" && t[4] in "eE"
    ensures !ToBool(TextValue(t))
  {
    assert Lower(t) == "false";
  }

  function ToText(v: Value): (t: string)
    ensures v.TextValue? ==> t == v.t
    ensures !v.TextValue? ==> t == ""
  {
    if v.TextValue? then v.t else ""
  }

  function ToColor(v: Value): (c: Color)
    ensures v.ColorValue? ==> c == v.c
    ensures !v.ColorValue? ==> c == InvalidColor
  {
    if v.ColorValue? then v.c else InvalidColor
  }

  /** A getter with a default: the converted stored value, or the default for an unset key. */
  function IntSetting(store: map<string, Value>, key: string, default: int): (n: int)
    ensures key !in store ==> n == default
    ensures key in store && store[key].IntValue? ==> n == store[key].n
  {
    if key in store then ToInt(store[key]) else default
  }

  const LastOpenPathKey := "main/last_open_path"
  const ZoomKey := "map/zoom"
  const FloatersPrefix := "floaters_visibility/"
  const TrackColorKey := "track/color"
  const TrackWidthKey := "track/width"
  const TrackStyleKey := "track/style"
  const ThumbnailSizeKey := "images/thumbnail_size"
  const PreviewSizeKey := "images/preview_size"
  const ExactMatchToleranceKey := "assignment/exact_match_tolerance"
  const MaximumInterpolationIntervalKey := "assignment/maximum_interpolation_interval"
  const MaximumInterpolationDistanceKey := "assignment/maximum_interpolation_distance"
  const CreateBackupsKey := "save/create_backups"

  /** The key a floater's visibility is stored under. */
  function FloaterKey(name: string): (key: string)
    ensures |key| == |FloatersPrefix| + |name|
    ensures key[..|FloatersPrefix|] == FloatersPrefix && key[|FloatersPrefix|..] == name
  {
    FloatersPrefix + name
  }

  /** A key inside the floater group, other than the group itself. */
  predicate IsFloaterKey(key: string)
  {
    |key| > |FloatersPrefix| && key[..|FloatersPrefix|] == FloatersPrefix
  }

  /** The floater name a key of the floater group stands for. */
  function FloaterName(key: string): (name: string)
    requires IsFloaterKey(key)
    ensures FloaterKey(name) == key && name != ""
  {
    key[|FloatersPrefix|..]
  }

  /** What the floater group of a store says: every name of a stored floater
      key, with its value read as a boolean, and nothing else. */
  ghost predicate FloatersOf(store: map<string, Value>, data: map<string, bool>)
  {
    && (forall name :: name in data <==> name != "" && FloaterKey(name) in store)
    && (forall name | name in data :: data[name] == ToBool(store[FloaterKey(name)]))
  }

  /** Saved floater visibilities are read back unchanged (for non-empty names). */
  lemma FloatersRoundTrip(store: map<string, Value>, saved: map<string, bool>, loaded: map<string, bool>)
    requires forall name | name in saved :: FloaterKey(name) in store && store[FloaterKey(name)] == BoolValue(saved[name])
    requires FloatersOf(store, loaded)
    ensures forall name | name in saved && name != "" :: name in loaded && loaded[name] == saved[name]
  {
  }

  class Settings {
    /** The stored keys and their values. */
    var store: map<string, Value>

    /** The settings as found in the persistent store. */
    constructor (persisted: map<string, Value>)
      ensures store == persisted
    {
      store := persisted;
    }

    function Zoom(): (zoom: int)
      reads this
      ensures ZoomKey !in store ==> zoom == 1520
      ensures ZoomKey in store && store[ZoomKey].IntValue? ==> zoom == store[ZoomKey].n
    {
      IntSetting(store, ZoomKey, 1520)
    }

    method SaveZoom(zoom: int)
      modifies this
      ensures store == old(store)[ZoomKey := IntValue(zoom)]
      ensures Zoom() == zoom
    {
      store := store[ZoomKey := IntValue(zoom)];
    }

    function LastOpenPath(): (path: string)
      reads this
      ensures LastOpenPathKey !in store ==> path == ""
      ensures LastOpenPathKey in store && store[LastOpenPathKey].TextValue? ==> path == store[LastOpenPathKey].t
    {
      if LastOpenPathKey in store then ToText(store[LastOpenPathKey]) else ""
    }

    method SaveLastOpenPath(path: string)
      modifies this
      ensures store == old(store)[LastOpenPathKey := TextValue(path)]
      ensures LastOpenPath() == path
    {
      store := store[LastOpenPathKey := TextValue(path)];
    }

    /** The thumbnail size: always square, 32 by 32 when unset. */
    function ThumbnailSize(): (size: Size)
      reads this
      ensures size.width == size.height
      ensures ThumbnailSizeKey !in store ==> size == Size(32, 32)
      ensures ThumbnailSizeKey in store && store[ThumbnailSizeKey].IntValue? ==> size.width == store[ThumbnailSizeKey].n
    {
      var side := IntSetting(store, ThumbnailSizeKey, 32);
      Size(side, side)
    }

    method SaveThumbnailSize(side: int)
      modifies this
      ensures store == old(store)[ThumbnailSizeKey := IntValue(side)]
      ensures ThumbnailSize() == Size(side, side)
    {
      store := store[ThumbnailSizeKey := IntValue(side)];
    }

    /** The preview size: always square, 400 by 400 when unset. */
    function PreviewSize(): (size: Size)
      reads this
      ensures size.width == size.height
      ensures PreviewSizeKey !in store ==> size == Size(400, 400)
      ensures PreviewSizeKey in store && store[PreviewSizeKey].IntValue? ==> size.width == store[PreviewSizeKey].n
    {
      var side := IntSetting(store, PreviewSizeKey, 400);
      Size(side, side)
    }

    method SavePreviewSize(side: int)
      modifies this
      ensures store == old(store)[PreviewSizeKey := IntValue(side)]
      ensures PreviewSize() == Size(side, side)
    {
      store := store[PreviewSizeKey := IntValue(side)];
    }

    function ExactMatchTolerance(): (seconds: int)
      reads this
      ensures ExactMatchToleranceKey !in store ==> seconds == 10
      ensures ExactMatchToleranceKey in store && store[ExactMatchToleranceKey].IntValue? ==> seconds == store[ExactMatchToleranceKey].n
    {
      IntSetting(store, ExactMatchToleranceKey, 10)
    }

    method SaveExactMatchTolerance(seconds: int)
      modifies this
      ensures store == old(store)[ExactMatchToleranceKey := IntValue(seconds)]
      ensures ExactMatchTolerance() == seconds
    {
      store := store[ExactMatchToleranceKey := IntValue(seconds)];
    }

    function MaximumInterpolationInterval(): (seconds: int)
      reads this
      ensures MaximumInterpolationIntervalKey !in store ==> seconds == -1
      ensures MaximumInterpolationIntervalKey in store && store[MaximumInterpolationIntervalKey].IntValue?
        ==> seconds == store[MaximumInterpolationIntervalKey].n
    {
      IntSetting(store, MaximumInterpolationIntervalKey, -1)
    }

    method SaveMaximumInterpolationInterval(seconds: int)
      modifies this
      ensures store == old(store)[MaximumInterpolationIntervalKey := IntValue(seconds)]
      ensures MaximumInterpolationInterval() == seconds
    {
      store := store[MaximumInterpolationIntervalKey := IntValue(seconds)];
    }

    function MaximumInterpolationDistance(): (meters: int)
      reads this
      ensures MaximumInterpolationDistanceKey !in store ==> meters == -1
      ensures MaximumInterpolationDistanceKey in store && store[MaximumInterpolationDistanceKey].IntValue?
        ==> meters == store[MaximumInterpolationDistanceKey].n
    {
      IntSetting(store, MaximumInterpolationDistanceKey, -1)
    }

    method SaveMaximumInterpolationDistance(meters: int)
      modifies this
      ensures store == old(store)[MaximumInterpolationDistanceKey := IntValue(meters)]
      ensures MaximumInterpolationDistance() == meters
    {
      store := store[MaximumInterpolationDistanceKey := IntValue(meters)];
    }

    function TrackWidth(): (width: int)
      reads this
      ensures TrackWidthKey !in store ==> width == 3
      ensures TrackWidthKey in store && store[TrackWidthKey].IntValue? ==> width == store[TrackWidthKey].n
    {
      IntSetting(store, TrackWidthKey, 3)
    }

    method SaveTrackWidth(width: int)
      modifies this
      ensures store == old(store)[TrackWidthKey := IntValue(width)]
      ensures TrackWidth() == width
    {
      store := store[TrackWidthKey := IntValue(width)];
    }

    function CreateBackups(): (state: bool)
      reads this
      ensures CreateBackupsKey !in store ==> state
      ensures CreateBackupsKey in store && store[CreateBackupsKey].BoolValue? ==> state == store[CreateBackupsKey].b
    {
      if CreateBackupsKey in store then ToBool(store[CreateBackupsKey]) else true
    }

    method SaveCreateBackups(state: bool)
      modifies this
      ensures store == old(store)[CreateBackupsKey := BoolValue(state)]
      ensures CreateBackups() == state
    {
      store := store[CreateBackupsKey := BoolValue(state)];
    }

    /** The track colour: the stored one when it is valid, else the fallback,
        so always a valid colour. */
    function TrackColor(): (color: Color)
      reads this
      ensures IsValidColor(color)
      ensures TrackColorKey in store && IsValidColor(ToColor(store[TrackColorKey])) ==> color == store[TrackColorKey].c
      ensures !(TrackColorKey in store && IsValidColor(ToColor(store[TrackColorKey]))) ==> color == TrackColorFallback
    {
      var stored := if TrackColorKey in store then ToColor(store[TrackColorKey]) else InvalidColor;
      if IsValidColor(stored) then stored else TrackColorFallback
    }

    method SaveTrackColor(color: Color)
      modifies this
      ensures store == old(store)[TrackColorKey := ColorValue(color)]
      ensures IsValidColor(color) ==> TrackColor() == color
      ensures !IsValidColor(color) ==> TrackColor() == TrackColorFallback
    {
      store := store[TrackColorKey := ColorValue(color)];
    }

    /** The track style: the tabled style of the stored word, DotLine when the
        key is unset or the word is not in the table. */
    function TrackStyle(): (style: PenStyle)
      reads this
      ensures style in StyleEnum
      ensures TrackStyleKey !in store ==> style == DotLine
      ensures TrackStyleKey in store && ToText(store[TrackStyleKey]) !in StyleString ==> style == DotLine
    {
      DecodeStyle(if TrackStyleKey in store then ToText(store[TrackStyleKey]) else "")
    }

    /** Only the five tabled styles can be saved. */
    method SaveTrackStyle(style: PenStyle)
      requires style in StyleEnum
      modifies this
      ensures store == old(store)[TrackStyleKey := TextValue(EncodeStyle(style))]
      ensures TrackStyle() == style
    {
      store := store[TrackStyleKey := TextValue(StyleString[IndexOf(StyleEnum, style)])];
      StyleRoundTrip(style);
    }

    /** Writes every visibility under its floater key and leaves every other key alone. */
    method SaveFloatersVisibility(data: map<string, bool>)
      modifies this
      ensures forall name | name in data :: FloaterKey(name) in store && store[FloaterKey(name)] == BoolValue(data[name])
      ensures forall key | key in old(store) :: key in store
      ensures forall key | key in store ::
        (key in old(store) && store[key] == old(store)[key]) || exists name | name in data :: key == FloaterKey(name)
      ensures forall key | key in old(store) && !(exists name | name in data :: key == FloaterKey(name)) ::
        store[key] == old(store)[key]
    {
      var keys := data.Keys;
      var done: set<string> := {};
      while keys != {}
        invariant keys + done == data.Keys && keys !! done
        invariant forall name | name in done :: FloaterKey(name) in store && store[FloaterKey(name)] == BoolValue(data[name])
        invariant forall key | key in old(store) :: key in store
        invariant forall key | key in store ::
          (key in old(store) && store[key] == old(store)[key]) || exists name | name in done :: key == FloaterKey(name)
        invariant forall key | key in old(store) && !(exists name | name in done :: key == FloaterKey(name)) ::
          store[key] == old(store)[key]
        decreases keys
      {
        var name :| name in keys;
        FloaterKeyInjective(name);
        store := store[FloaterKey(name) := BoolValue(data[name])];
        keys := keys - {name};
        done := done + {name};
      }
    }

    /** Reads back every key of the floater group. */
    method FloatersVisibility() returns (data: map<string, bool>)
      ensures FloatersOf(store, data)
    {
      var keys := set key | key in store && IsFloaterKey(key);
      var done: set<string> := {};
      data := map[];
      while keys != {}
        invariant keys + done == (set key | key in store && IsFloaterKey(key)) && keys !! done
        invariant forall name :: name in data <==> name != "" && FloaterKey(name) in done
        invariant forall name | name in data :: data[name] == ToBool(store[FloaterKey(name)])
        decreases keys
      {
        var key :| key in keys;
        var name := FloaterName(key);
        FloaterKeyInjective(name);
        data := data[name := ToBool(store[key])];
        keys := keys - {key};
        done := done + {key};
      }
      forall name | name != "" && FloaterKey(name) in store ensures name in data {
        assert IsFloaterKey(FloaterKey(name));
      }
    }
  }

  /** Distinct floater names have distinct keys. */
  lemma FloaterKeyInjective(name: string)
    ensures forall other :: FloaterKey(other) == FloaterKey(name) ==> other == name
  {
    forall other | FloaterKey(other) == FloaterKey(name) ensures other == name {
      assert other == FloaterKey(other)[|FloatersPrefix|..];
    }
  }
}
