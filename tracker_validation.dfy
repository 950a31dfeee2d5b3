/** The tracker's pure checks and formatters (Utils/timekeeper.py):
    `_validate_time_entry`, `_validate_category_data`, the brightness step of
    `_generate_category_color` and `_format_time`. */
module TrackerValidation {
  import opened Wrappers
  import opened Text

  // ---------------------------------------------------------------------
  // _validate_time_entry
  // ---------------------------------------------------------------------

  /** The longest entry `add_time` accepts: 24 hours. */
  const MaxEntrySeconds := 86400

  datatype EntryVerdict = EntryValid | NotPositive | OverOneDay | NoCategories | CategoryUnavailable

  /** The fresh check of `validate_category`: the lower-cased, stripped
      name is one of the server's categories. */
  predicate CategoryAvailable(categories: seq<string>, category: string) {
    Strip(Lower(category)) in categories
  }

  /** `validate_category`: a verdict found in the cache hierarchy under
      `validate_category:{server}:{category}` (`cached`) is returned as it
      is; otherwise the fresh check decides. The verdict is cached with no
      expiry, and adding or removing a category does not invalidate it. */
  function ValidateCategory(cached: Option<bool>, categories: seq<string>, category: string): (ok: bool)
    ensures cached.None? ==> (ok <==> CategoryAvailable(categories, category))
    ensures cached.Some? ==> ok == cached.value
  {
    match cached
    case Some(verdict) => verdict
    case None => CategoryAvailable(categories, category)
  }

  /** `_validate_time_entry(server, user, category, seconds)` given the
      server's category list and the cached category verdict, if any. An
      entry is valid exactly when it is between 1 second and 24 hours long,
      the server has categories, and `validate_category` accepts the
      category; the first failing check names the error. */
  function ValidateTimeEntry(seconds: int, categories: seq<string>, cached: Option<bool>, category: string): (r: EntryVerdict)
    ensures r == EntryValid <==>
      0 < seconds <= MaxEntrySeconds && |categories| > 0 && ValidateCategory(cached, categories, category)
    ensures r == NotPositive <==> seconds <= 0
    ensures r == OverOneDay <==> seconds > MaxEntrySeconds
    ensures r == NoCategories <==> 0 < seconds <= MaxEntrySeconds && categories == []
    ensures r == CategoryUnavailable <==>
      0 < seconds <= MaxEntrySeconds && categories != [] && !ValidateCategory(cached, categories, category)
  {
    if seconds <= 0 then NotPositive
    else if seconds > MaxEntrySeconds then OverOneDay
    else if categories == [] then NoCategories
    else if !ValidateCategory(cached, categories, category) then CategoryUnavailable
    else EntryValid
  }

  /** A verdict cached while the category existed keeps entries for it
      valid after the category is removed, and one cached before it was
      added keeps them refused after it is added. */
  lemma CachedVerdictOutlivesChange(seconds: int, before: seq<string>, after: seq<string>, category: string)
    requires 0 < seconds <= MaxEntrySeconds && after != []
    ensures var verdict := ValidateCategory(None, before, category);
      ValidateTimeEntry(seconds, after, Some(verdict), category)
      == (if CategoryAvailable(before, category) then EntryValid else CategoryUnavailable)
  {
  }

  // ---------------------------------------------------------------------
  // _validate_category_data
  // ---------------------------------------------------------------------

  datatype CategoryVerdict =
    | CategoryAccepted | EmptyName | NameTooLong | InvalidCharacters | ReservedName
    | DescriptionTooLong | BadColor | WeightOutOfRange

  const MaxNameLength := 50
  const MaxDescriptionLength := 200

  /** Names no category may take, compared after lower-casing and stripping. */
  const ReservedNames: set<string> := {"all", "total", "admin", "system", "config", "settings"}

  /** A character of the class `[a-zA-Z0-9\s\-_]`. */
  predicate NameChar(c: char) {
    IsAsciiLetter(c) || IsDigit(c) || IsSpace(c) || c == '-' || c == '_'
  }

  /** `re.match(r'^[a-zA-Z0-9\s\-_]+$', name)`: one or more class characters
      (a trailing newline is itself in the class). */
  predicate ValidNameChars(name: string) {
    |name| > 0 && forall i :: 0 <= i < |name| ==> NameChar(name[i])
  }

  predicate IsHexDigit(c: char) {
    IsDigit(c) || ('a' <= c <= 'f') || ('A' <= c <= 'F')
  }

  /** `re.match(r'^#[0-9A-Fa-f]{6}$', color)`: `#` and six hex digits, where
      Python's `$` also accepts one newline after them. */
  predicate IsHexColor(color: string) {
    (|color| == 7 || (|color| == 8 && color[7] == '\n'))
    && color[0] == '#'
    && forall i :: 1 <= i < 7 ==> IsHexDigit(color[i])
  }

  predicate BlankName(category: string) {
    Strip(category) == []
  }

  /** `_validate_category_data(category, description, color, weight)`: the
      checks run in the order name emptiness, name length, name characters,
      reserved names, description length, colour format, weight range, and
      the first one that fails decides the answer. An empty description or
      colour is not checked. */
  function ValidateCategoryData(category: string, description: string, color: string, weight: real): (r: CategoryVerdict)
    ensures r == CategoryAccepted <==>
      !BlankName(category) && |category| <= MaxNameLength && ValidNameChars(category)
      && Strip(Lower(category)) !in ReservedNames
      && |description| <= MaxDescriptionLength
      && (color == [] || IsHexColor(color))
      && 0.0 <= weight <= 5.0
    ensures r == EmptyName <==> BlankName(category)
    ensures r == NameTooLong <==> !BlankName(category) && |category| > MaxNameLength
    ensures r == WeightOutOfRange ==> !(0.0 <= weight <= 5.0)
    ensures r == BadColor ==> color != [] && !IsHexColor(color)
    ensures r == DescriptionTooLong ==> |description| > MaxDescriptionLength
    ensures r == ReservedName ==> Strip(Lower(category)) in ReservedNames
    ensures r == InvalidCharacters ==> !ValidNameChars(category)
  {
    if category == [] || BlankName(category) then EmptyName
    else if |category| > MaxNameLength then NameTooLong
    else if !ValidNameChars(category) then InvalidCharacters
    else if Strip(Lower(category)) in ReservedNames then ReservedName
    else if description != [] && |description| > MaxDescriptionLength then DescriptionTooLong
    else if color != [] && !IsHexColor(color) then BadColor
    else if !(0.0 <= weight && weight <= 5.0) then WeightOutOfRange
    else CategoryAccepted
  }

  /** An accepted name has between 1 and 50 characters, at least one of
      them not whitespace. */
  lemma AcceptedNameShape(category: string, description: string, color: string, weight: real)
    requires ValidateCategoryData(category, description, color, weight) == CategoryAccepted
    ensures 1 <= |category| <= MaxNameLength
    ensures !AllSpace(category)
  {
    StripEmptyIffBlank(category);
  }

  // ---------------------------------------------------------------------
  // _generate_category_color, brightness step
  // ---------------------------------------------------------------------

  /** The brightness step of `_generate_category_color`: when the mean of the
      three channels is below 128 (equivalently, their sum is below 384),
      each channel is raised by 64 and capped at 255; otherwise the colour
      is kept. The md5 digest that produces the channels is not modelled. */
  function AdjustBrightness(r: nat, g: nat, b: nat): (c: (nat, nat, nat))
    requires r < 256 && g < 256 && b < 256
    ensures c.0 < 256 && c.1 < 256 && c.2 < 256
    ensures r <= c.0 && g <= c.1 && b <= c.2
    ensures r + g + b >= 384 ==> c == (r, g, b)
    ensures r + g + b < 384 ==> c.0 >= 64 && c.1 >= 64 && c.2 >= 64
    ensures r + g + b < 384 ==> c.0 + c.1 + c.2 >= r + g + b + 64
  {
    if r + g + b < 384 then (Brighten(r), Brighten(g), Brighten(b)) else (r, g, b)
  }

  /** `min(255, c + 64)`. */
  function Brighten(c: nat): nat {
    if c + 64 < 255 then c + 64 else 255
  }

  function HexDigit(d: nat): (c: char)
    requires d < 16
    ensures IsHexDigit(c)
  {
    if d < 10 then ('0' as int + d) as char else ('a' as int + d - 10) as char
  }

  /** `f"{n:02x}"` for a channel value. */
  function Hex2(n: nat): (s: string)
    requires n < 256
    ensures |s| == 2 && IsHexDigit(s[0]) && IsHexDigit(s[1])
  {
    [HexDigit(n / 16), HexDigit(n % 16)]
  }

  /** The colour text `_generate_category_color` returns for three channels. */
  function ColorText(r: nat, g: nat, b: nat): string
    requires r < 256 && g < 256 && b < 256
  {
    "#" + Hex2(r) + Hex2(g) + Hex2(b)
  }

  /** Every generated colour passes the colour check of
      `_validate_category_data`. */
  lemma GeneratedColorIsValid(r: nat, g: nat, b: nat)
    requires r < 256 && g < 256 && b < 256
    ensures var c := AdjustBrightness(r, g, b); IsHexColor(ColorText(c.0, c.1, c.2))
  {
    var c := AdjustBrightness(r, g, b);
    var t := ColorText(c.0, c.1, c.2);
    assert t[1..3] == Hex2(c.0) && t[3..5] == Hex2(c.1) && t[5..7] == Hex2(c.2);
  }

  // ---------------------------------------------------------------------
  // _format_time
  // ---------------------------------------------------------------------

  /** The shape `_format_time` prints: seconds alone, whole minutes,
      minutes and seconds, whole hours, or hours and minutes. */
  datatype Display =
    | Secs(s: int) | Mins(m: nat) | MinsSecs(m: nat, sec: nat)
    | Hours(h: nat) | HoursMins(h: nat, min: nat)

  /** The components `_format_time(seconds)` prints. Below a minute the raw
      number is printed (negative values included); below an hour, minutes
      and the leftover seconds unless there are none; otherwise hours and
      the leftover whole minutes unless there are none, the seconds being
      dropped. */
  function TrackerDisplay(seconds: int): (d: Display)
    ensures d.Secs? <==> seconds < 60
    ensures d.Secs? ==> d.s == seconds
    ensures d.Mins? ==> 1 <= d.m < 60 && d.m * 60 == seconds
    ensures d.MinsSecs? ==> 1 <= d.m < 60 && 0 < d.sec < 60 && d.m * 60 + d.sec == seconds
    ensures d.Hours? ==> d.h >= 1 && d.h * 3600 <= seconds < d.h * 3600 + 60
    ensures d.HoursMins? ==>
      d.h >= 1 && 0 < d.min < 60 && d.h * 3600 + d.min * 60 <= seconds < d.h * 3600 + d.min * 60 + 60
  {
    if seconds < 60 then Secs(seconds)
    else if seconds < 3600 then
      if seconds % 60 == 0 then Mins(seconds / 60) else MinsSecs(seconds / 60, seconds % 60)
    else if (seconds % 3600) / 60 == 0 then Hours(seconds / 3600)
    else HoursMins(seconds / 3600, (seconds % 3600) / 60)
  }

  function Render(d: Display): (t: string)
    ensures |t| >= 2
  {
    match d
    case Secs(s) => IntToString(s) + "s"
    case Mins(m) => NatToString(m) + "m"
    case MinsSecs(m, s) => NatToString(m) + "m " + NatToString(s) + "s"
    case Hours(h) => NatToString(h) + "h"
    case HoursMins(h, m) => NatToString(h) + "h " + NatToString(m) + "m"
  }

  /** `_format_time(seconds)`. The text ends in the unit of its smallest
      component: `s` when seconds are shown, `h` for a whole number of
      hours (to the minute), `m` otherwise. */
  function FormatTime(seconds: int): (t: string)
    ensures |t| >= 2
    ensures t[|t| - 1] == 's' <==> seconds < 60 || (seconds < 3600 && seconds % 60 != 0)
    ensures t[|t| - 1] == 'h' <==> seconds >= 3600 && seconds % 3600 < 60
  {
    Render(TrackerDisplay(seconds))
  }
}
