/** The advisory helpers of the timecard cog (commands/timecard.py): the
    category suggestions offered when a clock-in names an unknown category,
    the per-category tip, and the quality rating and insights shown after a
    clock-out. Durations are whole seconds; the source divides by 3600 and
    compares hours, so "4 hours" below is 14400 seconds. */
module TimecardCommands {
  import opened Wrappers
  import opened Text

  // ---------------------------------------------------------------------
  // Category suggestions
  // ---------------------------------------------------------------------

  /** The two matching passes of `_get_category_suggestions`. */
  datatype Rule = SubstringRule | OverlapRule

  function CharSet(s: string): set<char> {
    set c | c in s
  }

  function Min(a: int, b: int): int {
    if a <= b then a else b
  }

  /** Whether a rule lets category `cat` through for the typed `input`:
      either lower-cased text contains the other, or they share at least
      min(2, len(input) // 2) distinct characters. */
  predicate Admits(rule: Rule, input: string, cat: string) {
    var a, b := Lower(input), Lower(cat);
    match rule
    case SubstringRule => IsSubstring(a, b) || IsSubstring(b, a)
    case OverlapRule => |CharSet(a) * CharSet(b)| >= Min(2, |a| / 2)
  }

  /** The categories a rule lets through, in their original order. */
  function Filtered(rule: Rule, input: string, cats: seq<string>): (r: seq<string>)
    ensures |r| <= |cats|
    ensures forall c :: c in r ==> c in cats && Admits(rule, input, c)
    ensures forall c :: c in cats && Admits(rule, input, c) ==> c in r
  {
    if cats == [] then []
    else
      var rest := Filtered(rule, input, cats[1..]);
      assert cats == [cats[0]] + cats[1..];
      if Admits(rule, input, cats[0]) then [cats[0]] + rest else rest
  }

  /** What `_get_category_suggestions` returns: the substring matches, or
      when there are none the character-overlap matches, at most three. */
  function Suggestions(input: string, cats: seq<string>): seq<string> {
    if cats == [] then []
    else
      var exact := Filtered(SubstringRule, input, cats);
      var pool := if exact != [] then exact else Filtered(OverlapRule, input, cats);
      pool[..Min(3, |pool|)]
  }

  /** `_get_category_suggestions`: a pass collecting substring matches,
      a second pass collecting overlap matches only when the first found
      nothing, then the first three. */
  method GetCategorySuggestions(input: string, cats: seq<string>) returns (r: seq<string>)
    ensures r == Suggestions(input, cats)
  {
    if cats == [] {
      return [];
    }
    var suggestions := CollectMatches(SubstringRule, input, cats, []);
    if suggestions == [] {
      suggestions := CollectMatches(OverlapRule, input, cats, suggestions);
    }
    r := suggestions[..Min(3, |suggestions|)];
  }

  /** One pass of `_get_category_suggestions`: appends to `suggestions`
      every category the rule lets through. */
  method CollectMatches(rule: Rule, input: string, cats: seq<string>, suggestions: seq<string>)
    returns (r: seq<string>)
    ensures r == suggestions + Filtered(rule, input, cats)
  {
    r := suggestions;
    for i := 0 to |cats|
      invariant r + Filtered(rule, input, cats[i..]) == suggestions + Filtered(rule, input, cats)
    {
      assert cats[i..][1..] == cats[i + 1..];
      if Admits(rule, input, cats[i]) {
        r := r + [cats[i]];
      }
    }
    assert cats[|cats|..] == [];
  }

  /** `r` is `s` with some elements left out and the rest in order. */
  predicate Subsequence(r: seq<string>, s: seq<string>)
    decreases |s|
  {
    r == [] || (s != [] && ((r[0] == s[0] && Subsequence(r[1..], s[1..])) || Subsequence(r, s[1..])))
  }

  lemma {:induction false} FilteredIsSubsequence(rule: Rule, input: string, cats: seq<string>)
    ensures Subsequence(Filtered(rule, input, cats), cats)
  {
    if cats != [] {
      FilteredIsSubsequence(rule, input, cats[1..]);
      var rest := Filtered(rule, input, cats[1..]);
      if Admits(rule, input, cats[0]) {
        assert ([cats[0]] + rest)[1..] == rest;
      }
    }
  }

  lemma {:induction false} PrefixIsSubsequence(r: seq<string>, s: seq<string>, k: nat)
    requires k <= |r| && Subsequence(r, s)
    ensures Subsequence(r[..k], s)
    decreases |s|
  {
    if k > 0 {
      if r[0] == s[0] && Subsequence(r[1..], s[1..]) {
        PrefixIsSubsequence(r[1..], s[1..], k - 1);
        assert r[..k][1..] == r[1..][..k - 1];
      } else {
        PrefixIsSubsequence(r, s[1..], k);
      }
    }
  }

  /** At most three suggestions, drawn from the categories in their
      original order; substring matches take precedence, and when there
      are at most three of them every one is offered. */
  lemma SuggestionsSpec(input: string, cats: seq<string>)
    ensures |Suggestions(input, cats)| <= 3
    ensures Subsequence(Suggestions(input, cats), cats)
    ensures cats == [] ==> Suggestions(input, cats) == []
    ensures (exists c :: c in cats && Admits(SubstringRule, input, c)) ==>
              forall c :: c in Suggestions(input, cats) ==> Admits(SubstringRule, input, c)
    ensures (forall c :: c in cats ==> !Admits(SubstringRule, input, c)) ==>
              forall c :: c in Suggestions(input, cats) ==> Admits(OverlapRule, input, c)
    ensures |Filtered(SubstringRule, input, cats)| <= 3 ==>
              forall c :: c in cats && Admits(SubstringRule, input, c) ==> c in Suggestions(input, cats)
  {
    if cats != [] {
      var exact := Filtered(SubstringRule, input, cats);
      var pool := if exact != [] then exact else Filtered(OverlapRule, input, cats);
      FilteredIsSubsequence(SubstringRule, input, cats);
      FilteredIsSubsequence(OverlapRule, input, cats);
      PrefixIsSubsequence(pool, cats, Min(3, |pool|));
      assert forall c :: c in pool[..Min(3, |pool|)] ==> c in pool;
      if |exact| <= 3 && exact != [] {
        assert pool[..Min(3, |pool|)] == exact;
      }
    }
  }

  // ---------------------------------------------------------------------
  // Tips
  // ---------------------------------------------------------------------

  const Tips: map<string, string> := map[
    "work" := "\U{1F4AA} Stay focused! Consider using the Pomodoro technique (25min work, 5min break)",
    "meeting" := "\U{1F5E3}\U{FE0F} Remember to take notes and track action items",
    "development" := "\U{1F4BB} Great for coding sessions! Don't forget to commit your code",
    "break" := "\U{2615} Enjoy your break! Even short breaks boost productivity",
    "training" := "\U{1F4DA} Learning time! Take notes and practice what you learn",
    "support" := "\U{1F198} Helping others builds teamwork and knowledge sharing"
  ]

  /** `_get_session_tips`: a tip exactly for the six known categories,
      matched case-sensitively. */
  function SessionTip(category: string): (r: Option<string>)
    ensures r.Some? <==> category in {"work", "meeting", "development", "break", "training", "support"}
    ensures r.Some? ==> r.value in Tips.Values
  {
    if category in Tips then Some(Tips[category]) else None
  }

  // ---------------------------------------------------------------------
  // Session quality
  // ---------------------------------------------------------------------

  /** The categories rated as focused work. */
  predicate IsFocusCategory(category: string) {
    category == "work" || category == "development"
  }

  const Excellent := "\U{1F31F} **Excellent** - Great deep work session!"
  const Good := "\U{1F44D} **Good** - Solid focused session"
  const Fair := "\U{2705} **Fair** - Good progress made"
  const Short := "\U{26A1} **Short** - Every bit counts!"
  const Brief := "\U{23F1}\U{FE0F} **Brief** - Consider longer sessions"
  const Efficient := "\U{26A1} **Efficient** - Concise and focused"
  const Standard := "\U{2705} **Standard** - Good meeting length"
  const LongMeeting := "\U{1F550} **Extended** - Consider shorter meetings"
  const PerfectBreak := "\U{2615} **Perfect** - Refreshing break"
  const LongBreak := "\U{1F6CB}\U{FE0F} **Extended** - Long break taken"

  /** `_analyze_session_quality`, with the hour thresholds 4, 2, 1, 0.5
      and 1.5 written as seconds. */
  function AnalyzeSessionQuality(duration: int, category: string): (r: Option<string>)
    ensures r.Some? <==> IsFocusCategory(category) || category == "meeting" || category == "break"
  {
    if IsFocusCategory(category) then
      if duration >= 14400 then Some(Excellent)
      else if duration >= 7200 then Some(Good)
      else if duration >= 3600 then Some(Fair)
      else if duration >= 1800 then Some(Short)
      else Some(Brief)
    else if category == "meeting" then
      if duration <= 1800 then Some(Efficient)
      else if duration <= 5400 then Some(Standard)
      else Some(LongMeeting)
    else if category == "break" then
      if duration <= 1800 then Some(PerfectBreak)
      else Some(LongBreak)
    else None
  }

  /** How many of the work thresholds (half an hour, one, two, four
      hours) a session reaches. */
  function WorkLevel(duration: int): nat {
    (if duration >= 1800 then 1 else 0) + (if duration >= 3600 then 1 else 0)
    + (if duration >= 7200 then 1 else 0) + (if duration >= 14400 then 1 else 0)
  }

  /** How many of the meeting thresholds (half an hour, an hour and a
      half) a session exceeds. */
  function MeetingLevel(duration: int): nat {
    (if duration > 1800 then 1 else 0) + (if duration > 5400 then 1 else 0)
  }

  /** The rating is the message for the number of thresholds reached, so
      a longer work session never rates lower and a longer meeting or
      break never rates as shorter. */
  lemma QualityByLevel(duration: int, category: string)
    ensures IsFocusCategory(category) ==>
      AnalyzeSessionQuality(duration, category) == Some([Brief, Short, Fair, Good, Excellent][WorkLevel(duration)])
    ensures category == "meeting" ==>
      AnalyzeSessionQuality(duration, category) == Some([Efficient, Standard, LongMeeting][MeetingLevel(duration)])
    ensures category == "break" ==>
      AnalyzeSessionQuality(duration, category) == Some(if duration > 1800 then LongBreak else PerfectBreak)
  {
  }

  lemma LevelsMonotone(d1: int, d2: int)
    requires d1 <= d2
    ensures WorkLevel(d1) <= WorkLevel(d2) && MeetingLevel(d1) <= MeetingLevel(d2)
  {
  }

  // ---------------------------------------------------------------------
  // Session insights
  // ---------------------------------------------------------------------

  const DeepWork := "\U{1F9E0} Deep work achieved"
  const Recharged := "\U{1F50B} Mental battery recharged"
  const Boosted := "\U{1F4C8} Productivity score boosted"
  const Bullet := " \U{2022} "

  /** The insights collected by `_generate_session_insights`, in order. */
  function Insights(duration: int, category: string): (r: seq<string>)
    ensures |r| <= 2
    ensures DeepWork in r <==> IsFocusCategory(category) && duration >= 7200
    ensures Recharged in r <==> category == "break" && duration >= 900
    ensures Boosted in r <==> category != "break" && duration >= 3600
  {
    (if IsFocusCategory(category) && duration >= 7200 then [DeepWork] else [])
    + (if category == "break" && duration >= 900 then [Recharged] else [])
    + (if duration >= 3600 && category != "break" then [Boosted] else [])
  }

  /** `_generate_session_insights`: the insights joined with a bullet, or
      nothing when none applies. */
  function GenerateSessionInsights(duration: int, category: string): (r: Option<string>)
    ensures r.None? <==> (if category == "break" then duration < 900 else duration < 3600)
  {
    var xs := Insights(duration, category);
    if xs == [] then None else Some(Join(xs, Bullet))
  }

  /** A deep-work session always also boosts productivity, and a break
      gets at most the recharge insight. */
  lemma InsightsCombined(duration: int, category: string)
    ensures IsFocusCategory(category) && duration >= 7200 ==>
      GenerateSessionInsights(duration, category) == Some(DeepWork + Bullet + Boosted)
    ensures category == "break" && duration >= 900 ==>
      GenerateSessionInsights(duration, category) == Some(Recharged)
  {
    if IsFocusCategory(category) && duration >= 7200 {
      assert Insights(duration, category) == [DeepWork, Boosted];
      assert [DeepWork, Boosted][1..] == [Boosted];
      assert Join([Boosted], Bullet) == Boosted;
      assert Join([DeepWork, Boosted], Bullet) == DeepWork + Bullet + Boosted;
    }
    if category == "break" && duration >= 900 {
      assert Insights(duration, category) == [Recharged];
    }
  }
}
