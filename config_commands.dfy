/** The decision helpers of the configuration cog (commands/config.py): the
    duration parser `_parse_time_string`, the tracking-access check
    `check_user_permissions` and the administrator test. */
module ConfigCommands {
  import opened Wrappers
  import opened Text
  import Permissions

  // ---------------------------------------------------------------------
  // Duration parsing
  // ---------------------------------------------------------------------

  /** Longest duration the parser accepts: one week. */
  const MaxParsedSeconds := 86400 * 7

  datatype TimeError = InvalidFormat | NegativeTime | TooLong

  function ErrorMessage(e: TimeError): string {
    match e
    case InvalidFormat => "Invalid time format. Use formats like: 2h30m, 90m, 3600s, or just 3600"
    case NegativeTime => "Time cannot be negative"
    case TooLong => "Time cannot be more than 7 days"
  }

  /** The unit patterns in the order the parser tries them, each with the
      number of seconds one unit stands for. */
  const Units: seq<(char, nat)> := [('h', 3600), ('m', 60), ('s', 1)]

  /** End of the run of digits that starts at `i`. */
  function RunEnd(s: string, i: nat): (r: nat)
    requires i <= |s|
    ensures i <= r <= |s| && AllDigits(s[i..r])
    ensures r < |s| ==> !IsDigit(s[r])
    ensures i < |s| && IsDigit(s[i]) ==> i < r
    decreases |s| - i
  {
    if i < |s| && IsDigit(s[i]) then
      var r := RunEnd(s, i + 1);
      assert s[i..r] == [s[i]] + s[i + 1..r];
      r
    else i
  }

  /** `re.findall(r'(\d+)u', s[i:])` read as numbers: every maximal run of
      digits immediately followed by the unit letter `u`, left to right.
      The regular expression cannot match from inside a run (the run would
      still end at the same place), so a failed run is skipped whole. */
  function Findall(s: string, u: char, i: nat): seq<nat>
    requires i <= |s|
    decreases |s| - i
  {
    if i == |s| then []
    else if IsDigit(s[i]) then
      var j := RunEnd(s, i);
      if j < |s| && s[j] == u then [DecimalValue(s[i..j])] + Findall(s, u, j + 1)
      else Findall(s, u, j)
    else Findall(s, u, i + 1)
  }

  function Sum(xs: seq<nat>): nat {
    if xs == [] then 0 else Sum(xs[..|xs| - 1]) + xs[|xs| - 1]
  }

  /** Seconds contributed by the first `k` unit patterns. */
  function UnitTotal(t: string, k: nat): nat
    requires k <= |Units|
  {
    if k == 0 then 0 else UnitTotal(t, k - 1) + Sum(Findall(t, Units[k - 1].0, 0)) * Units[k - 1].1
  }

  /** Whether one of the first `k` unit patterns matched at all. */
  predicate AnyUnit(t: string, k: nat)
    requires k <= |Units|
  {
    k > 0 && (AnyUnit(t, k - 1) || Findall(t, Units[k - 1].0, 0) != [])
  }

  /** What Python's `int()` accepts of an already stripped string: an
      optional sign and a run of decimal digits. */
  predicate IsIntLiteral(t: string) {
    (|t| >= 1 && AllDigits(t)) || (|t| >= 2 && (t[0] == '+' || t[0] == '-') && AllDigits(t[1..]))
  }

  function IntLiteralValue(t: string): int
    requires IsIntLiteral(t)
  {
    if AllDigits(t) then DecimalValue(t)
    else if t[0] == '-' then -(DecimalValue(t[1..]) as int)
    else DecimalValue(t[1..])
  }

  /** The final range checks of the parser. */
  function InRange(v: int): (r: Result<nat, TimeError>)
    ensures r.Ok? <==> 0 <= v <= MaxParsedSeconds
    ensures r.Ok? ==> r.value == v
  {
    if v < 0 then Err(NegativeTime) else if v > MaxParsedSeconds then Err(TooLong) else Ok(v)
  }

  /** The value `_parse_time_string` returns, or the error it raises. */
  function ParseTime(raw: string): (r: Result<nat, TimeError>)
    ensures r.Ok? ==> r.value <= MaxParsedSeconds
  {
    var t := Strip(Lower(raw));
    if AnyUnit(t, |Units|) then InRange(UnitTotal(t, |Units|))
    else if IsIntLiteral(t) then InRange(IntLiteralValue(t))
    else Err(InvalidFormat)
  }

  /** `_parse_time_string`: for each unit pattern, adds up every match
      times the unit's size and notes that something matched; with no
      match at all the whole string is read as an integer; the total must
      then lie between zero and one week. */
  method ParseTimeString(raw: string) returns (r: Result<nat, TimeError>)
    ensures r == ParseTime(raw)
    ensures r.Ok? ==> r.value <= MaxParsedSeconds
  {
    var t := Strip(Lower(raw));
    var total: int := 0;
    var found := false;
    for k := 0 to |Units|
      invariant total == UnitTotal(t, k)
      invariant found == AnyUnit(t, k)
    {
      var (unit, multiplier) := Units[k];
      var matches := Findall(t, unit, 0);
      for m := 0 to |matches|
        invariant total == UnitTotal(t, k) + Sum(matches[..m]) * multiplier
        invariant found == (AnyUnit(t, k) || m > 0)
      {
        assert matches[..m + 1][..m] == matches[..m];
        total := total + matches[m] * multiplier;
        found := true;
      }
      assert matches[..|matches|] == matches;
    }
    if !found && IsIntLiteral(t) {
      total := IntLiteralValue(t);
      found := true;
    }
    if !found {
      return Err(InvalidFormat);
    }
    if total < 0 {
      r := Err(NegativeTime);
    } else if total > MaxParsedSeconds {
      r := Err(TooLong);
    } else {
      r := Ok(total);
    }
  }

  /** Seconds in one unit letter. */
  function Multiplier(u: char): nat {
    if u == 'h' then 3600 else if u == 'm' then 60 else if u == 's' then 1 else 0
  }

  predicate IsUnit(u: char) {
    u == 'h' || u == 'm' || u == 's'
  }

  lemma {:induction false} RunEndOfDigits(s: string, i: nat, j: nat)
    requires i <= j <= |s| && AllDigits(s[i..j])
    requires j < |s| ==> !IsDigit(s[j])
    ensures RunEnd(s, i) == j
    decreases j - i
  {
    if i < j {
      assert s[i] == s[i..j][0];
      assert s[i + 1..j] == s[i..j][1..];
      RunEndOfDigits(s, i + 1, j);
    }
  }

  /** A number printed at position `i` and followed by a unit letter is
      one match of that letter's pattern and of no other. */
  lemma FindallToken(s: string, u: char, i: nat, n: nat, unit: char)
    requires i + |NatToString(n)| < |s| && !IsDigit(unit)
    requires s[i..i + |NatToString(n)|] == NatToString(n) && s[i + |NatToString(n)|] == unit
    ensures Findall(s, u, i) == (if unit == u then [n] else []) + Findall(s, u, i + |NatToString(n)| + 1)
  {
    var d := NatToString(n);
    NatToStringRoundTrip(n);
    var j := i + |d|;
    RunEndOfDigits(s, i, j);
    assert s[i] == d[0];
  }

  /** Characters that are not digits are passed over. */
  lemma {:induction false} FindallSkip(s: string, u: char, i: nat, k: nat)
    requires i + k <= |s|
    requires forall p :: i <= p < i + k ==> !IsDigit(s[p])
    ensures Findall(s, u, i) == Findall(s, u, i + k)
    decreases k
  {
    if k > 0 {
      FindallSkip(s, u, i + 1, k - 1);
    }
  }

  predicate Separator(sep: string) {
    forall p :: 0 <= p < |sep| ==> !IsDigit(sep[p]) && !('A' <= sep[p] <= 'Z')
  }

  /** A string the parser's lower-casing and stripping leave alone. */
  predicate Normal(t: string) {
    NoUpper(t) && (t != [] ==> !IsSpace(t[0]) && !IsSpace(t[|t| - 1]))
  }

  /** On a normal string with unit matches, the parser returns the
      weighted sum of the matched numbers. */
  lemma ParseOfUnits(t: string)
    requires Normal(t)
    requires Findall(t, 'h', 0) != [] || Findall(t, 'm', 0) != [] || Findall(t, 's', 0) != []
    ensures ParseTime(t) == InRange(3600 * Sum(Findall(t, 'h', 0)) + 60 * Sum(Findall(t, 'm', 0)) + Sum(Findall(t, 's', 0)))
  {
    LowerOfNoUpper(t);
    StripOfSolidEnds(t);
    UnitsUnfold(t);
  }

  /** The three unit patterns written out. */
  lemma UnitsUnfold(t: string)
    ensures UnitTotal(t, |Units|) == 3600 * Sum(Findall(t, 'h', 0)) + 60 * Sum(Findall(t, 'm', 0)) + Sum(Findall(t, 's', 0))
    ensures AnyUnit(t, |Units|) <==> Findall(t, 'h', 0) != [] || Findall(t, 'm', 0) != [] || Findall(t, 's', 0) != []
  {
    assert Units[0] == ('h', 3600) && Units[1] == ('m', 60) && Units[2] == ('s', 1);
    assert UnitTotal(t, 1) == Sum(Findall(t, 'h', 0)) * 3600;
    assert UnitTotal(t, 2) == UnitTotal(t, 1) + Sum(Findall(t, 'm', 0)) * 60;
    assert AnyUnit(t, 1) <==> Findall(t, 'h', 0) != [];
    assert AnyUnit(t, 2) <==> AnyUnit(t, 1) || Findall(t, 'm', 0) != [];
  }

  /** On a normal string of digits, the parser reads the number. */
  lemma ParseOfDigits(t: string)
    requires Normal(t) && |t| >= 1 && AllDigits(t)
    ensures ParseTime(t) == InRange(DecimalValue(t))
  {
    LowerOfNoUpper(t);
    StripOfSolidEnds(t);
    RunEndOfDigits(t, 0, |t|);
    assert t[0..|t|] == t;
    forall u ensures Findall(t, u, 0) == [] {
      assert Findall(t, u, 0) == Findall(t, u, |t|);
    }
    UnitsUnfold(t);
  }

  /** Two unit-suffixed numbers with a digit-free run of `k` characters
      between them are one match each, of their own unit's pattern. */
  lemma FindallTwoAt(t: string, u: char, a: nat, u1: char, k: nat, b: nat, u2: char)
    requires !IsDigit(u1) && !IsDigit(u2)
    requires |t| == |NatToString(a)| + 1 + k + |NatToString(b)| + 1
    requires t[..|NatToString(a)|] == NatToString(a) && t[|NatToString(a)|] == u1
    requires forall p :: |NatToString(a)| + 1 <= p < |NatToString(a)| + 1 + k ==> !IsDigit(t[p])
    requires t[|NatToString(a)| + 1 + k..|t| - 1] == NatToString(b) && t[|t| - 1] == u2
    ensures Findall(t, u, 0) == (if u1 == u then [a] else []) + (if u2 == u then [b] else [])
  {
    var i1 := |NatToString(a)| + 1;
    FindallToken(t, u, 0, a, u1);
    FindallSkip(t, u, i1, k);
    FindallLastToken(t, u, i1 + k, b, u2);
  }

  /** A unit-suffixed number that ends the string is its last match. */
  lemma FindallLastToken(t: string, u: char, i: nat, b: nat, u2: char)
    requires !IsDigit(u2) && i + |NatToString(b)| + 1 == |t|
    requires t[i..|t| - 1] == NatToString(b) && t[|t| - 1] == u2
    ensures Findall(t, u, i) == (if u2 == u then [b] else [])
  {
    FindallToken(t, u, i, b, u2);
    assert Findall(t, u, |t|) == [];
  }

  /** The same for the text the two tokens and the separator spell. */
  lemma FindallTwoTokens(a: nat, u1: char, sep: string, b: nat, u2: char, u: char)
    requires !IsDigit(u1) && !IsDigit(u2) && Separator(sep)
    ensures Findall(NatToString(a) + [u1] + sep + NatToString(b) + [u2], u, 0) == Tokens(a, u1, b, u2, true, u)
  {
    var A, B := NatToString(a), NatToString(b);
    var t := A + [u1] + sep + B + [u2];
    var i1 := |A| + 1;
    var i2 := i1 + |sep|;
    assert t[..|A|] == A && t[|A|] == u1;
    assert t[i2..|t| - 1] == B && t[|t| - 1] == u2;
    forall p | i1 <= p < i2 ensures !IsDigit(t[p]) {
      assert t[p] == sep[p - i1];
    }
    FindallTwoAt(t, u, a, u1, |sep|, b, u2);
  }

  lemma TwoTokensNormal(a: nat, u1: char, sep: string, b: nat, u2: char)
    requires IsUnit(u1) && IsUnit(u2) && Separator(sep)
    ensures Normal(NatToString(a) + [u1] + sep + NatToString(b) + [u2])
  {
    var A, B := NatToString(a), NatToString(b);
    NatToStringRoundTrip(a);
    NatToStringRoundTrip(b);
    var t := A + [u1] + sep + B + [u2];
    var i1 := |A| + 1;
    var i2 := i1 + |sep|;
    var i3 := i2 + |B|;
    forall p | 0 <= p < |t| ensures !('A' <= t[p] <= 'Z') {
      if p < |A| { assert t[p] == A[p]; }
      else if i1 <= p < i2 { assert t[p] == sep[p - i1]; }
      else if i2 <= p < i3 { assert t[p] == B[p - i2]; }
    }
    assert t[0] == A[0];
  }

  /** The numbers one or two tokens contribute to the pattern of unit `u`. */
  function Tokens(a: nat, u1: char, b: nat, u2: char, two: bool, u: char): seq<nat> {
    (if u1 == u then [a] else []) + (if two && u2 == u then [b] else [])
  }

  /** Parsing a normal string whose matches are the numbers `a` (of unit
      `u1`) and `b` (of unit `u2`, when `two` holds; otherwise `b` is zero
      and plays no part). */
  lemma ParseTokens(t: string, a: nat, u1: char, b: nat, u2: char, two: bool)
    requires IsUnit(u1) && IsUnit(u2) && Normal(t)
    requires Findall(t, 'h', 0) == Tokens(a, u1, b, u2, two, 'h')
    requires Findall(t, 'm', 0) == Tokens(a, u1, b, u2, two, 'm')
    requires Findall(t, 's', 0) == Tokens(a, u1, b, u2, two, 's')
    requires two || b == 0
    ensures ParseTime(t) == InRange(Multiplier(u1) * a + Multiplier(u2) * b)
  {
    assert Tokens(a, u1, b, u2, two, u1) != [];
    ParseOfUnits(t);
    WeightedTokens(a, u1, b, u2, two);
  }

  /** Weighting each unit's numbers by its size gives the seconds the
      tokens denote. */
  lemma WeightedTokens(a: nat, u1: char, b: nat, u2: char, two: bool)
    requires IsUnit(u1) && IsUnit(u2)
    ensures 3600 * Sum(Tokens(a, u1, b, u2, two, 'h')) + 60 * Sum(Tokens(a, u1, b, u2, two, 'm'))
            + Sum(Tokens(a, u1, b, u2, two, 's'))
            == Multiplier(u1) * a + (if two then Multiplier(u2) * b else 0)
  {
    TokenSum(a, u1 == 'h', b, two && u2 == 'h');
    TokenSum(a, u1 == 'm', b, two && u2 == 'm');
    TokenSum(a, u1 == 's', b, two && u2 == 's');
    var c := if two then b else 0;
    UnitWeight(a, u1);
    UnitWeight(c, u2);
    assert (if two && u2 == 'h' then b else 0) == (if u2 == 'h' then c else 0);
    assert (if two && u2 == 'm' then b else 0) == (if u2 == 'm' then c else 0);
    assert (if two && u2 == 's' then b else 0) == (if u2 == 's' then c else 0);
    assert (if two then Multiplier(u2) * b else 0) == Multiplier(u2) * c;
  }

  /** One number weighted by the size of its unit. */
  lemma UnitWeight(n: nat, u: char)
    requires IsUnit(u)
    ensures 3600 * (if u == 'h' then n else 0) + 60 * (if u == 'm' then n else 0) + (if u == 's' then n else 0)
            == Multiplier(u) * n
  {
  }

  /** The sum of the numbers one or two tokens contribute to a pattern. */
  lemma TokenSum(a: nat, p: bool, b: nat, q: bool)
    ensures Sum((if p then [a] else []) + (if q then [b] else [])) == (if p then a else 0) + (if q then b else 0)
  {
    var pre := if p then [a] else [];
    var xs := pre + (if q then [b] else []);
    assert [a][..0] == [] && Sum([a]) == Sum([a][..0]) + a;
    if q {
      assert xs[..|xs| - 1] == pre && xs[|xs| - 1] == b;
      assert Sum(xs) == Sum(pre) + b;
    } else {
      assert xs == pre;
    }
  }

  /** Two unit-suffixed numbers with a digit-free separator between them
      parse to the seconds they denote. With `sep` empty this covers
      "2h30m"; with `sep` a space it covers what the export formatter
      prints. */
  lemma ParseTwoTokens(a: nat, u1: char, sep: string, b: nat, u2: char)
    requires IsUnit(u1) && IsUnit(u2) && Separator(sep)
    ensures ParseTime(NatToString(a) + [u1] + sep + NatToString(b) + [u2])
            == InRange(Multiplier(u1) * a + Multiplier(u2) * b)
  {
    var t := NatToString(a) + [u1] + sep + NatToString(b) + [u2];
    TwoTokensNormal(a, u1, sep, b, u2);
    FindallTwoTokens(a, u1, sep, b, u2, 'h');
    FindallTwoTokens(a, u1, sep, b, u2, 'm');
    FindallTwoTokens(a, u1, sep, b, u2, 's');
    ParseTokens(t, a, u1, b, u2, true);
  }

  lemma OneTokenNormal(a: nat, u1: char)
    requires IsUnit(u1)
    ensures Normal(NatToString(a) + [u1])
  {
    var A := NatToString(a);
    NatToStringRoundTrip(a);
    var t := A + [u1];
    forall p | 0 <= p < |t| ensures !('A' <= t[p] <= 'Z') {
      if p < |A| { assert t[p] == A[p]; }
    }
    assert t[0] == A[0];
  }

  /** A single unit-suffixed number parses to the seconds it denotes. */
  lemma ParseOneToken(a: nat, u1: char)
    requires IsUnit(u1)
    ensures ParseTime(NatToString(a) + [u1]) == InRange(Multiplier(u1) * a)
  {
    var A := NatToString(a);
    var t := A + [u1];
    OneTokenNormal(a, u1);
    assert t[..|A|] == A;
    forall u ensures Findall(t, u, 0) == Tokens(a, u1, 0, u1, false, u) {
      FindallToken(t, u, 0, a, u1);
    }
    ParseTokens(t, a, u1, 0, u1, false);
  }

  /** A bare number is read as seconds. */
  lemma ParsePlainNumber(n: nat)
    ensures ParseTime(NatToString(n)) == InRange(n)
  {
    var t := NatToString(n);
    NatToStringRoundTrip(n);
    forall p | 0 <= p < |t| ensures !('A' <= t[p] <= 'Z') {
      assert IsDigit(t[p]);
    }
    ParseOfDigits(t);
  }

  /** A negative number is refused as negative, not as malformed. */
  lemma ParseNegativeNumber(n: nat)
    requires n > 0
    ensures ParseTime("-" + NatToString(n)) == Err(NegativeTime)
  {
    var d := NatToString(n);
    NatToStringRoundTrip(n);
    var t := "-" + d;
    assert t[1..] == d;
    forall p | 0 <= p < |t| ensures !('A' <= t[p] <= 'Z') {
      if p > 0 { assert t[p] == d[p - 1]; }
    }
    assert t[|t| - 1] == d[|d| - 1];
    LowerOfNoUpper(t);
    StripOfSolidEnds(t);
    RunEndOfDigits(t, 1, |t|);
    assert t[1..|t|] == d;
    forall u ensures Findall(t, u, 0) == [] {
      assert Findall(t, u, 0) == Findall(t, u, 1) == Findall(t, u, |t|);
    }
    UnitsUnfold(t);
    assert !AllDigits(t) by { assert !IsDigit(t[0]); }
    assert IsIntLiteral(t) && IntLiteralValue(t) == -(n as int);
  }

  // ---------------------------------------------------------------------
  // Access checks
  // ---------------------------------------------------------------------

  /** `_check_admin_permissions`. */
  function IsAdmin(manageGuild: bool, administrator: bool): (r: bool)
    ensures r <==> manageGuild || administrator
  {
    manageGuild || administrator
  }

  const RolesNeededPrefix := "You need one of these roles: "

  /** Names of the required roles that still exist in the guild, in the
      order the record lists them. */
  function RoleNames(required: seq<int>, guildRoles: map<int, string>): (r: seq<string>)
    ensures |r| <= |required|
    ensures forall n :: n in r ==> n in guildRoles.Values
    ensures forall id :: id in required && id in guildRoles ==> guildRoles[id] in r
  {
    if required == [] then []
    else
      var rest := RoleNames(required[1..], guildRoles);
      assert required == [required[0]] + required[1..];
      if required[0] in guildRoles then [guildRoles[required[0]]] + rest else rest
  }

  /** The verdict and reason `check_user_permissions` returns. */
  function PermissionDecision(p: Permissions.Perms, user: int, userRoles: seq<int>, guildRoles: map<int, string>): (bool, string) {
    if !p.enabled then (false, Permissions.DisabledReason)
    else if user in p.suspendedUsers then (false, Permissions.SuspendedReason)
    else if p.requiredRoles != [] && !Permissions.HoldsRequiredRole(p.requiredRoles, userRoles) then
      (false, RolesNeededPrefix + Join(RoleNames(p.requiredRoles, guildRoles), ", "))
    else (true, "")
  }

  /** The loop of `check_user_permissions` that looks up the name of each
      required role the guild still has. */
  method CollectRoleNames(required: seq<int>, guildRoles: map<int, string>) returns (names: seq<string>)
    ensures names == RoleNames(required, guildRoles)
  {
    names := [];
    var i := 0;
    while i < |required|
      invariant 0 <= i <= |required|
      invariant names + RoleNames(required[i..], guildRoles) == RoleNames(required, guildRoles)
    {
      assert required[i..][1..] == required[i + 1..];
      var rest := RoleNames(required[i + 1..], guildRoles);
      assert RoleNames(required[i..], guildRoles)
             == (if required[i] in guildRoles then [guildRoles[required[i]]] else []) + rest;
      if required[i] in guildRoles {
        names := names + [guildRoles[required[i]]];
      }
      i := i + 1;
    }
    assert required[i..] == [];
  }

  /** `check_user_permissions`: the same ordered checks as the permission
      mixin's access decision, except that a missing role is reported by
      listing the names of the required roles the guild still has. */
  method CheckUserPermissions(records: map<int, Permissions.Perms>, server: int, user: int,
                              userRoles: seq<int>, guildRoles: map<int, string>, now: int)
    returns (allowed: bool, reason: string)
    ensures (allowed, reason) == PermissionDecision(Permissions.Lookup(records, server, now), user, userRoles, guildRoles)
  {
    var p := Permissions.Lookup(records, server, now);
    if !p.enabled {
      return false, Permissions.DisabledReason;
    }
    if user in p.suspendedUsers {
      return false, Permissions.SuspendedReason;
    }
    if p.requiredRoles != [] && !Permissions.HoldsRequiredRole(p.requiredRoles, userRoles) {
      var names := CollectRoleNames(p.requiredRoles, guildRoles);
      return false, RolesNeededPrefix + Join(names, ", ");
    }
    return true, "";
  }

  /** The configuration cog and the permission mixin reach the same
      verdict on every input, and give the same reason whenever the user
      is refused for anything but a missing role. */
  lemma DecisionAgreesWithAccessCheck(p: Permissions.Perms, user: int, userRoles: seq<int>, guildRoles: map<int, string>)
    ensures PermissionDecision(p, user, userRoles, guildRoles).0 == Permissions.CheckUserAccess(p, user, userRoles).0
    ensures !p.enabled || user in p.suspendedUsers || PermissionDecision(p, user, userRoles, guildRoles).0
            ==> PermissionDecision(p, user, userRoles, guildRoles).1 == Permissions.CheckUserAccess(p, user, userRoles).1
  {
  }
}
