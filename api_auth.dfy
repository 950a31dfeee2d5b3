/** The tiered API-key scheme of the REST layer (API/middleware/auth..py):
    the tier table, the endpoint matcher, key generation with sub-key
    limits, key validation, the per-minute rate limit, revocation and the
    checks `require_api_key` runs before a request reaches its handler.
    Redis is a set of maps held by `ApiAuth`. Keys are stored under their
    own text: the SHA-256 digest the source stores them under is a
    one-to-one renaming that the model leaves out. */
module ApiAuthentication {
  import opened Wrappers
  import opened Text

  datatype Tier = Supporter | Premium | Enterprise | Admin {
    /** The enum value: SUPPORTER 1, PREMIUM 2, ENTERPRISE 3, ADMIN 4. */
    function Value(): (v: nat)
      ensures 1 <= v <= 4
    {
      match this
      case Supporter => 1
      case Premium => 2
      case Enterprise => 3
      case Admin => 4
    }
  }

  /** Requests per minute; None means unrestricted. */
  function RateLimit(t: Tier): (r: Option<nat>)
    ensures r.None? <==> t == Admin
    ensures r.Some? ==> r.value > 0
  {
    match t
    case Supporter => Some(20)
    case Premium => Some(60)
    case Enterprise => Some(120)
    case Admin => None
  }

  /** The permissions a new key of the tier gets when none are given. */
  function DefaultPermissions(t: Tier): seq<string> {
    match t
    case Supporter => ["read:basic"]
    case Premium => ["read:full", "write:limited"]
    case Enterprise => ["read:full", "write:full"]
    case Admin => ["*"]
  }

  /** An endpoint name "base:scope". */
  function Scoped(base: string, scope: string): string {
    base + ([':'] + scope)
  }

  function AllowedEndpoints(t: Tier): seq<string> {
    match t
    case Supporter => [Scoped("categories", "read"), Scoped("leaderboard", "read"),
                       Scoped("users", "read:basic"), Scoped("export", "basic")]
    case Premium => [Scoped("categories", "read"), Scoped("leaderboard", "read"), Scoped("users", "read:full"),
                     Scoped("clock", "admin_write"), Scoped("export", "full"), Scoped("analytics", "basic")]
    case Enterprise => [Scoped("categories", "full"), Scoped("leaderboard", "read"), Scoped("users", "full"),
                        Scoped("clock", "full"), Scoped("export", "full"), Scoped("analytics", "full"),
                        Scoped("webhooks", "full"), Scoped("config", "full"), Scoped("permissions", "full")]
    case Admin => ["*"]
  }

  /** The `sub_keys` feature flag. */
  function SupportsSubKeys(t: Tier): (r: bool)
    ensures r <==> t.Value() >= 3
  {
    t == Enterprise || t == Admin
  }

  /** The `max_sub_keys` feature; None means no limit. */
  function MaxSubKeys(t: Tier): Option<nat> {
    if t == Enterprise then Some(10) else None
  }

  /** One entry of `allowed_endpoints` admits the endpoint: the entry is the
      endpoint itself or ends in ':full', and the endpoint starts with the
      entry's text before its first ':'. */
  predicate Admits(entry: string, endpoint: string) {
    (entry == endpoint || EndsWith(entry, ":full")) && StartsWith(endpoint, BeforeFirst(entry, ':'))
  }

  /** The scan of `can_access_endpoint` over the allowed list. */
  function AnyAdmits(allowed: seq<string>, endpoint: string): (r: bool)
    ensures r <==> exists i :: 0 <= i < |allowed| && Admits(allowed[i], endpoint)
  {
    if allowed == [] then false
    else if Admits(allowed[0], endpoint) then true
    else
      var r := AnyAdmits(allowed[1..], endpoint);
      assert r <==> exists i :: 1 <= i < |allowed| && Admits(allowed[i], endpoint) by {
        if r {
          var j :| 0 <= j < |allowed| - 1 && Admits(allowed[1..][j], endpoint);
          assert Admits(allowed[j + 1], endpoint);
        }
        if exists i :: 1 <= i < |allowed| && Admits(allowed[i], endpoint) {
          var i :| 1 <= i < |allowed| && Admits(allowed[i], endpoint);
          assert allowed[1..][i - 1] == allowed[i];
        }
      }
      r
  }

  /** `TierConfig.can_access_endpoint`: true when '*' is allowed, otherwise
      exactly when some allowed entry admits the endpoint. */
  function CanAccessEndpoint(t: Tier, endpoint: string): (r: bool)
    ensures r <==> "*" in AllowedEndpoints(t)
                   || exists e :: e in AllowedEndpoints(t) && Admits(e, endpoint)
  {
    var allowed := AllowedEndpoints(t);
    if "*" in allowed then true else AnyAdmits(allowed, endpoint)
  }

  /** Every endpoint a tier can reach, each higher tier can reach too. */
  lemma TierAccessMonotone(lower: Tier, higher: Tier, endpoint: string)
    requires lower.Value() <= higher.Value()
    requires CanAccessEndpoint(lower, endpoint)
    ensures CanAccessEndpoint(higher, endpoint)
  {
    if higher == Admin || lower == higher {
      return;
    }
    var i :| 0 <= i < |AllowedEndpoints(lower)| && Admits(AllowedEndpoints(lower)[i], endpoint);
    var j := i;
    if lower == Supporter {
      j := StepSupporterPremium(i, endpoint);
      assert AllowedEndpoints(Premium)[j] in AllowedEndpoints(Premium);
    }
    if higher == Enterprise {
      var k := StepPremiumEnterprise(j, endpoint);
      assert AllowedEndpoints(Enterprise)[k] in AllowedEndpoints(Enterprise);
    }
  }

  lemma {:induction false} BeforeFirstOfJoin(base: string, rest: string)
    requires ':' !in base && rest != [] && rest[0] == ':'
    ensures BeforeFirst(base + rest, ':') == base
  {
    if base != [] {
      assert (base + rest)[1..] == base[1..] + rest;
      BeforeFirstOfJoin(base[1..], rest);
    } else {
      assert base + rest == rest;
    }
  }

  /** Whatever an entry "base:scope" admits, the entry "base:full" admits
      as well: admission only looks at the text before the first ':'. */
  lemma FullScopeCovers(base: string, scope: string, endpoint: string)
    requires ':' !in base
    requires Admits(Scoped(base, scope), endpoint)
    ensures Admits(Scoped(base, "full"), endpoint)
  {
    BeforeFirstOfJoin(base, [':'] + scope);
    BeforeFirstOfJoin(base, [':'] + "full");
    var q := Scoped(base, "full");
    assert q[|q| - 5..] == ":full";
  }

  /** Each SUPPORTER entry that admits an endpoint is matched by a PREMIUM
      entry that admits it. */
  lemma StepSupporterPremium(i: nat, endpoint: string) returns (j: nat)
    requires i < |AllowedEndpoints(Supporter)| && Admits(AllowedEndpoints(Supporter)[i], endpoint)
    ensures j < |AllowedEndpoints(Premium)| && Admits(AllowedEndpoints(Premium)[j], endpoint)
  {
    if i == 2 {
      FullScopeCovers("users", "read:basic", endpoint);
      ReadFullCovers(endpoint);
      j := 2;
    } else if i == 3 {
      FullScopeCovers("export", "basic", endpoint);
      j := 4;
    } else {
      j := i;
    }
  }

  /** "users:read:full" admits whatever "users:full" admits. */
  lemma ReadFullCovers(endpoint: string)
    requires Admits(Scoped("users", "full"), endpoint)
    ensures Admits(Scoped("users", "read:full"), endpoint)
  {
    BeforeFirstOfJoin("users", [':'] + "full");
    BeforeFirstOfJoin("users", [':'] + "read:full");
    var q := Scoped("users", "read:full");
    assert q[|q| - 5..] == ":full";
  }

  /** Each PREMIUM entry either appears unchanged in the ENTERPRISE list
      or is some "base:scope" whose ENTERPRISE counterpart is "base:full". */
  lemma PremiumWithinEnterprise(i: nat) returns (j: nat, base: string, scope: string)
    requires i < |AllowedEndpoints(Premium)|
    ensures j < |AllowedEndpoints(Enterprise)|
    ensures AllowedEndpoints(Enterprise)[j] == AllowedEndpoints(Premium)[i]
            || (':' !in base && AllowedEndpoints(Premium)[i] == Scoped(base, scope)
                && AllowedEndpoints(Enterprise)[j] == Scoped(base, "full"))
  {
    j := i;
    if i == 0 {
      base, scope := "categories", "read";
    } else if i == 2 {
      base, scope := "users", "read:full";
    } else if i == 3 {
      base, scope := "clock", "admin_write";
    } else if i == 5 {
      base, scope := "analytics", "basic";
    } else {
      base, scope := "", "";
    }
  }

  /** Each PREMIUM entry that admits an endpoint is matched by an ENTERPRISE
      entry that admits it. */
  lemma StepPremiumEnterprise(i: nat, endpoint: string) returns (j: nat)
    requires i < |AllowedEndpoints(Premium)| && Admits(AllowedEndpoints(Premium)[i], endpoint)
    ensures j < |AllowedEndpoints(Enterprise)| && Admits(AllowedEndpoints(Enterprise)[j], endpoint)
  {
    var base, scope;
    j, base, scope := PremiumWithinEnterprise(i);
    if AllowedEndpoints(Enterprise)[j] != AllowedEndpoints(Premium)[i] {
      FullScopeCovers(base, scope, endpoint);
    }
  }

  // ---------------------------------------------------------------------
  // Keys
  // ---------------------------------------------------------------------

  /** The `api_key:{hash}` record. */
  datatype KeyRecord = KeyRecord(
    guild: int, createdBy: int, tier: Tier, permissions: seq<string>, enabled: bool,
    totalRequests: nat, isSubKey: bool, parent: string, subKeyName: string)

  /** What a record read back with missing fields looks like: revoking a key
      that does not exist writes only `enabled = false`, and every other
      field then reads as its default. */
  const DisabledStub := KeyRecord(0, 0, Supporter, [], false, 0, false, "", "")

  /** What `validate_api_key` returns for a usable key. */
  datatype KeyInfo = KeyInfo(
    keyHash: string, tier: Tier, permissions: seq<string>, rateLimit: Option<nat>,
    isSubKey: bool, parentKeyHash: string, rateLimitKeyHash: string, totalRequests: nat)

  /** `validate_api_key`: None for an empty key, one not starting with "tk",
      one that is not stored, and one that is disabled. A sub-key draws on
      its parent's rate-limit pool, any other key on its own. */
  function Validate(keys: map<string, KeyRecord>, apiKey: string): (r: Option<KeyInfo>)
    ensures r.Some? <==> StartsWith(apiKey, "tk") && apiKey in keys && keys[apiKey].enabled
    ensures r.Some? ==>
      r.value.keyHash == apiKey && r.value.tier == keys[apiKey].tier
      && r.value.rateLimit == RateLimit(keys[apiKey].tier)
      && r.value.rateLimitKeyHash == (if keys[apiKey].isSubKey then keys[apiKey].parent else apiKey)
  {
    if apiKey == [] || !StartsWith(apiKey, "tk") then None
    else if apiKey !in keys || !keys[apiKey].enabled then None
    else
      var k := keys[apiKey];
      Some(KeyInfo(apiKey, k.tier, k.permissions, RateLimit(k.tier), k.isSubKey, k.parent,
                   if k.isSubKey then k.parent else apiKey, k.totalRequests))
  }

  /** The request budget decision of `check_rate_limit` once the counter
      reads `count` after the increment. */
  datatype RateVerdict = RateVerdict(allowed: bool, remaining: Option<nat>, count: Option<nat>)

  function RateDecision(limit: nat, count: nat): (v: RateVerdict)
    ensures v.allowed <==> count <= limit
    ensures v.remaining == Some(if count <= limit then limit - count else 0)
    ensures v.count == Some(count)
  {
    RateVerdict(count <= limit, Some(if limit >= count then limit - count else 0), Some(count))
  }

  /** The counter of `slot`, zero before its first request. */
  function Count(counters: map<(string, int), nat>, slot: (string, int)): nat {
    if slot in counters then counters[slot] else 0
  }

  /** `check_rate_limit` on the minute counters: the verdict and the
      counters afterwards. ADMIN keys and keys with no limit pass without
      counting; any other request adds one to its pool's counter for the
      minute `now / 60` and passes while that count stays within the limit. */
  function RateCheck(counters: map<(string, int), nat>, info: KeyInfo, now: int): (r: (RateVerdict, map<(string, int), nat>))
    ensures r.0.allowed <==>
      info.tier == Admin || info.rateLimit.None?
      || Count(counters, (info.rateLimitKeyHash, now / 60)) + 1 <= info.rateLimit.value
    ensures info.tier == Admin || info.rateLimit.None? ==> r.1 == counters
    ensures info.tier != Admin && info.rateLimit.Some? ==>
      var slot := (info.rateLimitKeyHash, now / 60);
      r.1.Keys == counters.Keys + {slot} && r.1[slot] == Count(counters, slot) + 1
  {
    if info.tier == Admin || info.rateLimit.None? then (RateVerdict(true, None, None), counters)
    else
      var slot := (info.rateLimitKeyHash, now / 60);
      var count := Count(counters, slot) + 1;
      (RateDecision(info.rateLimit.value, count), counters[slot := count])
  }

  /** `k` requests of one key at the same time: how many were allowed, and
      the counters afterwards. */
  function RateChecks(counters: map<(string, int), nat>, info: KeyInfo, now: int, k: nat): (nat, map<(string, int), nat>)
    decreases k
  {
    if k == 0 then (0, counters)
    else
      var (allowed, before) := RateChecks(counters, info, now, k - 1);
      var (v, after) := RateCheck(before, info, now);
      (allowed + (if v.allowed then 1 else 0), after)
  }

  /** Within one fresh minute, `k` requests of a limited key leave `k` on
      its pool's counter, and exactly min(k, limit) of them were allowed. */
  lemma {:induction false} MinuteBudget(counters: map<(string, int), nat>, info: KeyInfo, now: int, k: nat)
    requires info.tier != Admin && info.rateLimit.Some?
    requires (info.rateLimitKeyHash, now / 60) !in counters
    ensures var (allowed, after) := RateChecks(counters, info, now, k);
      allowed == (if k <= info.rateLimit.value then k else info.rateLimit.value)
      && (k == 0 ==> after == counters)
      && (k > 0 ==> after == counters[(info.rateLimitKeyHash, now / 60) := k])
    decreases k
  {
    if k > 0 {
      MinuteBudget(counters, info, now, k - 1);
      var slot := (info.rateLimitKeyHash, now / 60);
      var (_, before) := RateChecks(counters, info, now, k - 1);
      assert Count(before, slot) == k - 1;
    }
  }

  /** A key without a per-minute limit, or an ADMIN key, is never refused
      and never counted. */
  lemma {:induction false} UnlimitedAlwaysAllowed(counters: map<(string, int), nat>, info: KeyInfo, now: int, k: nat)
    requires info.tier == Admin || info.rateLimit.None?
    ensures RateChecks(counters, info, now, k) == (k, counters)
    decreases k
  {
    if k > 0 {
      UnlimitedAlwaysAllowed(counters, info, now, k - 1);
    }
  }

  datatype Generated = Generated(apiKey: string, tier: Tier, isSubKey: bool, parent: Option<string>)

  /** Why `require_api_key` refuses a request (the `code` of its reply). */
  datatype Denial = MissingKey | InvalidKey | InsufficientTier | EndpointNotAvailable
                  | InsufficientPermissions | RateLimitExceeded

  function Code(d: Denial): string {
    match d
    case MissingKey => "AUTH_001"
    case InvalidKey => "AUTH_002"
    case InsufficientPermissions => "AUTH_003"
    case InsufficientTier => "AUTH_004"
    case EndpointNotAvailable => "AUTH_005"
    case RateLimitExceeded => "RATE_001"
  }

  /** The permission check of `require_api_key`: passes when nothing is
      required, when the key holds '*', or when it holds at least one of
      the required permissions. */
  predicate HasPermission(keyPermissions: seq<string>, required: seq<string>) {
    required == [] || "*" in keyPermissions || exists p :: p in required && p in keyPermissions
  }

  /** The keys `revoke_key` leaves: every stored sub-key listed under the key
      disabled, then the key itself (a missing key becomes a disabled stub). */
  function Revoked(keys: map<string, KeyRecord>, subs: set<string>, keyHash: string): (r: map<string, KeyRecord>)
    ensures keyHash in r && !r[keyHash].enabled
    ensures forall s :: s in subs && s in keys ==> s in r && !r[s].enabled
    ensures forall k :: k in r <==> k in keys || k == keyHash
    ensures forall k :: k in keys && k != keyHash && k !in subs ==> r[k] == keys[k]
    ensures forall s :: s in subs && s in keys && s != keyHash ==> r[s] == keys[s].(enabled := false)
    ensures r[keyHash] == (if keyHash in keys then keys[keyHash].(enabled := false) else DisabledStub)
  {
    var disabled := DisabledIn(keys, subs);
    disabled[keyHash := if keyHash in keys then keys[keyHash].(enabled := false) else DisabledStub]
  }

  /** `keys` with every stored key of `subs` disabled. */
  function DisabledIn(keys: map<string, KeyRecord>, subs: set<string>): map<string, KeyRecord> {
    map k | k in keys :: if k in subs then keys[k].(enabled := false) else keys[k]
  }

  /** Disabling one more sub-key, as the revocation loop does. */
  lemma DisableOneMore(keys: map<string, KeyRecord>, done: set<string>, s: string)
    ensures (var d := DisabledIn(keys, done); if s in d then d[s := d[s].(enabled := false)] else d)
            == DisabledIn(keys, done + {s})
  {
  }

  /** The checks `require_api_key` makes before the rate limit, in its
      order: the key is present, it validates, its tier reaches `min_tier`,
      the tier reaches the endpoint, and the key holds a required
      permission. The first that fails names the denial. */
  function Screen(keys: map<string, KeyRecord>, apiKey: Option<string>, required: seq<string>,
                  minTier: Option<Tier>, endpoint: string): (r: Result<KeyInfo, Denial>)
    ensures apiKey.None? || apiKey.value == [] ==> r == Err(MissingKey)
    ensures apiKey.Some? && apiKey.value != [] && Validate(keys, apiKey.value).None? ==> r == Err(InvalidKey)
    ensures apiKey.Some? && Validate(keys, apiKey.value).Some? ==>
      var info := Validate(keys, apiKey.value).value;
      var tierOk := minTier.None? || info.tier.Value() >= minTier.value.Value();
      (!tierOk ==> r == Err(InsufficientTier))
      && (tierOk && !CanAccessEndpoint(info.tier, endpoint) ==> r == Err(EndpointNotAvailable))
      && (tierOk && CanAccessEndpoint(info.tier, endpoint) && !HasPermission(info.permissions, required) ==>
            r == Err(InsufficientPermissions))
    ensures r.Ok? <==>
      apiKey.Some? && Validate(keys, apiKey.value).Some?
      && (minTier.None? || Validate(keys, apiKey.value).value.tier.Value() >= minTier.value.Value())
      && CanAccessEndpoint(Validate(keys, apiKey.value).value.tier, endpoint)
      && HasPermission(Validate(keys, apiKey.value).value.permissions, required)
    ensures r.Ok? ==> Validate(keys, apiKey.value) == Some(r.value)
  {
    if apiKey.None? || apiKey.value == [] then Err(MissingKey)
    else
      match Validate(keys, apiKey.value)
      case None => Err(InvalidKey)
      case Some(info) =>
        if minTier.Some? && info.tier.Value() < minTier.value.Value() then Err(InsufficientTier)
        else if !CanAccessEndpoint(info.tier, endpoint) then Err(EndpointNotAvailable)
        else if !HasPermission(info.permissions, required) then Err(InsufficientPermissions)
        else Ok(info)
  }

  class ApiAuth {
    /** Redis `api_key:{hash}`. */
    var keys: map<string, KeyRecord>
    /** Redis `sub_keys:{parent_hash}`. */
    var subKeys: map<string, set<string>>
    /** Redis `api_keys:guild:{guild}`. */
    var guildKeys: map<int, set<string>>
    /** Redis `rate_limit:{hash}:{minute}` counters. */
    var rateCounters: map<(string, int), nat>

    constructor ()
      ensures keys == map[] && subKeys == map[] && guildKeys == map[] && rateCounters == map[]
    {
      keys, subKeys, guildKeys, rateCounters := map[], map[], map[], map[];
    }

    function SubKeysOf(parent: string): set<string>
      reads this
    {
      if parent in subKeys then subKeys[parent] else {}
    }

    /** `generate_api_key`. A sub-key needs a stored parent whose tier has
        the `sub_keys` feature and, when that tier caps them, fewer sub-keys
        than the cap. The key is "tk_sub_" (sub-key) or "tk_" followed by
        `token`, the random text `secrets.token_urlsafe` would draw; an
        empty permission list means the tier's defaults. */
    method GenerateApiKey(guild: int, admin: int, tier: Tier, permissions: seq<string>,
                          parent: Option<string>, subKeyName: string, token: string)
      returns (r: Result<Generated, string>)
      modifies this
      ensures parent.Some? && parent.value !in old(keys) ==>
        r == Err("Parent key not found") && keys == old(keys) && subKeys == old(subKeys)
      ensures parent.Some? && parent.value in old(keys) && !SupportsSubKeys(old(keys)[parent.value].tier) ==>
        r == Err("Parent tier does not support sub-keys") && keys == old(keys) && subKeys == old(subKeys)
      ensures r.Ok? <==>
        (parent.None? ||
         (parent.value in old(keys) && SupportsSubKeys(old(keys)[parent.value].tier)
          && (MaxSubKeys(old(keys)[parent.value].tier).None?
              || |old(SubKeysOf(parent.value))| < MaxSubKeys(old(keys)[parent.value].tier).value)))
      ensures r.Ok? ==>
        var apiKey := (if parent.Some? then "tk_sub_" else "tk_") + token;
        var perms := if permissions == [] then DefaultPermissions(tier) else permissions;
        r.value == Generated(apiKey, tier, parent.Some?, parent)
        && keys == old(keys)[apiKey := KeyRecord(guild, admin, tier, perms, true, 0, parent.Some?,
                                                 if parent.Some? then parent.value else "", subKeyName)]
        && guildKeys == old(guildKeys)[guild := (if guild in old(guildKeys) then old(guildKeys)[guild] else {}) + {apiKey}]
        && subKeys == (if parent.Some? then old(subKeys)[parent.value := old(SubKeysOf(parent.value)) + {apiKey}]
                       else old(subKeys))
      ensures r.Err? ==> keys == old(keys) && subKeys == old(subKeys) && guildKeys == old(guildKeys)
      ensures rateCounters == old(rateCounters)
    {
      if parent.Some? {
        var p := parent.value;
        if p !in keys {
          return Err("Parent key not found");
        }
        var parentTier := keys[p].tier;
        if !SupportsSubKeys(parentTier) {
          return Err("Parent tier does not support sub-keys");
        }
        var count := |SubKeysOf(p)|;
        var max := MaxSubKeys(parentTier);
        if max.Some? && count >= max.value {
          return Err("Maximum sub-keys (" + NatToString(max.value) + ") reached");
        }
      }
      var apiKey := (if parent.Some? then "tk_sub_" else "tk_") + token;
      var perms := if permissions == [] then DefaultPermissions(tier) else permissions;
      keys := keys[apiKey := KeyRecord(guild, admin, tier, perms, true, 0, parent.Some?,
                                       if parent.Some? then parent.value else "", subKeyName)];
      guildKeys := guildKeys[guild := (if guild in guildKeys then guildKeys[guild] else {}) + {apiKey}];
      if parent.Some? {
        subKeys := subKeys[parent.value := SubKeysOf(parent.value) + {apiKey}];
      }
      return Ok(Generated(apiKey, tier, parent.Some?, parent));
    }

    /** `check_rate_limit` at time `now` (seconds). ADMIN keys and keys with
        no limit pass without counting; otherwise the counter of the key's
        pool for the current minute is incremented and the request passes
        while it stays within the limit. */
    method CheckRateLimit(info: KeyInfo, now: int) returns (v: RateVerdict)
      modifies this
      ensures (v, rateCounters) == RateCheck(old(rateCounters), info, now)
      ensures info.tier != Admin && info.rateLimit.Some? ==>
        v == RateDecision(info.rateLimit.value, Count(old(rateCounters), (info.rateLimitKeyHash, now / 60)) + 1)
      ensures keys == old(keys) && subKeys == old(subKeys) && guildKeys == old(guildKeys)
    {
      if info.tier == Admin || info.rateLimit.None? {
        return RateVerdict(true, None, None);
      }
      var limit := info.rateLimit.value;
      var slot := (info.rateLimitKeyHash, now / 60);
      var count := (if slot in rateCounters then rateCounters[slot] else 0) + 1;
      rateCounters := rateCounters[slot := count];
      var remaining := if limit >= count then limit - count else 0;
      return RateVerdict(count <= limit, Some(remaining), Some(count));
    }

    /** `revoke_key`: disables the key's stored sub-keys one by one, then the
        key itself. Sub-keys stay listed under their parent. */
    method RevokeKey(keyHash: string) returns (ok: bool)
      modifies this
      ensures ok
      ensures keys == Revoked(old(keys), old(SubKeysOf(keyHash)), keyHash)
      ensures subKeys == old(subKeys) && guildKeys == old(guildKeys) && rateCounters == old(rateCounters)
    {
      var pending := SubKeysOf(keyHash);
      ghost var subs := pending;
      ghost var original := keys;
      assert keys == DisabledIn(original, {});
      while pending != {}
        invariant pending <= subs
        invariant keys == DisabledIn(original, subs - pending)
        invariant subKeys == old(subKeys) && guildKeys == old(guildKeys) && rateCounters == old(rateCounters)
        decreases pending
      {
        var s :| s in pending;
        DisableOneMore(original, subs - pending, s);
        if s in keys {
          keys := keys[s := keys[s].(enabled := false)];
        }
        assert subs - (pending - {s}) == (subs - pending) + {s};
        pending := pending - {s};
      }
      assert subs - pending == subs;
      keys := keys[keyHash := if keyHash in keys then keys[keyHash].(enabled := false) else DisabledStub];
      return true;
    }

    /** `require_api_key(required_permissions, min_tier)` for a request to
        `endpoint` carrying `apiKey` (None when the header is absent). The
        checks of `Screen` come first; a request that passes them is
        counted by `check_rate_limit`, and one that passes that too adds
        one to the key's `total_requests`. */
    method Authorize(apiKey: Option<string>, required: seq<string>, minTier: Option<Tier>,
                     endpoint: string, now: int)
      returns (r: Result<KeyInfo, Denial>)
      modifies this
      ensures var screened := Screen(old(keys), apiKey, required, minTier, endpoint);
        (screened.Err? ==> r == screened && rateCounters == old(rateCounters))
        && (screened.Ok? ==>
              var (verdict, counted) := RateCheck(old(rateCounters), screened.value, now);
              rateCounters == counted
              && r == (if verdict.allowed then Ok(screened.value) else Err(RateLimitExceeded)))
      ensures r.Ok? ==>
        keys == old(keys)[r.value.keyHash := old(keys)[r.value.keyHash].(totalRequests := old(keys)[r.value.keyHash].totalRequests + 1)]
      ensures r.Err? ==> keys == old(keys)
      ensures subKeys == old(subKeys) && guildKeys == old(guildKeys)
    {
      var screened := Screen(keys, apiKey, required, minTier, endpoint);
      if screened.Err? {
        return screened;
      }
      var info := screened.value;
      var verdict := CheckRateLimit(info, now);
      if !verdict.allowed {
        return Err(RateLimitExceeded);
      }
      var k := keys[info.keyHash];
      keys := keys[info.keyHash := k.(totalRequests := k.totalRequests + 1)];
      return Ok(info);
    }
  }
}
