/** The per-server permission record of `PermissionMixin`
    (Utils/permissions.py): required roles, suspended users, admin roles and
    the enabled flag, kept in Redis under `permissions:{server}`. The store
    is a map from server id to record; timestamps are whole seconds passed
    in as `now`. */
module Permissions {
  import opened Wrappers

  datatype Perms = Perms(
    requiredRoles: seq<int>, suspendedUsers: seq<int>, adminRoles: seq<int>,
    enabled: bool, createdAt: int, updatedAt: int)

  /** What `get_server_permissions` returns for a server with no record. */
  function DefaultPerms(now: int): Perms {
    Perms([], [], [], true, now, now)
  }

  function Lookup(records: map<int, Perms>, server: int, now: int): Perms {
    if server in records then records[server] else DefaultPerms(now)
  }

  predicate NoDuplicates(s: seq<int>) {
    forall i, j :: 0 <= i < j < |s| ==> s[i] != s[j]
  }

  // ---------------------------------------------------------------------
  // List operations
  // ---------------------------------------------------------------------

  /** Python's `list.remove(x)`: drops the first occurrence of `x`. */
  function RemoveFirst(s: seq<int>, x: int): (r: seq<int>)
    requires x in s
    ensures |r| == |s| - 1
    ensures multiset(r) == multiset(s) - multiset{x}
  {
    assert s == [s[0]] + s[1..];
    if s[0] == x then s[1..] else [s[0]] + RemoveFirst(s[1..], x)
  }

  /** The suspended list after `suspend_user(u)`: `u` appended unless it is
      already there. */
  function Suspended(s: seq<int>, u: int): seq<int> {
    if u in s then s else s + [u]
  }

  /** The suspended list after `unsuspend_user(u)`. */
  function Unsuspended(s: seq<int>, u: int): seq<int> {
    if u in s then RemoveFirst(s, u) else s
  }

  /** Suspending never creates a duplicate, and suspending twice is the
      same as suspending once. */
  lemma SuspendKeepsNoDuplicates(s: seq<int>, u: int)
    requires NoDuplicates(s)
    ensures NoDuplicates(Suspended(s, u))
    ensures u in Suspended(s, u)
    ensures Suspended(Suspended(s, u), u) == Suspended(s, u)
  {
  }

  /** Unsuspending a user who was just suspended restores the original
      list exactly. */
  lemma {:induction false} UnsuspendUndoesSuspend(s: seq<int>, u: int)
    requires u !in s
    ensures Unsuspended(Suspended(s, u), u) == s
  {
    RemoveFirstOfFreshLast(s, u);
  }

  lemma {:induction false} RemoveFirstOfFreshLast(s: seq<int>, u: int)
    requires u !in s
    ensures RemoveFirst(s + [u], u) == s
  {
    if s != [] {
      assert (s + [u])[1..] == s[1..] + [u];
      RemoveFirstOfFreshLast(s[1..], u);
    }
  }

  /** In a list without duplicates, unsuspending removes the user
      completely and nobody else. */
  lemma UnsuspendRemovesUser(s: seq<int>, u: int)
    requires NoDuplicates(s)
    ensures u !in Unsuspended(s, u)
    ensures forall x :: x != u ==> (x in Unsuspended(s, u) <==> x in s)
  {
    if u in s {
      var r := RemoveFirst(s, u);
      assert multiset(s)[u] == 1 by {
        var i :| 0 <= i < |s| && s[i] == u;
        CountOne(s, i);
      }
      assert multiset(r)[u] == 0;
      forall x | x != u ensures x in r <==> x in s {
        assert multiset(r)[x] == multiset(s)[x];
      }
    }
  }

  lemma {:induction false} CountOne(s: seq<int>, i: int)
    requires NoDuplicates(s) && 0 <= i < |s|
    ensures multiset(s)[s[i]] == 1
  {
    if i == 0 {
      assert s == [s[0]] + s[1..];
      assert s[0] !in s[1..];
    } else {
      assert s == [s[0]] + s[1..];
      assert NoDuplicates(s[1..]);
      CountOne(s[1..], i - 1);
    }
  }

  /** `[x for x in s if x in valid]`. */
  function Kept(s: seq<int>, valid: seq<int>): (r: seq<int>)
    ensures |r| <= |s|
    ensures forall x :: x in r <==> x in s && x in valid
  {
    if s == [] then []
    else if s[0] in valid then [s[0]] + Kept(s[1..], valid)
    else Kept(s[1..], valid)
  }

  /** Filtering is idempotent, and keeps the list whole when every entry
      is still valid. */
  lemma {:induction false} KeptIdempotent(s: seq<int>, valid: seq<int>)
    ensures Kept(Kept(s, valid), valid) == Kept(s, valid)
    ensures (forall x :: x in s ==> x in valid) ==> Kept(s, valid) == s
  {
    if s != [] {
      KeptIdempotent(s[1..], valid);
      if s[0] in valid {
        var k := Kept(s, valid);
        assert k == [s[0]] + Kept(s[1..], valid);
        assert k[0] == s[0] && k[1..] == Kept(s[1..], valid);
      }
      if forall x :: x in s ==> x in valid {
        assert forall x :: x in s[1..] ==> x in s;
      }
    }
  }

  /** The suspended list after `bulk_suspend_users(ids)`: each id in turn. */
  function SuspendAll(s: seq<int>, ids: seq<int>): seq<int> {
    if ids == [] then s else Suspended(SuspendAll(s, ids[..|ids| - 1]), ids[|ids| - 1])
  }

  /** The suspended list after `bulk_unsuspend_users(ids)`. */
  function UnsuspendAll(s: seq<int>, ids: seq<int>): seq<int> {
    if ids == [] then s else Unsuspended(UnsuspendAll(s, ids[..|ids| - 1]), ids[|ids| - 1])
  }

  /** After a bulk suspension exactly the previously suspended users and
      the listed ones are suspended, each once. */
  lemma {:induction false} SuspendAllMembers(s: seq<int>, ids: seq<int>)
    requires NoDuplicates(s)
    ensures NoDuplicates(SuspendAll(s, ids))
    ensures forall x :: x in SuspendAll(s, ids) <==> x in s || x in ids
  {
    if ids != [] {
      var front := ids[..|ids| - 1];
      SuspendAllMembers(s, front);
      SuspendKeepsNoDuplicates(SuspendAll(s, front), ids[|ids| - 1]);
      assert ids == front + [ids[|ids| - 1]];
    }
  }

  /** After a bulk unsuspension of a duplicate-free list exactly the
      suspended users not listed remain. */
  lemma {:induction false} UnsuspendAllMembers(s: seq<int>, ids: seq<int>)
    requires NoDuplicates(s)
    ensures NoDuplicates(UnsuspendAll(s, ids))
    ensures forall x :: x in UnsuspendAll(s, ids) <==> x in s && x !in ids
  {
    if ids != [] {
      var front := ids[..|ids| - 1];
      var last := ids[|ids| - 1];
      UnsuspendAllMembers(s, front);
      var t := UnsuspendAll(s, front);
      UnsuspendRemovesUser(t, last);
      RemovalKeepsNoDuplicates(t, last);
      assert ids == front + [last];
    }
  }

  lemma RemovalKeepsNoDuplicates(s: seq<int>, u: int)
    requires NoDuplicates(s)
    ensures NoDuplicates(Unsuspended(s, u))
  {
    if u in s {
      RemoveFirstKeepsNoDuplicates(s, u);
    }
  }

  lemma {:induction false} RemoveFirstKeepsNoDuplicates(s: seq<int>, u: int)
    requires NoDuplicates(s) && u in s
    ensures NoDuplicates(RemoveFirst(s, u))
  {
    if s[0] != u {
      var t := s[1..];
      RemoveFirstKeepsNoDuplicates(t, u);
      var r := RemoveFirst(t, u);
      assert s[0] !in t;
      assert multiset(r)[s[0]] == 0;
      assert RemoveFirst(s, u) == [s[0]] + r;
    }
  }

  // ---------------------------------------------------------------------
  // Access decision
  // ---------------------------------------------------------------------

  const DisabledReason := "Time tracking is currently disabled on this server."
  const SuspendedReason := "You are suspended from using time tracking commands."
  const MissingRoleReason := "You don't have the required role to use time tracking."

  predicate HoldsRequiredRole(required: seq<int>, userRoles: seq<int>) {
    exists r :: r in required && r in userRoles
  }

  /** `check_user_access`: denied when tracking is disabled, then when the
      user is suspended, then when roles are required and the user holds
      none of them; otherwise allowed with an empty reason. */
  function CheckUserAccess(p: Perms, user: int, userRoles: seq<int>): (r: (bool, string))
    ensures r.0 <==> (p.enabled && user !in p.suspendedUsers
                      && (p.requiredRoles == [] || HoldsRequiredRole(p.requiredRoles, userRoles)))
    ensures r.0 ==> r.1 == ""
    ensures !p.enabled ==> r.1 == DisabledReason
    ensures p.enabled && user in p.suspendedUsers ==> r.1 == SuspendedReason
  {
    if !p.enabled then (false, DisabledReason)
    else if user in p.suspendedUsers then (false, SuspendedReason)
    else if p.requiredRoles != [] && !HoldsRequiredRole(p.requiredRoles, userRoles) then (false, MissingRoleReason)
    else (true, "")
  }

  /** Suspension always wins over roles, and adding a role to the user
      never takes access away. */
  lemma AccessMonotoneInRoles(p: Perms, user: int, roles: seq<int>, extra: int)
    ensures CheckUserAccess(p, user, roles).0 ==> CheckUserAccess(p, user, roles + [extra]).0
    ensures user in p.suspendedUsers ==> !CheckUserAccess(p, user, roles + [extra]).0
  {
    if CheckUserAccess(p, user, roles).0 && p.requiredRoles != [] {
      var r :| r in p.requiredRoles && r in roles;
      assert r in roles + [extra];
    }
  }

  datatype BulkCounts = BulkCounts(changed: nat, skipped: nat, errors: nat)

  datatype CleanupCounts = CleanupCounts(removedRoles: nat, removedSuspendedUsers: nat, totalChanges: nat)

  const RoleIdError := "Role ID must be a positive integer"

  class PermissionStore {
    /** Redis `permissions:{server}` records. */
    var records: map<int, Perms>

    constructor ()
      ensures records == map[]
    {
      records := map[];
    }

    /** `save_server_permissions`: stores the record with `updated_at` set to
        `now`. */
    method Save(server: int, p: Perms, now: int)
      modifies this
      ensures records == old(records)[server := p.(updatedAt := now)]
    {
      records := records[server := p.(updatedAt := now)];
    }

    /** `suspend_user`: false and no write if already suspended; otherwise the
        user is appended and the record saved. */
    method SuspendUser(server: int, user: int, now: int) returns (changed: bool)
      modifies this
      ensures var p := Lookup(old(records), server, now);
        changed == (user !in p.suspendedUsers)
        && records == (if changed then old(records)[server := p.(suspendedUsers := p.suspendedUsers + [user], updatedAt := now)]
                       else old(records))
    {
      var p := Lookup(records, server, now);
      if user in p.suspendedUsers {
        return false;
      }
      p := p.(suspendedUsers := p.suspendedUsers + [user]);
      Save(server, p, now);
      return true;
    }

    /** `unsuspend_user`: false and no write if not suspended; otherwise the
        first occurrence is removed and the record saved. */
    method UnsuspendUser(server: int, user: int, now: int) returns (changed: bool)
      modifies this
      ensures var p := Lookup(old(records), server, now);
        changed == (user in p.suspendedUsers)
        && records == (if changed then old(records)[server := p.(suspendedUsers := Unsuspended(p.suspendedUsers, user), updatedAt := now)]
                       else old(records))
    {
      var p := Lookup(records, server, now);
      if user !in p.suspendedUsers {
        return false;
      }
      p := p.(suspendedUsers := RemoveFirst(p.suspendedUsers, user));
      Save(server, p, now);
      return true;
    }

    /** `add_required_role`: a role id that is not positive is a validation
        error; false if already required; otherwise appended and saved. */
    method AddRequiredRole(server: int, role: int, now: int) returns (r: Result<bool, string>)
      modifies this
      ensures role <= 0 ==> r == Err(RoleIdError) && records == old(records)
      ensures role > 0 ==>
        var p := Lookup(old(records), server, now);
        r == Ok(role !in p.requiredRoles)
        && records == (if role !in p.requiredRoles
                       then old(records)[server := p.(requiredRoles := p.requiredRoles + [role], updatedAt := now)]
                       else old(records))
    {
      if role <= 0 {
        return Err(RoleIdError);
      }
      var p := Lookup(records, server, now);
      if role in p.requiredRoles {
        return Ok(false);
      }
      p := p.(requiredRoles := p.requiredRoles + [role]);
      Save(server, p, now);
      return Ok(true);
    }

    /** `remove_required_role`: a role id that is not positive is a
        validation error; false if not required; otherwise removed and
        saved. */
    method RemoveRequiredRole(server: int, role: int, now: int) returns (r: Result<bool, string>)
      modifies this
      ensures role <= 0 ==> r == Err(RoleIdError) && records == old(records)
      ensures role > 0 ==>
        var p := Lookup(old(records), server, now);
        r == Ok(role in p.requiredRoles)
        && records == (if role in p.requiredRoles
                       then old(records)[server := p.(requiredRoles := RemoveFirst(p.requiredRoles, role), updatedAt := now)]
                       else old(records))
    {
      if role <= 0 {
        return Err(RoleIdError);
      }
      var p := Lookup(records, server, now);
      if role !in p.requiredRoles {
        return Ok(false);
      }
      p := p.(requiredRoles := RemoveFirst(p.requiredRoles, role));
      Save(server, p, now);
      return Ok(true);
    }

    /** `bulk_suspend_users`: each id is counted as newly suspended or
        already suspended, so the counts add up to the number of ids; the
        record is saved only when someone was newly suspended. */
    method BulkSuspendUsers(server: int, ids: seq<int>, now: int) returns (counts: BulkCounts)
      modifies this
      ensures counts.changed + counts.skipped + counts.errors == |ids| && counts.errors == 0
      ensures var p := Lookup(old(records), server, now);
        counts.changed == |SuspendAll(p.suspendedUsers, ids)| - |p.suspendedUsers|
        && records == (if counts.changed > 0
                       then old(records)[server := p.(suspendedUsers := SuspendAll(p.suspendedUsers, ids), updatedAt := now)]
                       else old(records))
    {
      var p := Lookup(records, server, now);
      var list := p.suspendedUsers;
      counts := BulkCounts(0, 0, 0);
      for i := 0 to |ids|
        invariant list == SuspendAll(p.suspendedUsers, ids[..i])
        invariant counts.changed + counts.skipped == i && counts.errors == 0
        invariant counts.changed == |list| - |p.suspendedUsers|
      {
        assert ids[..i + 1][..i] == ids[..i];
        if ids[i] in list {
          counts := counts.(skipped := counts.skipped + 1);
        } else {
          list := list + [ids[i]];
          counts := counts.(changed := counts.changed + 1);
        }
      }
      assert ids[..|ids|] == ids;
      if counts.changed > 0 {
        Save(server, p.(suspendedUsers := list), now);
      }
    }

    /** `bulk_unsuspend_users`: each id is counted as unsuspended or not
        suspended, so the counts add up to the number of ids; the record is
        saved only when someone was unsuspended. */
    method BulkUnsuspendUsers(server: int, ids: seq<int>, now: int) returns (counts: BulkCounts)
      modifies this
      ensures counts.changed + counts.skipped + counts.errors == |ids| && counts.errors == 0
      ensures var p := Lookup(old(records), server, now);
        counts.changed == |p.suspendedUsers| - |UnsuspendAll(p.suspendedUsers, ids)|
        && records == (if counts.changed > 0
                       then old(records)[server := p.(suspendedUsers := UnsuspendAll(p.suspendedUsers, ids), updatedAt := now)]
                       else old(records))
    {
      var p := Lookup(records, server, now);
      var list := p.suspendedUsers;
      counts := BulkCounts(0, 0, 0);
      for i := 0 to |ids|
        invariant list == UnsuspendAll(p.suspendedUsers, ids[..i])
        invariant counts.changed + counts.skipped == i && counts.errors == 0
        invariant counts.changed == |p.suspendedUsers| - |list|
      {
        assert ids[..i + 1][..i] == ids[..i];
        if ids[i] !in list {
          counts := counts.(skipped := counts.skipped + 1);
        } else {
          list := RemoveFirst(list, ids[i]);
          counts := counts.(changed := counts.changed + 1);
        }
      }
      assert ids[..|ids|] == ids;
      if counts.changed > 0 {
        Save(server, p.(suspendedUsers := list), now);
      }
    }

    /** `cleanup_invalid_permissions`: keeps, in order, the required roles
        and suspended users still present in the valid lists; each removed
        count is the drop in length and the total is their sum; the record
        is saved only when something was removed. */
    method CleanupInvalidPermissions(server: int, validRoles: seq<int>, validUsers: seq<int>, now: int)
      returns (counts: CleanupCounts)
      modifies this
      ensures var p := Lookup(old(records), server, now);
        var roles := Kept(p.requiredRoles, validRoles);
        var users := Kept(p.suspendedUsers, validUsers);
        counts.removedRoles == |p.requiredRoles| - |roles|
        && counts.removedSuspendedUsers == |p.suspendedUsers| - |users|
        && counts.totalChanges == counts.removedRoles + counts.removedSuspendedUsers
        && records == (if counts.totalChanges > 0
                       then old(records)[server := p.(requiredRoles := roles, suspendedUsers := users, updatedAt := now)]
                       else old(records))
    {
      var p := Lookup(records, server, now);
      var roles := Kept(p.requiredRoles, validRoles);
      var removedRoles := |p.requiredRoles| - |roles|;
      var users := Kept(p.suspendedUsers, validUsers);
      var removedUsers := |p.suspendedUsers| - |users|;
      if removedRoles > 0 || removedUsers > 0 {
        Save(server, p.(requiredRoles := roles, suspendedUsers := users), now);
      }
      counts := CleanupCounts(removedRoles, removedUsers, removedRoles + removedUsers);
    }
  }
}
