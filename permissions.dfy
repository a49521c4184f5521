/**
 * The permission aggregator: a user's effective permissions are the
 * `resource:action` strings of every grant reachable through the user's roles
 * and then through the user's groups, each string once, in first-seen order
 * (what `Array.from(new Set(...))` yields).
 */
module Permissions {
  import opened Wrappers

  datatype Permission = Permission(resource: string, action: string)

  /** A `rolePermissions`/`groupPermissions` row; its `permission` relation may be missing. */
  datatype Grant = Grant(permission: Option<Permission>)

  datatype Role = Role(id: string, name: string, rolePermissions: seq<Grant>)

  datatype Group = Group(id: string, name: string, groupPermissions: seq<Grant>)

  /** The canonical rendering `${resource}:${action}`. */
  function Canonical(p: Permission): string {
    p.resource + ":" + p.action
  }

  /** For resources without a colon, distinct permissions render to distinct strings. */
  lemma CanonicalInjective(p: Permission, q: Permission)
    requires ':' !in p.resource && ':' !in q.resource
    requires Canonical(p) == Canonical(q)
    ensures p == q
  {
    var s := Canonical(p);
    if |p.resource| < |q.resource| {
      ColonInLongerResource(p, q);
      assert false;
    } else if |q.resource| < |p.resource| {
      ColonInLongerResource(q, p);
      assert false;
    }
    assert p.resource == s[..|p.resource|] == q.resource;
    assert p.action == s[|p.resource| + 1..] == q.action;
  }

  lemma ColonInLongerResource(p: Permission, q: Permission)
    requires |p.resource| < |q.resource| && Canonical(p) == Canonical(q)
    ensures ':' in q.resource
  {
    var s := Canonical(p);
    assert s[|p.resource|] == ':';
    assert s[..|q.resource|] == q.resource;
    assert q.resource[|p.resource|] == ':';
  }

  /** The strings of the grants that carry a permission, in order. */
  function GrantStrings(grants: seq<Grant>): seq<string> {
    if grants == [] then []
    else
      var last := grants[|grants| - 1];
      GrantStrings(grants[..|grants| - 1])
        + (if last.permission.Some? then [Canonical(last.permission.value)] else [])
  }

  /** Every role's grant strings, role after role. */
  function RoleStrings(roles: seq<Role>): seq<string> {
    if roles == [] then []
    else RoleStrings(roles[..|roles| - 1]) + GrantStrings(roles[|roles| - 1].rolePermissions)
  }

  /** Every group's grant strings, group after group. */
  function GroupStrings(groups: seq<Group>): seq<string> {
    if groups == [] then []
    else GroupStrings(groups[..|groups| - 1]) + GrantStrings(groups[|groups| - 1].groupPermissions)
  }

  /** Keeps the first occurrence of each string: the order a JavaScript `Set` iterates in. */
  function Dedup(s: seq<string>): seq<string> {
    if s == [] then []
    else
      var d := Dedup(s[..|s| - 1]);
      if s[|s| - 1] in d then d else d + [s[|s| - 1]]
  }

  /** The effective permissions of a user with these roles and groups, as the server returns them. */
  function Effective(roles: seq<Role>, groups: seq<Group>): seq<string> {
    Dedup(RoleStrings(roles) + GroupStrings(groups))
  }

  predicate NoDuplicates(s: seq<string>) {
    forall i, j :: 0 <= i < j < |s| ==> s[i] != s[j]
  }

  /** Every permission reachable from the roles, then from the groups: the reference definition. */
  ghost function EffectiveSet(roles: seq<Role>, groups: seq<Group>): set<string> {
    (set r, g | r in roles && g in r.rolePermissions && g.permission.Some? :: Canonical(g.permission.value))
    + (set gr, g | gr in groups && g in gr.groupPermissions && g.permission.Some? :: Canonical(g.permission.value))
  }

  ghost predicate GrantedBy(grants: seq<Grant>, x: string) {
    exists g :: g in grants && g.permission.Some? && Canonical(g.permission.value) == x
  }

  lemma {:induction false} DedupIsSet(s: seq<string>)
    ensures NoDuplicates(Dedup(s))
    ensures forall x :: x in Dedup(s) <==> x in s
  {
    if s != [] {
      var init := s[..|s| - 1];
      DedupIsSet(init);
      assert s == init + [s[|s| - 1]];
    }
  }

  lemma {:induction false} GrantStringsElems(grants: seq<Grant>)
    ensures forall x :: x in GrantStrings(grants) <==> GrantedBy(grants, x)
  {
    if grants != [] {
      var init := grants[..|grants| - 1];
      var last := grants[|grants| - 1];
      GrantStringsElems(init);
      assert grants == init + [last];
      forall x ensures x in GrantStrings(grants) <==> GrantedBy(grants, x) {
        if GrantedBy(grants, x) {
          var g :| g in grants && g.permission.Some? && Canonical(g.permission.value) == x;
          if g != last {
            assert g in init;
            assert GrantedBy(init, x);
          }
        }
        if x in GrantStrings(init) {
          var g :| g in init && g.permission.Some? && Canonical(g.permission.value) == x;
          assert g in grants;
        }
      }
    }
  }

  lemma {:induction false} RoleStringsElems(roles: seq<Role>)
    ensures forall x :: x in RoleStrings(roles) <==> exists r :: r in roles && GrantedBy(r.rolePermissions, x)
  {
    if roles != [] {
      var init := roles[..|roles| - 1];
      var last := roles[|roles| - 1];
      RoleStringsElems(init);
      GrantStringsElems(last.rolePermissions);
      assert roles == init + [last];
      forall x ensures x in RoleStrings(roles) <==> exists r :: r in roles && GrantedBy(r.rolePermissions, x) {
        if exists r :: r in roles && GrantedBy(r.rolePermissions, x) {
          var r :| r in roles && GrantedBy(r.rolePermissions, x);
          if r != last {
            assert r in init;
          }
        }
        if x in RoleStrings(init) {
          var r :| r in init && GrantedBy(r.rolePermissions, x);
          assert r in roles;
        }
      }
    }
  }

  lemma {:induction false} GroupStringsElems(groups: seq<Group>)
    ensures forall x :: x in GroupStrings(groups) <==> exists gr :: gr in groups && GrantedBy(gr.groupPermissions, x)
  {
    if groups != [] {
      var init := groups[..|groups| - 1];
      var last := groups[|groups| - 1];
      GroupStringsElems(init);
      GrantStringsElems(last.groupPermissions);
      assert groups == init + [last];
      forall x ensures x in GroupStrings(groups) <==> exists gr :: gr in groups && GrantedBy(gr.groupPermissions, x) {
        if exists gr :: gr in groups && GrantedBy(gr.groupPermissions, x) {
          var gr :| gr in groups && GrantedBy(gr.groupPermissions, x);
          if gr != last {
            assert gr in init;
          }
        }
        if x in GroupStrings(init) {
          var gr :| gr in init && GrantedBy(gr.groupPermissions, x);
          assert gr in groups;
        }
      }
    }
  }

  /**
   * The server's list holds each effective permission exactly once, and holds
   * exactly the permissions reachable through some role or some group.
   */
  lemma EffectiveIsSet(roles: seq<Role>, groups: seq<Group>)
    ensures NoDuplicates(Effective(roles, groups))
    ensures forall x :: x in Effective(roles, groups) <==> x in EffectiveSet(roles, groups)
  {
    var all := RoleStrings(roles) + GroupStrings(groups);
    DedupIsSet(all);
    RoleStringsElems(roles);
    GroupStringsElems(groups);
    forall x ensures x in all <==> x in EffectiveSet(roles, groups) {
      if x in EffectiveSet(roles, groups) {
        if r, g :| r in roles && g in r.rolePermissions && g.permission.Some? && Canonical(g.permission.value) == x {
          assert GrantedBy(r.rolePermissions, x);
        } else {
          var gr, g :| gr in groups && g in gr.groupPermissions && g.permission.Some? && Canonical(g.permission.value) == x;
          assert GrantedBy(gr.groupPermissions, x);
        }
      }
    }
  }

  /** No roles and no groups: no permissions. */
  lemma EffectiveOfNothing()
    ensures Effective([], []) == []
  {
  }

  /** The reference set of a concatenation is the union of the parts' sets. */
  lemma EffectiveSetUnion(r1: seq<Role>, g1: seq<Group>, r2: seq<Role>, g2: seq<Group>)
    ensures EffectiveSet(r1 + r2, g1 + g2) == EffectiveSet(r1, g1) + EffectiveSet(r2, g2)
  {
  }

  /** Roles contribute independently of groups: the result is the union of the two parts. */
  lemma EffectiveSplitsIntoRolesAndGroups(roles: seq<Role>, groups: seq<Group>)
    ensures forall x :: x in Effective(roles, groups) <==> x in Effective(roles, []) || x in Effective([], groups)
  {
    EffectiveIsSet(roles, groups);
    EffectiveIsSet(roles, []);
    EffectiveIsSet([], groups);
    EffectiveSetUnion(roles, [], [], groups);
    assert roles + [] == roles && [] + groups == groups;
  }

  /** Listing the roles or the groups in another order yields the same permissions. */
  lemma EffectiveOrderIndependent(r1: seq<Role>, g1: seq<Group>, r2: seq<Role>, g2: seq<Group>)
    requires multiset(r1) == multiset(r2) && multiset(g1) == multiset(g2)
    ensures forall x :: x in Effective(r1, g1) <==> x in Effective(r2, g2)
  {
    EffectiveIsSet(r1, g1);
    EffectiveIsSet(r2, g2);
    assert forall r :: r in r1 <==> r in multiset(r1);
    assert forall r :: r in r2 <==> r in multiset(r2);
    assert forall g :: g in g1 <==> g in multiset(g1);
    assert forall g :: g in g2 <==> g in multiset(g2);
    assert EffectiveSet(r1, g1) == EffectiveSet(r2, g2);
  }

  /** A grant added to one of the user's groups shows up in the effective permissions. */
  lemma GrantAddedToGroupIsEffective(roles: seq<Role>, groups: seq<Group>, i: nat, p: Permission)
    requires i < |groups|
    ensures var added := groups[i].(groupPermissions := groups[i].groupPermissions + [Grant(Some(p))]);
      Canonical(p) in Effective(roles, groups[i := added])
  {
    var added := groups[i].(groupPermissions := groups[i].groupPermissions + [Grant(Some(p))]);
    var gs := groups[i := added];
    EffectiveIsSet(roles, gs);
    assert gs[i] == added;
    assert added in gs && Grant(Some(p)) in added.groupPermissions;
  }

  /**
   * `extractPermissions`: walks every role's grants, then every group's grants,
   * adding `resource:action` to a set; grants without a permission are skipped.
   */
  method ExtractPermissions(roles: seq<Role>, groups: seq<Group>) returns (permissions: seq<string>)
    ensures permissions == Effective(roles, groups)
    ensures NoDuplicates(permissions)
    ensures forall x :: x in permissions <==> x in EffectiveSet(roles, groups)
  {
    permissions := CollectGrants(roles, groups);
    EffectiveIsSet(roles, groups);
  }

  /** The two loops of the walk: roles first, then groups. */
  method CollectGrants(roles: seq<Role>, groups: seq<Group>) returns (permissions: seq<string>)
    ensures permissions == Effective(roles, groups)
  {
    permissions := CollectRoleGrants(roles);
    permissions := CollectGroupGrants(permissions, RoleStrings(roles), groups);
  }

  /** The loop over the roles. */
  method CollectRoleGrants(roles: seq<Role>) returns (permissions: seq<string>)
    ensures permissions == Dedup(RoleStrings(roles))
  {
    permissions := [];
    for i := 0 to |roles|
      invariant permissions == Dedup(RoleStrings(roles[..i]))
    {
      permissions := AddGrants(permissions, RoleStrings(roles[..i]), roles[i].rolePermissions);
      assert roles[..i + 1][..i] == roles[..i];
    }
    assert roles[..|roles|] == roles;
  }

  /** The loop over the groups, continuing the set built from `seen`. */
  method CollectGroupGrants(acc: seq<string>, seen: seq<string>, groups: seq<Group>) returns (permissions: seq<string>)
    requires acc == Dedup(seen)
    ensures permissions == Dedup(seen + GroupStrings(groups))
  {
    permissions := acc;
    assert seen + GroupStrings(groups[..0]) == seen;
    for k := 0 to |groups|
      invariant permissions == Dedup(seen + GroupStrings(groups[..k]))
    {
      var before := GroupStrings(groups[..k]);
      var grants := groups[k].groupPermissions;
      permissions := AddGrants(permissions, seen + before, grants);
      assert groups[..k + 1][..k] == groups[..k];
      assert GroupStrings(groups[..k + 1]) == before + GrantStrings(grants);
      assert seen + (before + GrantStrings(grants)) == (seen + before) + GrantStrings(grants);
    }
    assert groups[..|groups|] == groups;
  }

  /** The walk over one role's or group's grants, adding each string to the set built from `seen`. */
  method AddGrants(acc: seq<string>, seen: seq<string>, grants: seq<Grant>) returns (acc': seq<string>)
    requires acc == Dedup(seen)
    ensures acc' == Dedup(seen + GrantStrings(grants))
  {
    acc' := acc;
    assert grants[..0] == [];
    assert seen + GrantStrings(grants[..0]) == seen;
    for j := 0 to |grants|
      invariant acc' == Dedup(seen + GrantStrings(grants[..j]))
    {
      acc' := AddGrant(acc', seen, grants, j);
    }
    assert grants[..|grants|] == grants;
  }

  /** One step of the walk: add the `j`-th grant's string to the set built from `seen`. */
  method AddGrant(acc: seq<string>, seen: seq<string>, grants: seq<Grant>, j: nat) returns (acc': seq<string>)
    requires j < |grants|
    requires acc == Dedup(seen + GrantStrings(grants[..j]))
    ensures acc' == Dedup(seen + GrantStrings(grants[..j + 1]))
  {
    var before := seen + GrantStrings(grants[..j]);
    assert grants[..j + 1][..j] == grants[..j];
    acc' := acc;
    var grant := grants[j];
    if grant.permission.Some? {
      var s := Canonical(grant.permission.value);
      assert seen + GrantStrings(grants[..j + 1]) == before + [s];
      assert (before + [s])[..|before|] == before;
      if s !in acc {
        acc' := acc + [s];
      }
    } else {
      assert seen + GrantStrings(grants[..j + 1]) == before;
    }
  }
}
