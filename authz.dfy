/**
 * Pipeline-group authorization (edxpipelines/patterns/authz.py).
 *
 * A group's `authorization` element holds one element per permission
 * kind, each holding `role` children. `ensure_permissions` ensures the
 * `authorization` element and the kind's element, empties the latter and
 * appends one `role` child per role, in order; nothing else changes.
 */
module Authz {
  import opened Wrappers
  import opened GoCD

  /** The valid GoCD authorizations. */
  datatype Permission = Admins | Operate | View

  /** The enumeration's values, which are the permission elements' tags. */
  function PermissionValue(p: Permission): (r: string)
  {
    match p
    case Admins => "admins"
    case Operate => "operate"
    case View => "view"
  }

  function Tags(es: seq<PermissionElement>): (r: seq<string>)
    ensures |r| == |es| && forall i :: 0 <= i < |es| ==> r[i] == es[i].tag
  {
    seq(|es|, i requires 0 <= i < |es| => es[i].tag)
  }

  /** The texts of a list of `role` children. */
  function RoleTexts(children: seq<XmlChild>): (r: seq<string>)
    ensures |r| == |children| && forall i :: 0 <= i < |children| ==> r[i] == children[i].text
  {
    seq(|children|, i requires 0 <= i < |children| => children[i].text)
  }

  /** One `role` child per role, in order. */
  function RoleChildren(roles: seq<string>): (r: seq<XmlChild>)
  {
    if |roles| == 0 then [] else RoleChildren(roles[..|roles| - 1]) + [XmlChild("role", roles[|roles| - 1])]
  }

  /** The children are `role` elements whose texts are exactly the roles, in order. */
  lemma {:induction false} RoleChildrenExact(roles: seq<string>)
    ensures |RoleChildren(roles)| == |roles|
    ensures forall i :: 0 <= i < |roles| ==> RoleChildren(roles)[i] == XmlChild("role", roles[i])
    ensures RoleTexts(RoleChildren(roles)) == roles
  {
    if |roles| > 0 {
      RoleChildrenExact(roles[..|roles| - 1]);
    }
  }

  /**
   * The authorization element's children after the call: the first
   * element tagged `tag` (appended when there is none) holds exactly the
   * role children.
   */
  function WithRoles(es: seq<PermissionElement>, tag: string, roles: seq<string>): (r: seq<PermissionElement>)
  {
    match IndexOf(Tags(es), tag)
    case Some(i) => es[i := PermissionElement(tag, RoleChildren(roles))]
    case None => es + [PermissionElement(tag, RoleChildren(roles))]
  }

  /**
   * The kind's element is present, reused when it was there and created
   * otherwise, and holds exactly the roles; every other element is left
   * unchanged and in place.
   */
  lemma WithRolesEffect(es: seq<PermissionElement>, tag: string, roles: seq<string>)
    ensures var r := WithRoles(es, tag, roles);
      && |r| == (if tag in Tags(es) then |es| else |es| + 1)
      && IndexOf(Tags(r), tag).Some?
      && RoleTexts(r[IndexOf(Tags(r), tag).value].children) == roles
      && (tag in Tags(es) ==> IndexOf(Tags(r), tag) == IndexOf(Tags(es), tag))
      && forall i :: 0 <= i < |es| && i != IndexOf(Tags(r), tag).value ==> r[i] == es[i]
  {
    RoleChildrenExact(roles);
    var r := WithRoles(es, tag, roles);
    match IndexOf(Tags(es), tag)
    case Some(i) =>
      assert Tags(r) == Tags(es);
    case None =>
      assert Tags(r) == Tags(es) + [tag];
      assert IndexOf(Tags(r), tag) == Some(|es|);
  }

  /** Calling twice with the same arguments is calling once. */
  lemma WithRolesIdempotent(es: seq<PermissionElement>, tag: string, roles: seq<string>)
    ensures WithRoles(WithRoles(es, tag, roles), tag, roles) == WithRoles(es, tag, roles)
  {
    var r := WithRoles(es, tag, roles);
    match IndexOf(Tags(es), tag)
    case Some(i) =>
      assert Tags(r) == Tags(es);
    case None =>
      assert Tags(r) == Tags(es) + [tag];
      assert IndexOf(Tags(r), tag) == Some(|es|);
  }

  /** Granting no roles leaves the kind's element present and empty. */
  lemma WithNoRoles(es: seq<PermissionElement>, tag: string)
    ensures var r := WithRoles(es, tag, []);
      IndexOf(Tags(r), tag).Some? && r[IndexOf(Tags(r), tag).value].children == []
  {
    WithRolesEffect(es, tag, []);
  }

  /** The first occurrence is the one `IndexOf` finds. */
  lemma IndexOfFirst(names: seq<string>, n: string, k: nat)
    requires k < |names| && names[k] == n && forall i :: 0 <= i < k ==> names[i] != n
    ensures IndexOf(names, n) == Some(k)
  {
  }

  /** Granting one permission kind leaves every other kind's element as it was, at the same place. */
  lemma WithRolesOtherKind(es: seq<PermissionElement>, tag: string, roles: seq<string>, other: string)
    requires other != tag && other in Tags(es)
    ensures var r := WithRoles(es, tag, roles);
      IndexOf(Tags(r), other) == IndexOf(Tags(es), other)
      && r[IndexOf(Tags(r), other).value] == es[IndexOf(Tags(es), other).value]
  {
    var r := WithRoles(es, tag, roles);
    var j := IndexOf(Tags(es), other).value;
    assert r[j] == es[j];
    assert forall i :: 0 <= i < j ==> Tags(r)[i] == Tags(es)[i];
    IndexOfFirst(Tags(r), other, j);
  }

  /** The `authorization` element's children; an absent element is created empty. */
  function Existing(authorization: Option<seq<PermissionElement>>): seq<PermissionElement>
  {
    match authorization
    case None => []
    case Some(es) => es
  }

  /**
   * `ensure_permissions`: ensure the `authorization` element, ensure the
   * kind's element, empty it, then append one `role` child per role.
   */
  method EnsurePermissions(group: PipelineGroup, permission: Permission, roles: seq<string>)
    modifies group`authorization
    ensures group.authorization == Some(WithRoles(Existing(old(group.authorization)), PermissionValue(permission), roles))
  {
    var authorization := Existing(group.authorization);
    var tag := PermissionValue(permission);
    var children: seq<XmlChild> := [];
    var k := 0;
    while k < |roles|
      invariant 0 <= k <= |roles|
      invariant children == RoleChildren(roles[..k])
    {
      assert roles[..k + 1][..k] == roles[..k];
      children := children + [XmlChild("role", roles[k])];
      k := k + 1;
    }
    assert roles[..k] == roles;
    var found := IndexOf(Tags(authorization), tag);
    if found.Some? {
      authorization := authorization[found.value := PermissionElement(tag, children)];
    } else {
      authorization := authorization + [PermissionElement(tag, children)];
    }
    group.authorization := Some(authorization);
  }
}
