/** What the four conditional unique constraints on `permissions` add up to:
    which pairs of grants they keep apart, which they let coexist, and which
    grant shapes they never catch. */
module PermissionTiers {
  import opened Wrappers
  import opened Entities
  import opened Constraints

  /** The specificity tier a grant's optional references put it in. */
  datatype Tier = DepartmentTier | SubDepartmentTier | RoleTier | UserTier

  function TierOf(p: Permission): Tier
  {
    if p.user.Some? then UserTier
    else if p.role.Some? then RoleTier
    else if p.subDepartment.Some? then SubDepartmentTier
    else DepartmentTier
  }

  /** The constraint named after each tier. */
  function TierConstraint(t: Tier): PermissionConstraint
  {
    match t
    case DepartmentTier => UniqueDeptPermission
    case SubDepartmentTier => UniqueSubdeptPermission
    case RoleTier => UniqueRolePermission
    case UserTier => UniqueUserPermission
  }

  /** Two grants with the same department, sub-department, role, user and
      template (the `allowed` flag aside). */
  predicate SameScope(p: Permission, q: Permission)
  {
    && p.department == q.department
    && p.subDepartment == q.subDepartment
    && p.role == q.role
    && p.user == q.user
    && p.template == q.template
  }

  /** The populated optional references form a prefix of (sub-department,
      role, user): a role only with a sub-department, a user only with a
      role. Only such grants are fully keyed by their tier's constraint. */
  predicate PrefixShaped(p: Permission)
  {
    (p.user.Some? ==> p.role.Some?) && (p.role.Some? ==> p.subDepartment.Some?)
  }

  /** Some rule forbids storing both grants. */
  ghost predicate Conflict(p: Permission, q: Permission)
  {
    exists rule :: Collide(rule, PermissionRow(p), PermissionRow(q))
  }

  lemma OptFieldInjective(a: Option<Id>, b: Option<Id>)
    ensures OptField(a) == OptField(b) ==> a == b
  {
  }

  lemma {:induction false} CollisionMeansSameScope(c: PermissionConstraint, p: Permission, q: Permission)
    requires Collide(PermissionRule(c), PermissionRow(p), PermissionRow(q))
    ensures SameScope(p, q) && PrefixShaped(p)
  {
    var kp := Projection(PermissionRule(c), PermissionRow(p));
    var kq := Projection(PermissionRule(c), PermissionRow(q));
    assert kp == kq;
    match c
    case UniqueDeptPermission =>
      assert kp[0] == kq[0] && kp[1] == kq[1];
    case UniqueSubdeptPermission =>
      assert kp[0] == kq[0] && kp[2] == kq[2];
      assert kp[1].Some?;
      OptFieldInjective(p.subDepartment, q.subDepartment);
    case UniqueRolePermission =>
      assert kp[0] == kq[0] && kp[3] == kq[3];
      assert kp[1].Some? && kp[2].Some?;
      OptFieldInjective(p.subDepartment, q.subDepartment);
      OptFieldInjective(p.role, q.role);
    case UniqueUserPermission =>
      assert kp[0] == kq[0] && kp[4] == kq[4];
      assert kp[1].Some? && kp[2].Some? && kp[3].Some?;
      OptFieldInjective(p.subDepartment, q.subDepartment);
      OptFieldInjective(p.role, q.role);
      OptFieldInjective(p.user, q.user);
  }

  /** Exactly one constraint catches a duplicate of a prefix-shaped grant:
      the one named after its tier. */
  lemma {:induction false} TierConstraintCatches(p: Permission, q: Permission, c: PermissionConstraint)
    requires SameScope(p, q) && PrefixShaped(p)
    ensures Collide(PermissionRule(c), PermissionRow(p), PermissionRow(q)) <==> c == TierConstraint(TierOf(p))
  {
    var kp := Projection(PermissionRule(c), PermissionRow(p));
    if c == TierConstraint(TierOf(p)) {
      assert NullFree(kp) by {
        forall i | 0 <= i < |kp| ensures kp[i].Some? {
        }
      }
      assert kp == Projection(PermissionRule(c), PermissionRow(q));
    } else {
      match c
      case UniqueDeptPermission =>
      case UniqueSubdeptPermission =>
        if PermissionFilter(c, p) { assert kp[1] == None; }
      case UniqueRolePermission =>
        if PermissionFilter(c, p) { assert kp[2] == None; }
      case UniqueUserPermission =>
        assert kp[3] == None;
    }
  }

  /** The four constraints together forbid two grants exactly when the grants
      agree on every reference and the template, and the grant is
      prefix-shaped. */
  lemma ConflictCharacterization(p: Permission, q: Permission)
    ensures Conflict(p, q) <==> SameScope(p, q) && PrefixShaped(p)
  {
    if Conflict(p, q) {
      var rule :| Collide(rule, PermissionRow(p), PermissionRow(q));
      CollisionMeansSameScope(rule.constraint, p, q);
    }
    if SameScope(p, q) && PrefixShaped(p) {
      TierConstraintCatches(p, q, TierConstraint(TierOf(p)));
      assert Collide(PermissionRule(TierConstraint(TierOf(p))), PermissionRow(p), PermissionRow(q));
    }
  }

  /** Grants at different tiers never conflict: a department-wide deny and a
      user-specific allow for the same template can both be stored. */
  lemma DifferentTiersCoexist(p: Permission, q: Permission)
    requires TierOf(p) != TierOf(q)
    ensures !Conflict(p, q)
  {
    ConflictCharacterization(p, q);
  }

  /** Two department-tier grants for the same department and template
      conflict, whatever their `allowed` flags. */
  lemma DepartmentTierDuplicate(p: Permission, q: Permission)
    requires TierOf(p) == DepartmentTier && TierOf(q) == DepartmentTier
    requires p.department == q.department && p.template == q.template
    ensures Collide(PermissionRule(UniqueDeptPermission), PermissionRow(p), PermissionRow(q))
  {
  }

  /** A projection with a null never collides: among the grants a
      sub-department, role or user constraint looks at, only those with every
      projected column set are kept apart. */
  lemma NullProjectionNeverCollides(c: PermissionConstraint, p: Permission, q: Permission)
    requires !NullFree(Projection(PermissionRule(c), PermissionRow(p)))
    ensures !Collide(PermissionRule(c), PermissionRow(p), PermissionRow(q))
    ensures !Collide(PermissionRule(c), PermissionRow(q), PermissionRow(p))
  {
  }

  /** A grant that is not prefix-shaped (for instance a role without a
      sub-department, or a user without a role) falls through every
      constraint: not even an identical copy is rejected. */
  lemma NonPrefixFallsThrough(p: Permission, q: Permission)
    requires !PrefixShaped(p)
    ensures !Conflict(p, q) && !Conflict(q, p)
  {
    ConflictCharacterization(p, q);
    ConflictCharacterization(q, p);
  }

  /** So a store may hold two identical role grants that name no
      sub-department. */
  lemma DuplicateRoleGrantStored(p: Permission, k1: Key, k2: Key)
    requires p.role.Some? && p.subDepartment.None?
    ensures Unique(map[k1 := PermissionRow(p), k2 := PermissionRow(p)])
  {
    var s := map[k1 := PermissionRow(p), k2 := PermissionRow(p)];
    forall rule, j1, j2 | j1 in s && j2 in s && j1 != j2
      ensures !Collide(rule, s[j1], s[j2])
    {
      NonPrefixFallsThrough(p, p);
    }
  }

  /** In a consistent store there is at most one grant per tier and scope:
      two prefix-shaped grants with the same references and template are the
      same row. */
  lemma OneGrantPerScope(s: Store, k1: Key, k2: Key)
    requires Valid(s)
    requires k1 in s && k2 in s && s[k1].PermissionRow? && s[k2].PermissionRow?
    requires SameScope(s[k1].permission, s[k2].permission) && PrefixShaped(s[k1].permission)
    ensures k1 == k2
  {
    ConflictCharacterization(s[k1].permission, s[k2].permission);
  }
}
