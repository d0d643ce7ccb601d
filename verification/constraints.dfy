/** The schema's uniqueness rules, each encoded as a condition on a row and a
    projection of the row onto the constrained columns.

    Encoding assumption (the SQL rule for unique constraints, which the
    databases Django targets follow): two rows violate a rule only when both
    satisfy its condition and their projections are equal with NO null
    component. A projection that contains a null never collides with
    anything, so nulls are pairwise distinct. */
module Constraints {
  import opened Wrappers
  import opened Entities

  /** A column value as it appears in a projection. */
  datatype Field = IdField(id: Id) | TextField(text: string)

  /** The four conditional unique constraints on `permissions`, in
      declaration order. */
  datatype PermissionConstraint =
    | UniqueDeptPermission     // (department, template) where sub-department, role, user are null
    | UniqueSubdeptPermission  // (department, sub-department, template) where role, user are null
    | UniqueRolePermission     // (department, sub-department, role, template) where user is null
    | UniqueUserPermission     // (department, sub-department, role, user, template), unconditional

  /** Every uniqueness rule of the schema. */
  datatype Rule =
    | DepartmentName                  // departments.name unique
    | SubDepartmentName               // sub_departments.name unique
    | SubDepartmentNamePerDepartment  // sub_departments (name, department) unique together
    | RoleName                        // role.name unique
    | UserEmail                       // users.email unique
    | DashboardName                   // dashboards.name unique
    | TemplateActionPerDashboard      // permission_templates (dashboard, action_name) unique together
    | PermissionRule(constraint: PermissionConstraint)

  /** The rules in the order the schema declares them. */
  const AllRules: seq<Rule> := [
    DepartmentName, SubDepartmentName, SubDepartmentNamePerDepartment, RoleName, UserEmail,
    DashboardName, TemplateActionPerDashboard,
    PermissionRule(UniqueDeptPermission), PermissionRule(UniqueSubdeptPermission),
    PermissionRule(UniqueRolePermission), PermissionRule(UniqueUserPermission)]

  lemma AllRulesListed(rule: Rule)
    ensures rule in AllRules
  {
    match rule
    case PermissionRule(UniqueDeptPermission) => assert AllRules[7] == rule;
    case PermissionRule(UniqueSubdeptPermission) => assert AllRules[8] == rule;
    case PermissionRule(UniqueRolePermission) => assert AllRules[9] == rule;
    case PermissionRule(UniqueUserPermission) => assert AllRules[10] == rule;
    case _ =>
  }

  function RuleTable(rule: Rule): Table
  {
    match rule
    case DepartmentName => Departments
    case SubDepartmentName => SubDepartments
    case SubDepartmentNamePerDepartment => SubDepartments
    case RoleName => Roles
    case UserEmail => Users
    case DashboardName => Dashboards
    case TemplateActionPerDashboard => PermissionTemplates
    case PermissionRule(_) => Permissions
  }

  /** The `condition=` of a permission constraint. */
  predicate PermissionFilter(c: PermissionConstraint, p: Permission)
  {
    match c
    case UniqueDeptPermission => p.subDepartment.None? && p.role.None? && p.user.None?
    case UniqueSubdeptPermission => p.role.None? && p.user.None?
    case UniqueRolePermission => p.user.None?
    case UniqueUserPermission => true
  }

  /** Whether a rule looks at a row at all: the row is in the rule's table
      and satisfies the rule's condition. */
  predicate Condition(rule: Rule, row: Row)
  {
    && TableOf(row) == RuleTable(rule)
    && (rule.PermissionRule? ==> PermissionFilter(rule.constraint, row.permission))
  }

  function OptField(id: Option<Id>): Option<Field>
  {
    if id.Some? then Some(IdField(id.value)) else None
  }

  /** The rule's `fields=`, read off the row, in declaration order. */
  function Projection(rule: Rule, row: Row): seq<Option<Field>>
    requires TableOf(row) == RuleTable(rule)
  {
    match rule
    case DepartmentName => [Some(TextField(row.dept.name))]
    case SubDepartmentName => [Some(TextField(row.sub.name))]
    case SubDepartmentNamePerDepartment => [Some(TextField(row.sub.name)), Some(IdField(row.sub.department))]
    case RoleName => [Some(TextField(row.role.name))]
    case UserEmail => [Some(TextField(row.user.email))]
    case DashboardName => [Some(TextField(row.dashboard.name))]
    case TemplateActionPerDashboard => [Some(IdField(row.template.dashboard)), Some(TextField(row.template.actionName))]
    case PermissionRule(c) =>
      var p := row.permission;
      match c
      case UniqueDeptPermission =>
        [Some(IdField(p.department)), Some(IdField(p.template))]
      case UniqueSubdeptPermission =>
        [Some(IdField(p.department)), OptField(p.subDepartment), Some(IdField(p.template))]
      case UniqueRolePermission =>
        [Some(IdField(p.department)), OptField(p.subDepartment), OptField(p.role), Some(IdField(p.template))]
      case UniqueUserPermission =>
        [Some(IdField(p.department)), OptField(p.subDepartment), OptField(p.role), OptField(p.user), Some(IdField(p.template))]
  }

  predicate NullFree(key: seq<Option<Field>>)
  {
    forall i :: 0 <= i < |key| ==> key[i].Some?
  }

  /** Rows `a` and `b` may not both be stored under `rule`. */
  predicate Collide(rule: Rule, a: Row, b: Row)
  {
    && Condition(rule, a)
    && Condition(rule, b)
    && NullFree(Projection(rule, a))
    && Projection(rule, a) == Projection(rule, b)
  }

  /** Every uniqueness rule holds between every two distinct rows. */
  ghost predicate Unique(s: Store)
  {
    forall rule, k1, k2 :: k1 in s && k2 in s && k1 != k2 ==> !Collide(rule, s[k1], s[k2])
  }

  /** A consistent store: well-formed, no dangling reference, no violated
      uniqueness rule. */
  ghost predicate Valid(s: Store)
  {
    WellFormed(s) && ReferentialIntegrity(s) && Unique(s)
  }

  /** Colliding is symmetric, so a rule cannot tell which row came first. */
  lemma CollideSymmetric(rule: Rule, a: Row, b: Row)
    ensures Collide(rule, a, b) <==> Collide(rule, b, a)
  {
  }

  /** The value a single-column rule keys a row on, with the row's table:
      the name of a department, sub-department, role or dashboard, or a
      user's e-mail. */
  function NameKey(row: Row): Option<(Table, string)>
  {
    match row
    case DepartmentRow(d) => Some((Departments, d.name))
    case SubDepartmentRow(sd) => Some((SubDepartments, sd.name))
    case RoleRow(r) => Some((Roles, r.name))
    case UserRow(u) => Some((Users, u.email))
    case DashboardRow(d) => Some((Dashboards, d.name))
    case _ => None
  }

  /** In a consistent store, the single-column rules make their column a key
      of the table: department, sub-department, role and dashboard names and
      user e-mails are each held by at most one row. */
  lemma NamesAreKeys(s: Store, k1: Key, k2: Key)
    requires Valid(s)
    requires k1 in s && k2 in s
    requires NameKey(s[k1]).Some? && NameKey(s[k1]) == NameKey(s[k2])
    ensures k1 == k2
  {
    var rule := match s[k1]
      case DepartmentRow(_) => DepartmentName
      case SubDepartmentRow(_) => SubDepartmentName
      case RoleRow(_) => RoleName
      case UserRow(_) => UserEmail
      case _ => DashboardName;
    assert Collide(rule, s[k1], s[k2]);
  }

  /** In a consistent store at most one template declares a given action on
      a given dashboard. */
  lemma OneTemplatePerAction(s: Store, k1: Key, k2: Key)
    requires Valid(s)
    requires k1 in s && k2 in s && s[k1].TemplateRow? && s[k2].TemplateRow?
    requires s[k1].template.dashboard == s[k2].template.dashboard
    requires s[k1].template.actionName == s[k2].template.actionName
    ensures k1 == k2
  {
    assert Collide(TemplateActionPerDashboard, s[k1], s[k2]);
  }

  /** The `(name, department)` pair rule on sub-departments adds nothing:
      every pair it forbids is already forbidden by the name being unique on
      its own. */
  lemma SubDepartmentPairRuleImplied(a: Row, b: Row)
    ensures Collide(SubDepartmentNamePerDepartment, a, b) ==> Collide(SubDepartmentName, a, b)
  {
    if Collide(SubDepartmentNamePerDepartment, a, b) {
      assert Projection(SubDepartmentNamePerDepartment, a)[0] == Projection(SubDepartmentNamePerDepartment, b)[0];
    }
  }

  /** Sub-department names are unique across ALL departments: two
      sub-departments of different departments collide when their names
      match. */
  lemma SubDepartmentNameGlobal(name: string, d1: Id, d2: Id, desc1: Option<string>, desc2: Option<string>)
    ensures Collide(SubDepartmentName, SubDepartmentRow(SubDepartment(name, desc1, d1)),
                                       SubDepartmentRow(SubDepartment(name, desc2, d2)))
  {
  }
}
