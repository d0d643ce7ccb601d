/** The seven tables of the user-management schema, their rows, and the
    foreign-key edges between them. Creation and update timestamps are not
    modelled. */
module Entities {
  import opened Wrappers
  import opened PyValues

  /** A primary key. */
  type Id = nat

  datatype Department = Department(name: string, description: Option<string> := None)

  datatype SubDepartment = SubDepartment(name: string, description: Option<string> := None, department: Id)

  datatype Role = Role(name: string, description: Option<string> := None)

  datatype User = User(
    username: string,
    email: string,
    department: Id,
    subDepartment: Id,
    role: Id,
    isActive: bool := true)

  /** `config` is a JSON value the model does not look inside. */
  datatype Dashboard = Dashboard(name: string, description: Option<string> := None, config: Option<Value> := None)

  datatype PermissionTemplate = PermissionTemplate(
    dashboard: Id,
    actionName: string,
    description: Option<string> := None,
    isActive: bool := true)

  /** A grant: a template, a required department, and three optional scope
      references that together fix the grant's tier. */
  datatype Permission = Permission(
    department: Id,
    subDepartment: Option<Id> := None,
    role: Option<Id> := None,
    user: Option<Id> := None,
    template: Id,
    allowed: bool := true)

  datatype Table = Departments | SubDepartments | Roles | Users | Dashboards | PermissionTemplates | Permissions

  /** A row of one of the tables. */
  datatype Row =
    | DepartmentRow(dept: Department)
    | SubDepartmentRow(sub: SubDepartment)
    | RoleRow(role: Role)
    | UserRow(user: User)
    | DashboardRow(dashboard: Dashboard)
    | TemplateRow(template: PermissionTemplate)
    | PermissionRow(permission: Permission)

  /** A row's address: its table and its primary key. */
  datatype Key = Key(table: Table, id: Id)

  /** The store: every row, by address. */
  type Store = map<Key, Row>

  function TableOf(row: Row): Table
  {
    match row
    case DepartmentRow(_) => Departments
    case SubDepartmentRow(_) => SubDepartments
    case RoleRow(_) => Roles
    case UserRow(_) => Users
    case DashboardRow(_) => Dashboards
    case TemplateRow(_) => PermissionTemplates
    case PermissionRow(_) => Permissions
  }

  function OptionalRef(table: Table, id: Option<Id>): set<Key>
  {
    if id.Some? then {Key(table, id.value)} else {}
  }

  /** The rows a row's foreign keys point to. Every foreign key of the
      schema is declared `on_delete=CASCADE`, so these are also the rows
      whose deletion deletes this one. */
  function Parents(row: Row): set<Key>
  {
    match row
    case DepartmentRow(_) => {}
    case SubDepartmentRow(s) => {Key(Departments, s.department)}
    case RoleRow(_) => {}
    case UserRow(u) => {Key(Departments, u.department), Key(SubDepartments, u.subDepartment), Key(Roles, u.role)}
    case DashboardRow(_) => {}
    case TemplateRow(t) => {Key(Dashboards, t.dashboard)}
    case PermissionRow(p) =>
      {Key(Departments, p.department), Key(PermissionTemplates, p.template)}
      + OptionalRef(SubDepartments, p.subDepartment)
      + OptionalRef(Roles, p.role)
      + OptionalRef(Users, p.user)
  }

  /** Every row sits in its own table. */
  predicate WellFormed(s: Store)
  {
    forall k :: k in s ==> TableOf(s[k]) == k.table
  }

  /** No foreign key dangles. */
  predicate ReferentialIntegrity(s: Store)
  {
    forall k :: k in s ==> Parents(s[k]) <= s.Keys
  }

  /** The cascade edges, child table to parent table: sub-departments, users
      and permissions hang off departments; users and permissions off
      sub-departments and roles; permissions off users; templates off
      dashboards and permissions off templates. Nothing else points anywhere. */
  lemma CascadeEdges(row: Row, parent: Key)
    requires parent in Parents(row)
    ensures parent.table == Departments ==> TableOf(row) in {SubDepartments, Users, Permissions}
    ensures parent.table == SubDepartments ==> TableOf(row) in {Users, Permissions}
    ensures parent.table == Roles ==> TableOf(row) in {Users, Permissions}
    ensures parent.table == Users ==> TableOf(row) == Permissions
    ensures parent.table == Dashboards ==> TableOf(row) == PermissionTemplates
    ensures parent.table == PermissionTemplates ==> TableOf(row) == Permissions
    ensures parent.table != Permissions
  {
  }

  /** Conversely, every foreign key the schema declares is an edge: the
      department of a sub-department; the department, sub-department and
      role of a user; the dashboard of a template; and the department,
      template and each set sub-department, role and user of a grant. */
  lemma ForeignKeysAreEdges(row: Row)
    ensures row.SubDepartmentRow? ==> Key(Departments, row.sub.department) in Parents(row)
    ensures row.UserRow? ==>
              && Key(Departments, row.user.department) in Parents(row)
              && Key(SubDepartments, row.user.subDepartment) in Parents(row)
              && Key(Roles, row.user.role) in Parents(row)
    ensures row.TemplateRow? ==> Key(Dashboards, row.template.dashboard) in Parents(row)
    ensures row.PermissionRow? ==>
              var p := row.permission;
              && Key(Departments, p.department) in Parents(row)
              && Key(PermissionTemplates, p.template) in Parents(row)
              && (p.subDepartment.Some? ==> Key(SubDepartments, p.subDepartment.value) in Parents(row))
              && (p.role.Some? ==> Key(Roles, p.role.value) in Parents(row))
              && (p.user.Some? ==> Key(Users, p.user.value) in Parents(row))
    ensures row.DepartmentRow? || row.RoleRow? || row.DashboardRow? ==> Parents(row) == {}
  {
  }

  /** Field defaults: `is_active` and `allowed` start out true and the
      optional scope references start out null. */
  lemma FieldDefaults(d: Id, sd: Id, r: Id, dash: Id, t: Id, username: string, email: string, action: string)
    ensures User(username, email, d, sd, r).isActive
    ensures PermissionTemplate(dash, action).isActive
    ensures var p := Permission(department := d, template := t);
            p.allowed && p.subDepartment.None? && p.role.None? && p.user.None?
  {
  }
}
