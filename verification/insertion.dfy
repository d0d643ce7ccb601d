/** Saving a new row: the database refuses it when its primary key is taken,
    when a foreign key dangles, or when it would break a uniqueness rule. */
module Insertion {
  import opened Wrappers
  import opened Entities
  import opened Constraints
  import opened PermissionTiers

  /** Why the database refused a row (an `IntegrityError`). */
  datatype IntegrityError =
    | DuplicateKey(key: Key)
    | MissingReferences(missing: set<Key>)
    | UniqueViolation(rule: Rule)

  /** Storing `row` beside the rows of `s` would break `rule`. */
  predicate Violates(s: Store, row: Row, rule: Rule)
  {
    exists k :: k in s && Collide(rule, row, s[k])
  }

  /** The first rule of `rules` that `row` would break. */
  function FirstViolated(s: Store, row: Row, rules: seq<Rule>): (r: Option<Rule>)
    ensures r.Some? ==> r.value in rules && Violates(s, row, r.value)
    ensures r.None? ==> forall i :: 0 <= i < |rules| ==> !Violates(s, row, rules[i])
  {
    if rules == [] then None
    else if Violates(s, row, rules[0]) then Some(rules[0])
    else FirstViolated(s, row, rules[1..])
  }

  /** Saves `row` under primary key `id` in its table. The first failing
      check is reported: primary key, then foreign keys, then the uniqueness
      rules in declaration order. */
  function Insert(s: Store, id: Id, row: Row): (r: Result<Store, IntegrityError>)
    // accepted exactly when the key is free, every reference resolves and no rule is broken
    ensures r.Ok? <==>
              && Key(TableOf(row), id) !in s
              && Parents(row) <= s.Keys
              && forall rule, k :: k in s ==> !Collide(rule, row, s[k])
    // on success the row is added and nothing else changes
    ensures r.Ok? ==>
              && r.value.Keys == s.Keys + {Key(TableOf(row), id)}
              && r.value[Key(TableOf(row), id)] == row
              && forall k :: k in s ==> r.value[k] == s[k]
    // each refusal names a real cause
    ensures r.Err? && r.error.DuplicateKey? ==> r.error.key == Key(TableOf(row), id) && r.error.key in s
    ensures r.Err? && r.error.MissingReferences? ==>
              r.error.missing != {} && r.error.missing <= Parents(row) && r.error.missing !! s.Keys
    ensures r.Err? && r.error.UniqueViolation? ==> Violates(s, row, r.error.rule)
    // a consistent store stays consistent
    ensures r.Ok? && Valid(s) ==> Valid(r.value)
  {
    var key := Key(TableOf(row), id);
    if key in s then Err(DuplicateKey(key))
    else if !(Parents(row) <= s.Keys) then
      assert exists p :: p in Parents(row) && p !in s.Keys;
      Err(MissingReferences(Parents(row) - s.Keys))
    else match FirstViolated(s, row, AllRules)
      case Some(rule) => Err(UniqueViolation(rule))
      case None =>
        InsertPreservesValid(s, key, row);
        Ok(s[key := row])
  }

  lemma InsertPreservesValid(s: Store, key: Key, row: Row)
    requires key !in s && key.table == TableOf(row) && Parents(row) <= s.Keys
    requires FirstViolated(s, row, AllRules).None?
    ensures forall rule, k :: k in s ==> !Collide(rule, row, s[k])
    ensures Valid(s) ==> Valid(s[key := row])
  {
    forall rule, k | k in s ensures !Collide(rule, row, s[k]) {
      AllRulesListed(rule);
      var i :| 0 <= i < |AllRules| && AllRules[i] == rule;
      assert !Violates(s, row, AllRules[i]);
    }
    if Valid(s) {
      var t := s[key := row];
      forall rule, k1, k2 | k1 in t && k2 in t && k1 != k2 ensures !Collide(rule, t[k1], t[k2]) {
        if k1 == key {
          assert !Collide(rule, row, s[k2]);
        } else if k2 == key {
          assert !Collide(rule, row, s[k1]);
          CollideSymmetric(rule, row, s[k1]);
        }
      }
    }
  }

  /** A row that collides with a stored row under some rule is refused. */
  lemma DuplicateRejected(s: Store, id: Id, row: Row, rule: Rule, k: Key)
    requires k in s && Collide(rule, row, s[k])
    ensures Insert(s, id, row).Err?
  {
  }

  /** Department, role and dashboard names and user e-mails: a second row
      with a stored value is refused. */
  lemma DuplicateNamesRejected(s: Store, id: Id, row: Row, k: Key)
    requires k in s && TableOf(s[k]) == TableOf(row)
    requires row.DepartmentRow? ==> row.dept.name == s[k].dept.name
    requires row.RoleRow? ==> row.role.name == s[k].role.name
    requires row.DashboardRow? ==> row.dashboard.name == s[k].dashboard.name
    requires row.UserRow? ==> row.user.email == s[k].user.email
    requires row.DepartmentRow? || row.RoleRow? || row.DashboardRow? || row.UserRow?
    ensures Insert(s, id, row).Err?
  {
    var rule := match row
      case DepartmentRow(_) => DepartmentName
      case RoleRow(_) => RoleName
      case DashboardRow(_) => DashboardName
      case UserRow(_) => UserEmail
      case _ => DepartmentName;
    assert Collide(rule, row, s[k]);
  }

  /** A sub-department whose name is already used is refused, even under a
      different department, and the rule reported is the name's own
      uniqueness (not the `(name, department)` pair). */
  lemma SubDepartmentNameTakenRejected(s: Store, id: Id, sub: SubDepartment, k: Key)
    requires k in s && s[k].SubDepartmentRow? && s[k].sub.name == sub.name
    requires s[k].sub.department != sub.department
    requires Key(SubDepartments, id) !in s && Key(Departments, sub.department) in s
    ensures Insert(s, id, SubDepartmentRow(sub)) == Err(UniqueViolation(SubDepartmentName))
  {
    var row := SubDepartmentRow(sub);
    assert Parents(row) <= s.Keys;
    assert !Violates(s, row, AllRules[0]);
    assert Violates(s, row, AllRules[1..][0]) by {
      assert Collide(SubDepartmentName, row, s[k]);
    }
    assert FirstViolated(s, row, AllRules) == FirstViolated(s, row, AllRules[1..]);
    assert FirstViolated(s, row, AllRules[1..]) == Some(SubDepartmentName);
  }

  /** Whether a grant can be saved does not depend on stored grants of a
      different tier: removing such a grant changes nothing. */
  lemma OtherTierGrantIrrelevant(s: Store, id: Id, q: Permission, k: Key)
    requires WellFormed(s)
    requires k in s && s[k].PermissionRow? && TierOf(s[k].permission) != TierOf(q)
    requires k != Key(Permissions, id)
    ensures Insert(s, id, PermissionRow(q)).Ok? <==> Insert(s - {k}, id, PermissionRow(q)).Ok?
  {
    var row := PermissionRow(q);
    var s' := s - {k};
    DifferentTiersCoexist(q, s[k].permission);
    assert Parents(row) <= s.Keys <==> Parents(row) <= s'.Keys by {
      assert k !in Parents(row);
    }
    if forall rule, j :: j in s' ==> !Collide(rule, row, s'[j]) {
      forall rule, j | j in s ensures !Collide(rule, row, s[j]) {
        if j == k {
          assert !Conflict(q, s[k].permission);
        } else {
          assert j in s' && s'[j] == s[j];
        }
      }
    }
  }
}
