/** Deleting a row: every foreign key is `on_delete=CASCADE`, so the
    delete removes the row and, transitively, every row that points to a
    removed row. The removed set is computed as the least set containing the
    target that is closed under "points into the set". */
module Cascade {
  import opened Wrappers
  import opened Entities
  import opened Constraints

  /** No row of `s` points into `X` without being in `X` itself. */
  ghost predicate ClosedUnder(s: Store, X: set<Key>)
  {
    forall k :: k in s && Parents(s[k]) * X != {} ==> k in X
  }

  /** The rows of `s` with a foreign key into `X`. */
  function Dependents(s: Store, X: set<Key>): set<Key>
  {
    set k | k in s && Parents(s[k]) * X != {}
  }

  lemma StrictSubsetSmaller<T>(a: set<T>, b: set<T>)
    requires a < b
    ensures |a| < |b|
  {
    assert exists y :: y in b && y !in a;
    assert b == a + (b - a);
    assert a * (b - a) == {};
  }

  lemma DisjointExcludes<T>(a: set<T>, b: set<T>, x: T)
    requires a * b == {} && x in b
    ensures x !in a
  {
    assert x !in a * b;
  }

  /** Grows `X` by its dependents until nothing more is added. */
  function CascadeFrom(s: Store, X: set<Key>): (c: set<Key>)
    ensures X <= c <= X + s.Keys
    ensures ClosedUnder(s, c)
    decreases |s.Keys - X|
  {
    var next := X + Dependents(s, X);
    if next == X then X
    else
      assert s.Keys - next < s.Keys - X by {
        var k :| k in next && k !in X;
        assert k in s.Keys - X && k !in s.Keys - next;
      }
      StrictSubsetSmaller(s.Keys - next, s.Keys - X);
      CascadeFrom(s, next)
  }

  /** The cascade is the LEAST closed set: it lies inside every closed set
      that contains its starting set. */
  lemma {:induction false} CascadeLeast(s: Store, X: set<Key>, y: set<Key>)
    requires X <= y && ClosedUnder(s, y)
    ensures CascadeFrom(s, X) <= y
    decreases |s.Keys - X|
  {
    var next := X + Dependents(s, X);
    if next != X {
      assert s.Keys - next < s.Keys - X by {
        var k :| k in next && k !in X;
        assert k in s.Keys - X && k !in s.Keys - next;
      }
      StrictSubsetSmaller(s.Keys - next, s.Keys - X);
      assert next <= y;
      CascadeLeast(s, next, y);
    }
  }

  /** The rows a delete of `target` removes (the target among them, when it
      is stored). */
  function Removed(s: Store, target: Key): set<Key>
  {
    CascadeFrom(s, {target})
  }

  /** `Model.delete()` on the row at `target`. */
  function Delete(s: Store, target: Key): (r: Store)
    // the target is gone, and no remaining row was changed
    ensures target !in r
    ensures r.Keys <= s.Keys && forall k :: k in r ==> r[k] == s[k]
    // no remaining row points to the target or to a removed row
    ensures forall k :: k in r ==> target !in Parents(r[k])
    ensures forall k, p :: k in r && p in Parents(r[k]) && p in s ==> p in r
    // nothing dangles afterwards, and every uniqueness rule still holds
    ensures ReferentialIntegrity(s) ==> ReferentialIntegrity(r)
    ensures Valid(s) ==> Valid(r)
  {
    var c := Removed(s, target);
    var r := map k | k in s && k !in c :: s[k];
    assert target in c;
    assert forall k :: k in r ==> Parents(r[k]) * c == {};
    assert forall k :: k in r ==> target !in Parents(r[k]) by {
      forall k | k in r ensures target !in Parents(r[k]) {
        DisjointExcludes(Parents(r[k]), c, target);
      }
    }
    r
  }

  /** A delete removes nothing it need not: every row it removes lies in
      every closed set containing the target, i.e. depends on the target
      through a chain of foreign keys. */
  lemma DeleteRemovesOnlyDependents(s: Store, target: Key, y: set<Key>)
    requires target in y && ClosedUnder(s, y)
    ensures forall k :: k in s && k !in Delete(s, target) ==> k in y
  {
    CascadeLeast(s, {target}, y);
  }

  /** Each removed row other than the target has a foreign key to the target
      or to another removed row. */
  lemma RemovedRowsJustified(s: Store, target: Key, k: Key)
    requires k in s && k !in Delete(s, target) && k != target
    ensures exists p :: p in Parents(s[k]) && (p == target || (p in s && p !in Delete(s, target)))
  {
    var c := Removed(s, target);
    assert k in c;
    if Parents(s[k]) * c == {} {
      var y := c - {k};
      assert ClosedUnder(s, y) by {
        forall j | j in s && Parents(s[j]) * y != {} ensures j in y {
          assert j in c;
        }
      }
      CascadeLeast(s, {target}, y);
      assert false;
    }
    var p :| p in Parents(s[k]) && p in c;
    assert p == target || (p in s && p !in Delete(s, target));
  }

  /** Deleting a department removes every sub-department, user and grant of
      that department, and leaves no foreign key dangling. */
  lemma DeleteDepartmentCascades(s: Store, d: Id)
    requires Valid(s)
    ensures var r := Delete(s, Key(Departments, d));
            && Valid(r)
            && forall k :: k in r ==>
                 && (r[k].SubDepartmentRow? ==> r[k].sub.department != d)
                 && (r[k].UserRow? ==> r[k].user.department != d)
                 && (r[k].PermissionRow? ==> r[k].permission.department != d)
  {
    var r := Delete(s, Key(Departments, d));
    forall k | k in r
      ensures r[k].SubDepartmentRow? ==> r[k].sub.department != d
      ensures r[k].UserRow? ==> r[k].user.department != d
      ensures r[k].PermissionRow? ==> r[k].permission.department != d
    {
      assert Key(Departments, d) !in Parents(r[k]);
    }
  }

  /** Deleting a user removes every grant made to that user, and deleting a
      template removes every grant of that template. */
  lemma DeleteRemovesGrantsOfUserAndTemplate(s: Store, table: Table, id: Id)
    requires table in {Users, PermissionTemplates}
    ensures var r := Delete(s, Key(table, id));
            forall k :: k in r && r[k].PermissionRow? ==>
              && (table == Users ==> r[k].permission.user != Some(id))
              && (table == PermissionTemplates ==> r[k].permission.template != id)
  {
    var r := Delete(s, Key(table, id));
    forall k | k in r && r[k].PermissionRow?
      ensures table == Users ==> r[k].permission.user != Some(id)
      ensures table == PermissionTemplates ==> r[k].permission.template != id
    {
      ForeignKeysAreEdges(r[k]);
      assert Key(table, id) !in Parents(r[k]);
    }
  }
}
