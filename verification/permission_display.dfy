/** `Permission.__str__`: "<dashboard> - <action> → <level info> (Allowed:
    <flag>)", where the level info joins the names of the grant's role, user,
    sub-department and department, in that order, skipping the missing ones. */
module PermissionDisplay {
  import opened Wrappers
  import opened Entities
  import opened Constraints

  /** The arrow between the action and the level info, spelled as the three
      characters the model file holds (the UTF-8 bytes of U+2192 read back
      as Windows-1252). */
  const Arrow: string := "\U{E2}\U{2020}\U{2019}"

  const Separator: string := " + "

  /** `sep.join(parts)`. */
  function Join(sep: string, parts: seq<string>): string
  {
    if |parts| == 0 then ""
    else if |parts| == 1 then parts[0]
    else parts[0] + sep + Join(sep, parts[1..])
  }

  /** One entry of the level list after the filter: a missing reference and
      an empty name both drop out. */
  function Present(name: Option<string>): seq<string>
  {
    if name.Some? && name.value != "" then [name.value] else []
  }

  /** The level info for the given names of role, user, sub-department and
      department. */
  function LevelInfo(role: Option<string>, user: Option<string>, sub: Option<string>, dept: Option<string>): string
  {
    Join(Separator, Present(role) + Present(user) + Present(sub) + Present(dept))
  }

  /** The text of a flag as Python prints a `bool`. */
  function BoolText(b: bool): string
  {
    if b then "True" else "False"
  }

  /** The `str()` of the row a key addresses: its name (a user's username). */
  function NameAt(s: Store, k: Key): string
    requires WellFormed(s) && k in s
    requires k.table in {Departments, SubDepartments, Roles, Users}
  {
    match s[k]
    case DepartmentRow(d) => d.name
    case SubDepartmentRow(sd) => sd.name
    case RoleRow(r) => r.name
    case UserRow(u) => u.username
  }

  function NameOf(s: Store, table: Table, id: Option<Id>): Option<string>
    requires WellFormed(s) && table in {Departments, SubDepartments, Roles, Users}
    requires id.Some? ==> Key(table, id.value) in s
  {
    if id.Some? then Some(NameAt(s, Key(table, id.value))) else None
  }

  /** The grant's dashboard name and action name, as `__str__` opens with
      them: "<dashboard> - <action>". */
  function Heading(s: Store, k: Key): string
    requires Valid(s) && k in s && s[k].PermissionRow?
  {
    var p := s[k].permission;
    assert Parents(s[k]) <= s.Keys;
    var t := s[Key(PermissionTemplates, p.template)].template;
    assert Parents(TemplateRow(t)) <= s.Keys;
    s[Key(Dashboards, t.dashboard)].dashboard.name + " - " + t.actionName
  }

  /** The level info of the grant stored at `k`: the names its role, user,
      sub-department and department references address, in that order. */
  function LevelOf(s: Store, k: Key): string
    requires Valid(s) && k in s && s[k].PermissionRow?
  {
    var p := s[k].permission;
    assert Parents(s[k]) <= s.Keys;
    LevelInfo(
      NameOf(s, Roles, p.role),
      NameOf(s, Users, p.user),
      NameOf(s, SubDepartments, p.subDepartment),
      Some(NameAt(s, Key(Departments, p.department))))
  }

  /** The level info of a stored grant, tier by tier, for non-empty names:
      the department alone; the sub-department and department; the role and
      department; the role, sub-department and department; the role, user,
      sub-department and department. (The references resolve in any consistent store; the
      membership requirements only spell that out.) */
  lemma LevelOfByTier(s: Store, k: Key)
    requires Valid(s) && k in s && s[k].PermissionRow?
    requires var p := s[k].permission;
             && (p.role.Some? ==> Key(Roles, p.role.value) in s)
             && (p.user.Some? ==> Key(Users, p.user.value) in s)
             && (p.subDepartment.Some? ==> Key(SubDepartments, p.subDepartment.value) in s)
             && Key(Departments, p.department) in s
    ensures var p := s[k].permission;
            var dept := NameAt(s, Key(Departments, p.department));
            p.subDepartment.None? && p.role.None? && p.user.None? && dept != "" ==>
              LevelOf(s, k) == dept
    ensures var p := s[k].permission;
            p.subDepartment.Some? && p.role.None? && p.user.None? ==>
              var sub := NameAt(s, Key(SubDepartments, p.subDepartment.value));
              var dept := NameAt(s, Key(Departments, p.department));
              sub != "" && dept != "" ==>
                LevelOf(s, k) == sub + Separator + dept
    ensures var p := s[k].permission;
            p.subDepartment.None? && p.role.Some? && p.user.None? ==>
              var role := NameAt(s, Key(Roles, p.role.value));
              var dept := NameAt(s, Key(Departments, p.department));
              role != "" && dept != "" ==>
                LevelOf(s, k) == role + Separator + dept
    ensures var p := s[k].permission;
            p.subDepartment.Some? && p.role.Some? && p.user.None? ==>
              var role := NameAt(s, Key(Roles, p.role.value));
              var sub := NameAt(s, Key(SubDepartments, p.subDepartment.value));
              var dept := NameAt(s, Key(Departments, p.department));
              role != "" && sub != "" && dept != "" ==>
                LevelOf(s, k) == role + Separator + sub + Separator + dept
    ensures var p := s[k].permission;
            p.subDepartment.Some? && p.role.Some? && p.user.Some? ==>
              var role := NameAt(s, Key(Roles, p.role.value));
              var user := NameAt(s, Key(Users, p.user.value));
              var sub := NameAt(s, Key(SubDepartments, p.subDepartment.value));
              var dept := NameAt(s, Key(Departments, p.department));
              role != "" && user != "" && sub != "" && dept != "" ==>
                LevelOf(s, k) == role + Separator + user + Separator + sub + Separator + dept
  {
    var p := s[k].permission;
    var dept := NameAt(s, Key(Departments, p.department));
    var role := if p.role.Some? then NameAt(s, Key(Roles, p.role.value)) else "r";
    var user := if p.user.Some? then NameAt(s, Key(Users, p.user.value)) else "u";
    var sub := if p.subDepartment.Some? then NameAt(s, Key(SubDepartments, p.subDepartment.value)) else "s";
    if role != "" && user != "" && sub != "" && dept != "" {
      LevelInfoOrder(role, user, sub, dept);
    }
  }

  /** The closing text after the level info. */
  function Tail(allowed: bool): string
  {
    " (Allowed: " + BoolText(allowed) + ")"
  }

  /** The text `__str__` builds from a heading, the level info and the
      flag. */
  function Render(heading: string, level: string, allowed: bool): (r: string)
    ensures |r| == |heading| + |ArrowGap()| + |level| + |Tail(allowed)|
    ensures |r| >= |heading| && r[..|heading|] == heading
    ensures |r| >= |heading| + |ArrowGap()| && r[|heading|..|heading| + |ArrowGap()|] == ArrowGap()
    ensures |r| >= |level| + |Tail(allowed)|
            && r[|r| - |Tail(allowed)| - |level|..|r| - |Tail(allowed)|] == level
            && r[|r| - |Tail(allowed)|..] == Tail(allowed)
    ensures |r| >= 15 && (allowed <==> r[|r| - 15..] == "(Allowed: True)")
  {
    var r := heading + ArrowGap() + level + Tail(allowed);
    PrefixKept(heading, ArrowGap(), level, Tail(allowed));
    SecondKept(heading, ArrowGap(), level, Tail(allowed));
    SliceParts(heading + ArrowGap(), level, Tail(allowed));
    TailTells(allowed);
    SuffixOfConcat(heading + ArrowGap() + level, Tail(allowed), 15);
    r
  }

  /** The text between the action name and the level info. */
  function ArrowGap(): string
  {
    " " + Arrow + " "
  }

  lemma PrefixKept(a: string, b: string, c: string, d: string)
    ensures (a + b + c + d)[..|a|] == a
  {
  }

  lemma SecondKept(a: string, b: string, c: string, d: string)
    ensures (a + b + c + d)[|a|..|a| + |b|] == b
  {
    assert (a + b + c + d) == (a + b) + (c + d);
  }

  /** The last 15 characters of the closing text tell the flag. */
  lemma TailTells(allowed: bool)
    ensures |Tail(allowed)| >= 15
    ensures allowed <==> Tail(allowed)[|Tail(allowed)| - 15..] == "(Allowed: True)"
  {
    AllowedSuffix(" ", allowed);
    assert Tail(allowed) == " " + ("(Allowed: " + BoolText(allowed) + ")");
  }

  /** `str(permission)` for the grant stored at `k`. */
  function PermissionStr(s: Store, k: Key): (r: string)
    requires Valid(s) && k in s && s[k].PermissionRow?
    // it opens with the dashboard and action names, then the arrow
    ensures |r| == |Heading(s, k)| + |ArrowGap()| + |LevelOf(s, k)| + |Tail(s[k].permission.allowed)|
    ensures |r| >= |Heading(s, k)| && r[..|Heading(s, k)|] == Heading(s, k)
    ensures |r| >= |Heading(s, k)| + |ArrowGap()|
            && r[|Heading(s, k)|..|Heading(s, k)| + |ArrowGap()|] == ArrowGap()
    // the level info sits right before the closing text
    ensures var n := |Tail(s[k].permission.allowed)|;
            && |r| >= |LevelOf(s, k)| + n
            && r[|r| - n - |LevelOf(s, k)|..|r| - n] == LevelOf(s, k)
            && r[|r| - n..] == Tail(s[k].permission.allowed)
    // and the closing "(Allowed: ...)" tells the flag
    ensures |r| >= 15 && (s[k].permission.allowed <==> r[|r| - 15..] == "(Allowed: True)")
  {
    Render(Heading(s, k), LevelOf(s, k), s[k].permission.allowed)
  }

  /** The three pieces of a concatenation can be sliced back out. */
  lemma SliceParts(a: string, b: string, c: string)
    ensures var r := a + b + c;
            && r[..|a|] == a
            && r[|a|..|a| + |b|] == b
            && r[|r| - |c|..] == c
  {
  }

  /** The closing "(Allowed: ...)" tells the flag. */
  lemma AllowedSuffix(head: string, allowed: bool)
    ensures var r := head + "(Allowed: " + BoolText(allowed) + ")";
            && |r| >= 15
            && (allowed <==> r[|r| - 15..] == "(Allowed: True)")
  {
    var tail := "(Allowed: " + BoolText(allowed) + ")";
    SuffixOfConcat(head, tail, 15);
    if allowed {
      assert tail == "(Allowed: True)";
    } else {
      var t := "(Allowed: " + BoolText(false) + ")";
      assert t[1] == 'A';
      assert t[1..][0] == t[1];
      assert |t| == 16;
      assert tail[|tail| - 15..] == t[1..];
      assert "(Allowed: True)"[0] == '(';
    }
  }

  lemma SuffixOfConcat(head: string, tail: string, n: nat)
    requires n <= |tail|
    ensures (head + tail)[|head + tail| - n..] == tail[|tail| - n..]
  {
  }

  lemma JoinCons(sep: string, x: string, rest: seq<string>)
    requires |rest| >= 1
    ensures Join(sep, [x] + rest) == x + sep + Join(sep, rest)
  {
    assert ([x] + rest)[1..] == rest;
  }

  /** The level info by tier, for non-empty names: the role comes first and
      the user second even though the user is the more specific reference,
      and the parts are joined with " + ". */
  lemma LevelInfoOrder(role: string, user: string, sub: string, dept: string)
    requires role != "" && user != "" && sub != "" && dept != ""
    ensures LevelInfo(None, None, None, Some(dept)) == dept
    ensures LevelInfo(None, None, Some(sub), Some(dept)) == sub + Separator + dept
    ensures LevelInfo(Some(role), None, Some(sub), Some(dept)) == role + Separator + sub + Separator + dept
    ensures LevelInfo(Some(role), None, None, Some(dept)) == role + Separator + dept
    ensures LevelInfo(Some(role), Some(user), Some(sub), Some(dept))
            == role + Separator + user + Separator + sub + Separator + dept
  {
    var j1 := Join(Separator, [dept]);
    JoinCons(Separator, sub, [dept]);
    assert [sub] + [dept] == [sub, dept];
    var j2 := Join(Separator, [sub, dept]);
    assert j2 == sub + Separator + dept;
    JoinCons(Separator, role, [dept]);
    assert [role] + [dept] == [role, dept];
    assert Present(Some(role)) + Present(None) + Present(None) + Present(Some(dept)) == [role, dept];
    JoinCons(Separator, role, [sub, dept]);
    assert [role] + [sub, dept] == [role, sub, dept];
    JoinCons(Separator, user, [sub, dept]);
    assert [user] + [sub, dept] == [user, sub, dept];
    JoinCons(Separator, role, [user, sub, dept]);
    assert [role] + [user, sub, dept] == [role, user, sub, dept];
    assert Present(None) + Present(None) + Present(None) + Present(Some(dept)) == [dept];
    assert Present(None) + Present(None) + Present(Some(sub)) + Present(Some(dept)) == [sub, dept];
    assert Present(Some(role)) + Present(None) + Present(Some(sub)) + Present(Some(dept)) == [role, sub, dept];
    assert Present(Some(role)) + Present(Some(user)) + Present(Some(sub)) + Present(Some(dept)) == [role, user, sub, dept];
  }

  /** In every slot, a reference whose name is the empty string is dropped
      exactly like a missing one. */
  lemma EmptyNameDropped(role: Option<string>, user: Option<string>, sub: Option<string>, dept: Option<string>)
    ensures LevelInfo(Some(""), user, sub, dept) == LevelInfo(None, user, sub, dept)
    ensures LevelInfo(role, Some(""), sub, dept) == LevelInfo(role, None, sub, dept)
    ensures LevelInfo(role, user, Some(""), dept) == LevelInfo(role, user, None, dept)
    ensures LevelInfo(role, user, sub, Some("")) == LevelInfo(role, user, sub, None)
  {
  }

  /** The length of a join is the parts' total length plus one separator
      between each pair of neighbours. */
  lemma {:induction false} JoinKeepsParts(sep: string, parts: seq<string>)
    ensures |Join(sep, parts)| == (if |parts| == 0 then 0 else |sep| * (|parts| - 1)) + SumLengths(parts)
  {
    if |parts| >= 2 {
      JoinKeepsParts(sep, parts[1..]);
    }
  }

  function SumLengths(parts: seq<string>): nat
  {
    if parts == [] then 0 else |parts[0]| + SumLengths(parts[1..])
  }
}
