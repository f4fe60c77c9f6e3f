/** The tables of permissions seen without ids: which permissions an account has, the name of the
    parent of each, and the links. Every action on the tables is accepted exactly when it is in this
    view, and has exactly the effect it has there; and after every run the view is what the accepted
    actions asked for last. */
module PermissionEffects {
  import opened Options
  import opened Permissions

  /** The parent of `owner` is the empty name. */
  datatype View = View(parents: map<Level, Name>, links: map<Scope, Name>, accounts: set<Name>)

  ghost function ViewOf(s: State): View {
    View(map l | l in s.byName :: ParentName(s, s.byName[l]), s.links, s.accounts)
  }

  ghost function ParentName(s: State, id: nat): Name {
    if id in s.permissions && s.permissions[id].parent in s.permissions then s.permissions[s.permissions[id].parent].name else EMPTY
  }

  // ----- the actions in the view -----

  ghost predicate MayCreate(v: View, account: Name, name: Name, parent: Name) {
    && account in v.accounts && name != EMPTY && !Reserved(name) && name != parent
    && (if name == OWNER then parent == EMPTY else parent != EMPTY && Level(account, parent) in v.parents)
    && (name == ACTIVE ==> parent == OWNER)
    && (Level(account, name) in v.parents ==> v.parents[Level(account, name)] == parent)
  }

  ghost predicate MayDelete(v: View, account: Name, name: Name) {
    && name != OWNER && name != ACTIVE && Level(account, name) in v.parents
    && (forall l :: l in v.parents && l.actor == account ==> v.parents[l] != name)
    && (forall k :: k in v.links && k.account == account ==> v.links[k] != name)
  }

  ghost predicate MayLink(v: View, k: Scope, required: Name) {
    && required != EMPTY && k.account in v.accounts && k.code in v.accounts
    && (required == ANY || exists l :: l in v.parents && l.permission == required)
    && (k in v.links ==> v.links[k] != required)
  }

  ghost predicate May(v: View, a: Action) {
    match a
    case NewAccountAction(account) => account != EMPTY && account !in v.accounts
    case UpdateAuthAction(account, name, parent) => MayCreate(v, account, name, parent)
    case DeleteAuthAction(account, name) => MayDelete(v, account, name)
    case LinkAuthAction(scope, required) => MayLink(v, scope, required)
    case UnlinkAuthAction(scope) => scope in v.links
  }

  ghost function After(v: View, a: Action): View {
    match a
    case NewAccountAction(account) =>
      v.(parents := v.parents[Level(account, OWNER) := EMPTY][Level(account, ACTIVE) := OWNER], accounts := v.accounts + {account})
    case UpdateAuthAction(account, name, parent) => v.(parents := v.parents[Level(account, name) := parent])
    case DeleteAuthAction(account, name) => v.(parents := v.parents - {Level(account, name)})
    case LinkAuthAction(scope, required) => v.(links := v.links[scope := required])
    case UnlinkAuthAction(scope) => v.(links := v.links - {scope})
  }

  // ----- facts about the tables -----

  /** The row behind a name. */
  lemma RowOf(s: State, l: Level)
    requires Inv(s) && l in s.byName
    ensures var id := s.byName[l];
            && id in s.permissions && s.permissions[id].owner == l.actor && s.permissions[id].name == l.permission && 0 < id < s.next
            && (l.permission == OWNER <==> s.permissions[id].parent == 0) && l.permission != EMPTY
            && (l.permission != OWNER ==>
                  && s.permissions[id].parent in s.permissions && s.permissions[s.permissions[id].parent].owner == l.actor
                  && ParentName(s, id) != EMPTY)
            && (l.permission == OWNER ==> ParentName(s, id) == EMPTY)
  {
    EntryIsKnown(s, l);
    var id := s.byName[l];
    if s.permissions[id].parent != 0 {
      assert PermissionOk(s, s.permissions[id].parent);
    } else {
      NextIsNew(s);
    }
  }

  /** A row is the one its name leads to. */
  lemma NameOf(s: State, id: nat)
    requires Inv(s) && id in s.permissions
    ensures var p := s.permissions[id]; Level(p.owner, p.name) in s.byName && s.byName[Level(p.owner, p.name)] == id
  {
    assert PermissionOk(s, id);
  }

  /** Parents are told by their names. */
  lemma ParentByName(s: State, account: Name, name: Name, parent: Name)
    requires Inv(s) && Level(account, name) in s.byName && name != OWNER && Level(account, parent) in s.byName
    ensures s.permissions[s.byName[Level(account, name)]].parent == s.byName[Level(account, parent)] <==>
              ParentName(s, s.byName[Level(account, name)]) == parent
  {
    hide Inv;
    RowOf(s, Level(account, name));
    RowOf(s, Level(account, parent));
    NameOf(s, s.permissions[s.byName[Level(account, name)]].parent);
  }

  lemma ChildrenByName(s: State, account: Name, name: Name)
    requires Inv(s) && Level(account, name) in s.byName
    ensures HasChildren(s, s.byName[Level(account, name)]) <==>
              exists l :: l in ViewOf(s).parents && l.actor == account && ViewOf(s).parents[l] == name
  {
    hide Inv, ParentName;
    var id := s.byName[Level(account, name)];
    RowOf(s, Level(account, name));
    if HasChildren(s, id) {
      var c :| c in s.permissions && s.permissions[c].parent == id;
      ChildHasName(s, c, id);
    }
    if l :| l in ViewOf(s).parents && l.actor == account && ViewOf(s).parents[l] == name {
      ParentHasChild(s, l, Level(account, name));
    }
  }

  lemma ChildHasName(s: State, c: nat, id: nat)
    requires Inv(s) && c in s.permissions && s.permissions[c].parent == id && id in s.permissions
    ensures var l := Level(s.permissions[c].owner, s.permissions[c].name);
            l in s.byName && l.actor == s.permissions[id].owner && ParentName(s, s.byName[l]) == s.permissions[id].name
  {
    NameOf(s, c);
    NextIsNew(s);
    assert PermissionOk(s, c);
  }

  lemma ParentHasChild(s: State, l: Level, p: Level)
    requires Inv(s) && l in s.byName && p in s.byName && l.actor == p.actor && ParentName(s, s.byName[l]) == p.permission
    ensures s.permissions[s.byName[l]].parent == s.byName[p] && s.byName[l] in s.permissions && HasChildren(s, s.byName[p])
  {
    hide Inv;
    RowOf(s, l);
    RowOf(s, p);
    NameOf(s, s.permissions[s.byName[l]].parent);
  }

  lemma ExistsByName(s: State, name: Name)
    requires Inv(s)
    ensures Exists(s, name) <==> exists l :: l in ViewOf(s).parents && l.permission == name
  {
    hide Inv;
    if Exists(s, name) {
      var id :| id in s.permissions && s.permissions[id].name == name;
      NameOf(s, id);
      assert Level(s.permissions[id].owner, name) in ViewOf(s).parents;
    }
    if l :| l in ViewOf(s).parents && l.permission == name {
      RowOf(s, l);
    }
  }

  // ----- creating a row -----

  /** A new row changes no other parent. */
  lemma CreateInView(s: State, account: Name, name: Name, parent: nat)
    requires Tree(s) && Level(account, name) !in s.byName && (parent == 0 || parent in s.permissions)
    ensures ViewOf(Create(s, account, name, parent)).parents ==
              ViewOf(s).parents[Level(account, name) := if parent == 0 then EMPTY else s.permissions[parent].name]
  {
    hide Tree, ParentName;
    var s' := Create(s, account, name, parent);
    forall l | l in s.byName ensures ParentName(s', s.byName[l]) == ParentName(s, s.byName[l]) {
      OldParentStays(s, account, name, parent, l);
    }
    NewParentName(s, account, name, parent);
  }

  lemma OldParentStays(s: State, account: Name, name: Name, parent: nat, l: Level)
    requires Tree(s) && l in s.byName
    ensures ParentName(Create(s, account, name, parent), s.byName[l]) == ParentName(s, s.byName[l])
  {
    hide Tree;
    NextIsNew(s);
    EntryIsKnown(s, l);
  }

  lemma NewParentName(s: State, account: Name, name: Name, parent: nat)
    requires Tree(s) && (parent == 0 || parent in s.permissions)
    ensures ParentName(Create(s, account, name, parent), s.next) == if parent == 0 then EMPTY else s.permissions[parent].name
  {
    hide Tree;
    NextIsNew(s);
    NextIsPositive(s);
  }

  lemma NextIsPositive(s: State)
    requires Tree(s)
    ensures s.next > 0
  {
  }

  lemma NewAccountInView(s: State, account: Name)
    requires Inv(s)
    ensures NewAccount(s, account).Some? <==> May(ViewOf(s), NewAccountAction(account))
    ensures NewAccount(s, account).Some? ==> ViewOf(NewAccount(s, account).value) == After(ViewOf(s), NewAccountAction(account))
  {
    hide Tree, ParentName;
    if NewAccount(s, account).Some? {
      var s0 := s.(accounts := s.accounts + {account});
      MoreAccounts(s, account);
      NotYetNamed(s, account, OWNER);
      NotYetNamed(s, account, ACTIVE);
      SameParents(s, s0);
      CreateInView(s0, account, OWNER, 0);
      CreateKeeps(s0, account, OWNER, 0);
      var s1 := Create(s0, account, OWNER, 0);
      NextIsNew(s0);
      CreateInView(s1, account, ACTIVE, s.next);
    }
  }

  lemma SameParents(s: State, s': State)
    requires s'.byName == s.byName && s'.permissions == s.permissions
    ensures ViewOf(s').parents == ViewOf(s).parents
  {
  }

  lemma UpdateInView(s: State, account: Name, name: Name, parent: Name)
    requires Inv(s)
    ensures UpdateAuth(s, account, name, parent).Some? <==> May(ViewOf(s), UpdateAuthAction(account, name, parent))
    ensures UpdateAuth(s, account, name, parent).Some? ==>
              ViewOf(UpdateAuth(s, account, name, parent).value) == After(ViewOf(s), UpdateAuthAction(account, name, parent))
  {
    hide Inv, Reserved, ParentName;
    NoEmptyNames(s, account);
    if Level(account, parent) in s.byName {
      RowOf(s, Level(account, parent));
    }
    if Level(account, name) in s.byName {
      RowOf(s, Level(account, name));
      if name != OWNER && Level(account, parent) in s.byName {
        ParentByName(s, account, name, parent);
      }
    } else if UpdateIsFormed(s, account, name, parent) {
      InvIsTree(s);
      CreateInView(s, account, name, if name == OWNER then 0 else s.byName[Level(account, parent)]);
    }
  }

  lemma InvIsTree(s: State)
    requires Inv(s)
    ensures Tree(s)
  {
  }

  lemma NoEmptyNames(s: State, account: Name)
    requires Inv(s)
    ensures Level(account, EMPTY) !in s.byName
  {
    hide Inv;
    if Level(account, EMPTY) in s.byName {
      RowOf(s, Level(account, EMPTY));
    }
  }

  lemma DeleteInView(s: State, account: Name, name: Name)
    requires Inv(s)
    ensures DeleteAuth(s, account, name).Some? <==> May(ViewOf(s), DeleteAuthAction(account, name))
    ensures DeleteAuth(s, account, name).Some? ==>
              ViewOf(DeleteAuth(s, account, name).value) == After(ViewOf(s), DeleteAuthAction(account, name))
  {
    hide Inv, ParentName, HasChildren;
    if Level(account, name) in s.byName {
      ChildrenByName(s, account, name);
    }
    if DeleteAuth(s, account, name).Some? {
      DeletedParents(s, account, name);
    }
  }

  lemma DeletedParents(s: State, account: Name, name: Name)
    requires Inv(s) && DeleteAuth(s, account, name).Some?
    ensures ViewOf(DeleteAuth(s, account, name).value).parents == ViewOf(s).parents - {Level(account, name)}
  {
    hide Inv;
    var s' := DeleteAuth(s, account, name).value;
    var id := s.byName[Level(account, name)];
    forall l | l in s'.byName ensures ParentName(s', s'.byName[l]) == ParentName(s, s.byName[l]) {
      RowOf(s, l);
      RowOf(s, Level(account, name));
      assert s.byName[l] != id;
      assert s.permissions[s.byName[l]].parent != id;
    }
  }

  lemma LinkInView(s: State, k: Scope, required: Name)
    requires Inv(s)
    ensures LinkAuth(s, k, required).Some? <==> May(ViewOf(s), LinkAuthAction(k, required))
    ensures LinkAuth(s, k, required).Some? ==> ViewOf(LinkAuth(s, k, required).value) == After(ViewOf(s), LinkAuthAction(k, required))
  {
    hide Inv, ParentName, Exists;
    ExistsByName(s, required);
    SameParents(s, s.(links := s.links[k := required]));
  }

  /** Every action is accepted exactly when it is in the view, with the effect it has there. */
  lemma StepInView(s: State, a: Action)
    requires Inv(s)
    ensures Step(s, a).Some? <==> May(ViewOf(s), a)
    ensures Step(s, a).Some? ==> ViewOf(Step(s, a).value) == After(ViewOf(s), a)
  {
    hide Inv, ParentName, NewAccount, UpdateAuth, DeleteAuth, LinkAuth;
    match a
    case NewAccountAction(account) => NewAccountInView(s, account);
    case UpdateAuthAction(account, name, parent) => UpdateInView(s, account, name, parent);
    case DeleteAuthAction(account, name) => DeleteInView(s, account, name);
    case LinkAuthAction(scope, required) => LinkInView(s, scope, required);
    case UnlinkAuthAction(scope) => SameParents(s, s.(links := s.links - {scope}));
  }

  // ----- runs -----

  /** The parent the last action that concerns a permission asked for; none if it deleted it. */
  ghost function Asked(actions: seq<Action>, l: Level): Option<Name> {
    if actions == [] then None
    else
      var rest := Asked(actions[..|actions| - 1], l);
      match actions[|actions| - 1]
      case NewAccountAction(account) =>
        if l == Level(account, OWNER) then Some(EMPTY) else if l == Level(account, ACTIVE) then Some(OWNER) else rest
      case UpdateAuthAction(account, name, parent) => if l == Level(account, name) then Some(parent) else rest
      case DeleteAuthAction(account, name) => if l == Level(account, name) then None else rest
      case LinkAuthAction(_, _) => rest
      case UnlinkAuthAction(_) => rest
  }

  /** The permission the last action that concerns a link asked for. */
  ghost function AskedLink(actions: seq<Action>, k: Scope): Option<Name> {
    if actions == [] then None
    else
      var rest := AskedLink(actions[..|actions| - 1], k);
      match actions[|actions| - 1]
      case LinkAuthAction(scope, required) => if scope == k then Some(required) else rest
      case UnlinkAuthAction(scope) => if scope == k then None else rest
      case _ => rest
  }

  ghost predicate IsAsked(v: View, actions: seq<Action>, l: Level) {
    (l in v.parents <==> Asked(actions, l).Some?) && (l in v.parents ==> v.parents[l] == Asked(actions, l).value)
  }

  ghost predicate IsAskedLink(v: View, actions: seq<Action>, k: Scope) {
    (k in v.links <==> AskedLink(actions, k).Some?) && (k in v.links ==> v.links[k] == AskedLink(actions, k).value)
  }

  /** After every accepted run an account has exactly the permissions the run created and did not
      delete, each below the parent that was asked for, and the links that were asked for last. */
  lemma {:induction false} RunIsAsked(actions: seq<Action>, l: Level, k: Scope)
    requires Run(actions).Some?
    ensures IsAsked(ViewOf(Run(actions).value), actions, l) && IsAskedLink(ViewOf(Run(actions).value), actions, k)
  {
    hide Step, Inv, May, ViewOf, IsAsked, IsAskedLink, After;
    if actions == [] {
      NothingAsked(l, k);
    } else {
      var n := |actions| - 1;
      RunIsAsked(actions[..n], l, k);
      RunKeeps(actions[..n], n);
      StepInView(Run(actions[..n]).value, actions[n]);
      AskedOnce(ViewOf(Run(actions[..n]).value), actions, l);
      AskedLinkOnce(ViewOf(Run(actions[..n]).value), actions, k);
    }
  }

  lemma NothingAsked(l: Level, k: Scope)
    ensures IsAsked(ViewOf(Initial()), [], l) && IsAskedLink(ViewOf(Initial()), [], k)
  {
  }

  lemma AskedOnce(v: View, actions: seq<Action>, l: Level)
    requires actions != [] && IsAsked(v, actions[..|actions| - 1], l)
    ensures IsAsked(After(v, actions[|actions| - 1]), actions, l)
  {
  }

  lemma AskedLinkOnce(v: View, actions: seq<Action>, k: Scope)
    requires actions != [] && IsAskedLink(v, actions[..|actions| - 1], k)
    ensures IsAskedLink(After(v, actions[|actions| - 1]), actions, k)
  {
  }

  // ----- who is above whom -----

  /** The new permission is directly below the parent that was asked for: above it are itself and what
      was above that parent. */
  lemma NewIsBelow(s: State, account: Name, name: Name, parent: Name, a: nat)
    requires Inv(s) && UpdateAuth(s, account, name, parent).Some? && Level(account, name) !in s.byName && name != OWNER
    ensures var s' := UpdateAuth(s, account, name, parent).value;
            var id := s'.byName[Level(account, name)];
            Level(account, parent) in s.byName && (IsAbove(s', a, id) <==> a == id || IsAbove(s, a, s.byName[Level(account, parent)]))
  {
    hide Inv, IsAbove, Reserved;
    InvIsTree(s);
    var s' := UpdateAuth(s, account, name, parent).value;
    var p := s.byName[Level(account, parent)];
    RowOf(s, Level(account, parent));
    NextIsNew(s);
    AboveStays(s, s', a, p);
    AboveStep(s', a, s.next);
  }

  lemma AboveStep(s: State, a: nat, d: nat)
    ensures IsAbove(s, a, d) <==> a == d || (0 < ParentOf(s, d) < d && IsAbove(s, a, ParentOf(s, d)))
  {
  }

  /** What is above the permissions that were there stays. */
  lemma {:induction false} AboveStays(s: State, s': State, a: nat, d: nat)
    requires Tree(s) && d in s.permissions && forall id :: id in s.permissions ==> id in s'.permissions && s'.permissions[id] == s.permissions[id]
    ensures IsAbove(s', a, d) <==> IsAbove(s, a, d)
    decreases d
  {
    hide Tree;
    var p := ParentOf(s, d);
    if 0 < p < d {
      ParentIsKnown(s, d);
      AboveStays(s, s', a, p);
    }
  }

  lemma ParentIsKnown(s: State, d: nat)
    requires Tree(s) && d in s.permissions && ParentOf(s, d) > 0
    ensures ParentOf(s, d) in s.permissions
  {
    assert PermissionOk(s, d);
  }
}
