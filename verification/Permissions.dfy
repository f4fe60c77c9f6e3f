/** The permissions of accounts: a tree of named permissions for every account, with `owner` at
    its root, and links that ask for a permission before an action may be used. A failed check
    undoes the action and is modelled by the result `None`. The contents of authorities and the
    declared authorizations of the actions are not part of the tables modelled here. */
module Permissions {
  import opened Options

  type Name = nat

  const EMPTY: Name := 0
  const OWNER: Name := 12044502819693133824
  const ACTIVE: Name := 3617214756542218240
  const ANY: Name := 6138663581382606848

  datatype Level = Level(actor: Name, permission: Name)

  /** The parent is an id; 0 means none. */
  datatype Permission = Permission(parent: nat, owner: Name, name: Name)

  datatype Scope = Scope(account: Name, code: Name, action: Name)

  /** The permissions by id and, a second index of the same table, by account and name. Ids are
      handed out in ascending order and not used again. */
  datatype State = State(
    permissions: map<nat, Permission>,
    byName: map<Level, nat>,
    next: nat,
    links: map<Scope, Name>,
    accounts: set<Name>)

  /** The tables before the first account: id 0 is taken. */
  function Initial(): State {
    State(map[], map[], 1, map[], {})
  }

  /** Names whose text begins with "eosio.". */
  predicate Reserved(n: Name) {
    n / 0x4_0000_0000 == 357317248 && n % 0x4_0000_0000 != 0
  }

  // ----- the actions -----

  function Create(s: State, account: Name, name: Name, parent: nat): State {
    s.(permissions := s.permissions[s.next := Permission(parent, account, name)],
       byName := s.byName[Level(account, name) := s.next], next := s.next + 1)
  }

  /** `newaccount`: the two permissions every account has. */
  function NewAccount(s: State, account: Name): Option<State> {
    if account == EMPTY || account in s.accounts then None
    else
      var s1 := Create(s.(accounts := s.accounts + {account}), account, OWNER, 0);
      Some(Create(s1, account, ACTIVE, s.next))
  }

  predicate UpdateIsFormed(s: State, account: Name, name: Name, parent: Name) {
    && name != EMPTY && !Reserved(name) && name != parent && account in s.accounts
    && (name == ACTIVE ==> parent == OWNER)
    && (name == OWNER <==> parent == EMPTY)
    && (name != OWNER ==> Level(account, parent) in s.byName)
  }

  /** `updateauth`: creates a permission, or changes the authority of one that exists. */
  function UpdateAuth(s: State, account: Name, name: Name, parent: Name): Option<State> {
    if !UpdateIsFormed(s, account, name, parent) then None
    else
      var id := if name == OWNER then 0 else s.byName[Level(account, parent)];
      if Level(account, name) !in s.byName then Some(Create(s, account, name, id))
      else
        var old_id := s.byName[Level(account, name)];
        if old_id !in s.permissions || s.permissions[old_id].parent != id then None else Some(s)
  }

  predicate HasChildren(s: State, id: nat) {
    exists c :: c in s.permissions && s.permissions[c].parent == id
  }

  predicate IsLinked(s: State, account: Name, name: Name) {
    exists k :: k in s.links && k.account == account && s.links[k] == name
  }

  /** `deleteauth`. */
  function DeleteAuth(s: State, account: Name, name: Name): Option<State> {
    if name == ACTIVE || name == OWNER || IsLinked(s, account, name) || Level(account, name) !in s.byName then None
    else
      var id := s.byName[Level(account, name)];
      if HasChildren(s, id) then None
      else Some(s.(permissions := s.permissions - {id}, byName := s.byName - {Level(account, name)}))
  }

  /** Some account has a permission of that name. */
  predicate Exists(s: State, name: Name) {
    exists id :: id in s.permissions && s.permissions[id].name == name
  }

  /** `linkauth`. */
  function LinkAuth(s: State, k: Scope, required: Name): Option<State> {
    if required == EMPTY || k.account !in s.accounts || k.code !in s.accounts then None
    else if required != ANY && !Exists(s, required) then None
    else if k in s.links && s.links[k] == required then None
    else Some(s.(links := s.links[k := required]))
  }

  /** `unlinkauth`. */
  function UnlinkAuth(s: State, k: Scope): Option<State> {
    if k !in s.links then None else Some(s.(links := s.links - {k}))
  }

  // ----- the tree -----

  ghost predicate PermissionOk(s: State, id: nat)
    requires id in s.permissions
  {
    var p := s.permissions[id];
    && 0 < id < s.next && p.owner in s.accounts && p.name != EMPTY
    && Level(p.owner, p.name) in s.byName && s.byName[Level(p.owner, p.name)] == id
    && (p.name == OWNER <==> p.parent == 0)
    && (p.name == ACTIVE ==> p.parent in s.permissions && s.permissions[p.parent].name == OWNER)
    && (p.parent != 0 ==> p.parent < id && p.parent in s.permissions && s.permissions[p.parent].owner == p.owner)
  }

  ghost predicate EntryOk(s: State, l: Level)
    requires l in s.byName
  {
    var id := s.byName[l];
    id in s.permissions && s.permissions[id].owner == l.actor && s.permissions[id].name == l.permission
  }

  ghost predicate Tree(s: State) {
    && s.next > 0
    && (forall id :: id in s.permissions ==> PermissionOk(s, id))
    && (forall l :: l in s.byName ==> EntryOk(s, l))
  }

  ghost predicate Rooted(s: State) {
    forall a :: a in s.accounts ==> a != EMPTY && Level(a, OWNER) in s.byName && Level(a, ACTIVE) in s.byName
  }

  /** In every reachable state: both indexes agree, parents are older than their children and
      belong to the same account, `owner` and nothing else is a root, and every account has its
      two permissions. */
  ghost predicate Inv(s: State) {
    Tree(s) && Rooted(s)
  }

  /** Ids keep their parent, owner and name, and are not used again. */
  ghost predicate KeepsParents(s: State, s': State) {
    && s.next <= s'.next
    && (forall id :: id in s'.permissions && id in s.permissions ==> s'.permissions[id] == s.permissions[id])
    && (forall id :: id in s'.permissions && id !in s.permissions ==> id >= s.next)
  }

  lemma NextIsNew(s: State)
    requires Tree(s)
    ensures s.next !in s.permissions && 0 !in s.permissions
    ensures forall l :: l in s.byName ==> s.byName[l] != s.next
  {
    forall id | id in s.permissions ensures 0 < id < s.next {
      assert PermissionOk(s, id);
    }
    forall l | l in s.byName ensures s.byName[l] in s.permissions {
      EntryIsKnown(s, l);
    }
  }

  lemma EntryIsKnown(s: State, l: Level)
    requires Tree(s) && l in s.byName
    ensures EntryOk(s, l) && PermissionOk(s, s.byName[l])
  {
    hide PermissionOk;
    assert EntryOk(s, l);
  }

  lemma OldStaysOk(s: State, account: Name, name: Name, parent: nat, id: nat)
    requires Tree(s) && id in s.permissions && Level(account, name) !in s.byName
    ensures PermissionOk(Create(s, account, name, parent), id)
  {
    assert PermissionOk(s, id);
    NextIsNew(s);
  }

  lemma CreateKeeps(s: State, account: Name, name: Name, parent: nat)
    requires Tree(s) && account in s.accounts && Level(account, name) !in s.byName && name != EMPTY
    requires name == OWNER <==> parent == 0
    requires name == ACTIVE ==> parent in s.permissions && s.permissions[parent].name == OWNER
    requires parent != 0 ==> parent in s.permissions && s.permissions[parent].owner == account
    ensures Tree(Create(s, account, name, parent)) && KeepsParents(s, Create(s, account, name, parent))
  {
    hide PermissionOk;
    var s' := Create(s, account, name, parent);
    NextIsNew(s);
    NewIsOk(s, account, name, parent);
    forall id | id in s'.permissions ensures PermissionOk(s', id) {
      if id != s.next {
        OldStaysOk(s, account, name, parent, id);
      }
    }
    forall l | l in s'.byName ensures EntryOk(s', l) {
      if l != Level(account, name) {
        EntryIsKnown(s, l);
      }
    }
  }

  lemma NewIsOk(s: State, account: Name, name: Name, parent: nat)
    requires Tree(s) && account in s.accounts && Level(account, name) !in s.byName && name != EMPTY
    requires name == OWNER <==> parent == 0
    requires name == ACTIVE ==> parent in s.permissions && s.permissions[parent].name == OWNER
    requires parent != 0 ==> parent in s.permissions && s.permissions[parent].owner == account
    ensures PermissionOk(Create(s, account, name, parent), s.next)
  {
    NextIsNew(s);
    if parent != 0 {
      assert PermissionOk(s, parent);
    }
  }

  lemma MoreAccounts(s: State, account: Name)
    requires Tree(s)
    ensures Tree(s.(accounts := s.accounts + {account}))
  {
    var s' := s.(accounts := s.accounts + {account});
    forall id | id in s'.permissions ensures PermissionOk(s', id) {
      assert PermissionOk(s, id);
    }
    forall l | l in s'.byName ensures EntryOk(s', l) {
      assert EntryOk(s, l);
    }
  }

  lemma NotYetNamed(s: State, account: Name, name: Name)
    requires Tree(s) && account !in s.accounts
    ensures Level(account, name) !in s.byName
  {
    if Level(account, name) in s.byName {
      EntryIsKnown(s, Level(account, name));
    }
  }

  lemma NewAccountKeeps(s: State, account: Name)
    requires Inv(s) && NewAccount(s, account).Some?
    ensures Inv(NewAccount(s, account).value) && KeepsParents(s, NewAccount(s, account).value)
  {
    hide Tree;
    var s0 := s.(accounts := s.accounts + {account});
    MoreAccounts(s, account);
    NotYetNamed(s, account, OWNER);
    NotYetNamed(s, account, ACTIVE);
    CreateKeeps(s0, account, OWNER, 0);
    var s1 := Create(s0, account, OWNER, 0);
    NextIsNew(s0);
    CreateKeeps(s1, account, ACTIVE, s.next);
  }

  lemma UpdateAuthKeeps(s: State, account: Name, name: Name, parent: Name)
    requires Inv(s) && UpdateAuth(s, account, name, parent).Some?
    ensures Inv(UpdateAuth(s, account, name, parent).value) && KeepsParents(s, UpdateAuth(s, account, name, parent).value)
  {
    hide Tree, PermissionOk, Reserved;
    if Level(account, name) !in s.byName {
      if name != OWNER {
        EntryIsKnown(s, Level(account, parent));
        IdIsPositive(s, s.byName[Level(account, parent)]);
      }
      CreateKeeps(s, account, name, if name == OWNER then 0 else s.byName[Level(account, parent)]);
    }
  }

  lemma IdIsPositive(s: State, id: nat)
    requires id in s.permissions && PermissionOk(s, id)
    ensures id > 0
  {
  }

  ghost function Without(s: State, l: Level, id: nat): State {
    s.(permissions := s.permissions - {id}, byName := s.byName - {l})
  }

  lemma RemainsOk(s: State, l: Level, id: nat, c: nat)
    requires c in s.permissions && PermissionOk(s, c) && c != id && s.permissions[c].parent != id
    requires Level(s.permissions[c].owner, s.permissions[c].name) != l
    ensures PermissionOk(Without(s, l, id), c)
  {
  }

  lemma DeleteAuthKeeps(s: State, account: Name, name: Name)
    requires Inv(s) && DeleteAuth(s, account, name).Some?
    ensures Inv(DeleteAuth(s, account, name).value) && KeepsParents(s, DeleteAuth(s, account, name).value)
  {
    hide PermissionOk, IsLinked;
    var l := Level(account, name);
    var id := s.byName[l];
    var s' := Without(s, l, id);
    EntryIsKnown(s, l);
    forall c | c in s'.permissions ensures PermissionOk(s', c) {
      IdOfName(s, c);
      RemainsOk(s, l, id, c);
    }
    forall k | k in s'.byName ensures EntryOk(s', k) {
      EntryIsKnown(s, k);
    }
  }

  lemma IdOfName(s: State, c: nat)
    requires Tree(s) && c in s.permissions
    ensures PermissionOk(s, c)
    ensures var l := Level(s.permissions[c].owner, s.permissions[c].name); l in s.byName && s.byName[l] == c
  {
    assert PermissionOk(s, c);
  }

  lemma LinksDoNotMatter(s: State, links: map<Scope, Name>)
    requires Inv(s)
    ensures Inv(s.(links := links)) && KeepsParents(s, s.(links := links))
  {
    var s' := s.(links := links);
    forall id | id in s'.permissions ensures PermissionOk(s', id) {
      assert PermissionOk(s, id);
    }
    forall l | l in s'.byName ensures EntryOk(s', l) {
      assert EntryOk(s, l);
    }
  }

  // ----- who may stand in for whom -----

  function ParentOf(s: State, id: nat): nat {
    if id in s.permissions then s.permissions[id].parent else 0
  }

  /** `a` is `d` or above it in the tree. */
  ghost predicate IsAbove(s: State, a: nat, d: nat) {
    a == d || (0 < ParentOf(s, d) < d && IsAbove(s, a, ParentOf(s, d)))
  }

  lemma ParentIsOlder(s: State, id: nat)
    requires Tree(s) && id in s.permissions
    ensures id > 0 && ParentOf(s, id) < id && (ParentOf(s, id) > 0 ==> ParentOf(s, id) in s.permissions)
    ensures ParentOf(s, id) > 0 ==> s.permissions[ParentOf(s, id)].owner == s.permissions[id].owner
  {
    assert PermissionOk(s, id);
  }

  /** Permissions above another belong to the same account. */
  lemma {:induction false} AboveIsOwn(s: State, a: nat, d: nat)
    requires Tree(s) && d in s.permissions && IsAbove(s, a, d)
    ensures a in s.permissions && s.permissions[a].owner == s.permissions[d].owner
    decreases d
  {
    hide Tree;
    if a != d {
      ParentIsOlder(s, d);
      AboveIsOwn(s, a, ParentOf(s, d));
    }
  }

  /** Every permission of an account is below its `owner`. */
  lemma {:induction false} OwnerIsAbove(s: State, d: nat)
    requires Inv(s) && d in s.permissions
    ensures Level(s.permissions[d].owner, OWNER) in s.byName && IsAbove(s, s.byName[Level(s.permissions[d].owner, OWNER)], d)
    decreases d
  {
    hide PermissionOk;
    OwnerOf(s, d);
    ParentIsOlder(s, d);
    if ParentOf(s, d) > 0 {
      OwnerIsAbove(s, ParentOf(s, d));
    }
  }

  lemma OwnerOf(s: State, d: nat)
    requires Inv(s) && d in s.permissions
    ensures Level(s.permissions[d].owner, OWNER) in s.byName
    ensures ParentOf(s, d) == 0 ==> s.byName[Level(s.permissions[d].owner, OWNER)] == d
  {
    assert PermissionOk(s, d);
  }

  /** `satisfies`: walks up from `other` and finds `id` exactly when it is above. */
  method Satisfies(s: State, id: nat, other: nat) returns (r: bool)
    requires Inv(s) && id in s.permissions && other in s.permissions
    ensures r <==> IsAbove(s, id, other)
  {
    hide PermissionOk, Tree, Rooted;
    ParentIsOlder(s, id);
    ParentIsOlder(s, other);
    if s.permissions[id].owner != s.permissions[other].owner {
      NotAbove(s, id, other);
      return false;
    }
    if id == other || id == s.permissions[other].parent {
      return true;
    }
    var parent := s.permissions[other].parent;
    if parent == 0 {
      return false;
    }
    while true
      invariant parent in s.permissions && parent > 0 && parent != id
      invariant IsAbove(s, id, other) <==> IsAbove(s, id, parent)
      decreases parent
    {
      ParentIsOlder(s, parent);
      var next := s.permissions[parent].parent;
      if id == next {
        return true;
      }
      if next == 0 {
        return false;
      }
      parent := next;
    }
  }

  lemma NotAbove(s: State, id: nat, other: nat)
    requires Tree(s) && id in s.permissions && other in s.permissions && s.permissions[id].owner != s.permissions[other].owner
    ensures !IsAbove(s, id, other)
  {
    if IsAbove(s, id, other) {
      AboveIsOwn(s, id, other);
    }
  }

  // ----- links -----

  /** Every link asks for a permission its account has, or for none at all. */
  ghost predicate LinksHaveTargets(s: State) {
    forall k :: k in s.links ==> HasTarget(s, k, s.links[k])
  }

  predicate HasTarget(s: State, k: Scope, required: Name) {
    required == ANY || Level(k.account, required) in s.byName
  }

  datatype Action =
    | NewAccountAction(account: Name)
    | UpdateAuthAction(account: Name, name: Name, parent: Name)
    | DeleteAuthAction(account: Name, name: Name)
    | LinkAuthAction(scope: Scope, required: Name)
    | UnlinkAuthAction(scope: Scope)

  function Step(s: State, a: Action): Option<State> {
    match a
    case NewAccountAction(account) => NewAccount(s, account)
    case UpdateAuthAction(account, name, parent) => UpdateAuth(s, account, name, parent)
    case DeleteAuthAction(account, name) => DeleteAuth(s, account, name)
    case LinkAuthAction(scope, required) => LinkAuth(s, scope, required)
    case UnlinkAuthAction(scope) => UnlinkAuth(s, scope)
  }

  /** Every action keeps the tree, and no permission changes its place in it. */
  lemma StepKeeps(s: State, a: Action)
    requires Inv(s) && Step(s, a).Some?
    ensures Inv(Step(s, a).value) && KeepsParents(s, Step(s, a).value)
  {
    hide Inv, KeepsParents, NewAccount, UpdateAuth, DeleteAuth;
    match a
    case NewAccountAction(account) => NewAccountKeeps(s, account);
    case UpdateAuthAction(account, name, parent) => UpdateAuthKeeps(s, account, name, parent);
    case DeleteAuthAction(account, name) => DeleteAuthKeeps(s, account, name);
    case LinkAuthAction(scope, required) => LinksDoNotMatter(s, Step(s, a).value.links);
    case UnlinkAuthAction(scope) => LinksDoNotMatter(s, Step(s, a).value.links);
  }

  /** Links lose no target, and a new link has one exactly when the account has the permission;
      `linkauth` itself only asks whether any account has one of that name. */
  lemma StepKeepsTargetsIff(s: State, a: Action)
    requires Inv(s) && LinksHaveTargets(s) && Step(s, a).Some?
    ensures LinksHaveTargets(Step(s, a).value) <==> a.LinkAuthAction? ==> HasTarget(s, a.scope, a.required)
  {
    hide Tree, Rooted, Reserved;
    var s' := Step(s, a).value;
    if a.LinkAuthAction? {
      assert s'.links[a.scope] == a.required;
    } else {
      forall k | k in s'.links ensures HasTarget(s', k, s'.links[k]) {
        assert HasTarget(s, k, s.links[k]);
      }
    }
  }

  // ----- whole runs -----

  ghost function Run(actions: seq<Action>): Option<State> {
    if actions == [] then Some(Initial())
    else
      var before := Run(actions[..|actions| - 1]);
      if before.None? then None else Step(before.value, actions[|actions| - 1])
  }

  lemma {:induction false} RunKeeps(actions: seq<Action>, k: nat)
    requires Run(actions).Some? && k <= |actions|
    ensures Inv(Run(actions).value)
    ensures Run(actions[..k]).Some? && KeepsParents(Run(actions[..k]).value, Run(actions).value)
  {
    hide Step, Inv, KeepsParents;
    if k == |actions| {
      assert actions[..k] == actions;
      SameParents(Run(actions).value);
    }
    if actions == [] {
      InitialInv();
    } else {
      var n := |actions| - 1;
      RunKeeps(actions[..n], if k <= n then k else n);
      StepKeeps(Run(actions[..n]).value, actions[n]);
      if k <= n {
        assert actions[..n][..k] == actions[..k];
        RunKeeps(actions[..k], k);
        assert actions[..k][..k] == actions[..k];
        ParentsStay(Run(actions[..k]).value, Run(actions[..n]).value, Run(actions).value);
      }
    }
  }

  lemma InitialInv()
    ensures Inv(Initial())
  {
  }

  lemma SameParents(s: State)
    ensures KeepsParents(s, s)
  {
  }

  lemma ParentsStay(s: State, s': State, s'': State)
    requires Inv(s) && KeepsParents(s, s') && KeepsParents(s', s'')
    ensures KeepsParents(s, s'')
  {
    forall id | id in s.permissions ensures id < s.next {
      assert PermissionOk(s, id);
    }
  }

  ghost predicate TargetsAt(actions: seq<Action>, k: nat)
    requires k <= |actions|
  {
    Run(actions[..k]).Some? && LinksHaveTargets(Run(actions[..k]).value)
  }

  /** If the action at `k` is a `linkauth`, it names a permission of its own account. */
  ghost predicate OwnAt(actions: seq<Action>, k: nat)
    requires k < |actions|
  {
    && Run(actions[..k]).Some?
    && (actions[k].LinkAuthAction? ==> HasTarget(Run(actions[..k]).value, actions[k].scope, actions[k].required))
  }

  /** Along a run all links have targets throughout exactly when every `linkauth` named a
      permission of its own account. */
  lemma {:induction false} RunHasTargetsIff(actions: seq<Action>)
    requires Run(actions).Some?
    ensures (forall k :: 0 <= k <= |actions| ==> TargetsAt(actions, k)) <==> (forall k :: 0 <= k < |actions| ==> OwnAt(actions, k))
  {
    hide Step, Inv, LinksHaveTargets, HasTarget;
    if actions == [] {
      NoLinks();
      assert actions[..0] == [];
    } else {
      var n := |actions| - 1;
      var before := actions[..n];
      RunHasTargetsIff(before);
      RunKeeps(before, n);
      forall k | 0 <= k <= n ensures TargetsAt(before, k) <==> TargetsAt(actions, k) {
        assert before[..k] == actions[..k];
      }
      forall k | 0 <= k < n ensures OwnAt(before, k) <==> OwnAt(actions, k) {
        assert before[..k] == actions[..k];
      }
      assert actions[..n + 1] == actions;
      if LinksHaveTargets(Run(before).value) {
        StepKeepsTargetsIff(Run(before).value, actions[n]);
      }
      assert before[..n] == before;
      assert TargetsAt(before, n) ==> (TargetsAt(actions, n + 1) <==> OwnAt(actions, n));
      assert (forall k :: 0 <= k <= n + 1 ==> TargetsAt(actions, k)) <==>
             ((forall k :: 0 <= k <= n ==> TargetsAt(before, k)) && TargetsAt(actions, n + 1));
      assert (forall k :: 0 <= k < n + 1 ==> OwnAt(actions, k)) <==>
             ((forall k :: 0 <= k < n ==> OwnAt(before, k)) && OwnAt(actions, n));
    }
  }

  lemma NoLinks()
    ensures LinksHaveTargets(Initial())
  {
  }

  /** A link may be accepted though its account lacks the permission: another account has one of
      that name. */
  lemma LinkDangles(s: State, k: Scope, required: Name, id: nat)
    requires Inv(s) && k.account in s.accounts && k.code in s.accounts && k !in s.links
    requires id in s.permissions && s.permissions[id].name == required && required != ANY
    requires Level(k.account, required) !in s.byName
    ensures LinkAuth(s, k, required).Some? && !LinksHaveTargets(LinkAuth(s, k, required).value)
  {
    assert PermissionOk(s, id);
    var s' := LinkAuth(s, k, required).value;
    assert s'.links[k] == required && !HasTarget(s', k, required);
  }

  /** Two accounts, of which the first has a permission 5; the second links an action to that name. */
  const DANGLING: seq<Action> := [
    NewAccountAction(1), NewAccountAction(2), UpdateAuthAction(1, 5, ACTIVE), LinkAuthAction(Scope(2, 1, 0), 5)]

  lemma RunOneMore(actions: seq<Action>, n: nat)
    requires n < |actions| && Run(actions[..n]).Some?
    ensures Run(actions[..n + 1]) == Step(Run(actions[..n]).value, actions[n])
  {
    hide Step;
    assert actions[..n + 1][..n] == actions[..n];
  }

  lemma TwoAccounts()
    ensures var r := Run(DANGLING[..2]);
            && r.Some? && r.value.accounts == {1, 2} && r.value.links == map[]
            && r.value.byName.Keys == {Level(1, OWNER), Level(1, ACTIVE), Level(2, OWNER), Level(2, ACTIVE)}
  {
    assert Run(DANGLING[..0]) == Some(Initial());
    RunOneMore(DANGLING, 0);
    RunOneMore(DANGLING, 1);
  }

  lemma EntryIsNamed(s: State, l: Level)
    requires Inv(s) && l in s.byName
    ensures s.byName[l] in s.permissions && s.permissions[s.byName[l]].name == l.permission
  {
    assert EntryOk(s, l);
  }

  lemma NameIsFree()
    ensures 5 != OWNER && 5 != ACTIVE && 5 != ANY && !Reserved(5)
  {
  }

  lemma OneMorePermission()
    ensures var r := Run(DANGLING[..3]);
            && r.Some? && r.value.accounts == {1, 2} && r.value.links == map[]
            && Level(1, 5) in r.value.byName && Level(2, 5) !in r.value.byName
  {
    hide Run, Reserved;
    TwoAccounts();
    NameIsFree();
    RunOneMore(DANGLING, 2);
  }

  /** From the first account on: the run is accepted, and its link has no target. */
  lemma LinkMayDangle()
    ensures Run(DANGLING).Some? && !LinksHaveTargets(Run(DANGLING).value)
  {
    hide Run, Inv, LinksHaveTargets, LinkAuth, Reserved;
    OneMorePermission();
    NameIsFree();
    var s := Run(DANGLING[..3]).value;
    RunKeeps(DANGLING[..3], 3);
    assert DANGLING[..3][..3] == DANGLING[..3];
    EntryIsNamed(s, Level(1, 5));
    LinkDangles(s, Scope(2, 1, 0), 5, s.byName[Level(1, 5)]);
    RunOneMore(DANGLING, 3);
    assert DANGLING[..4] == DANGLING;
  }

  // ----- the tables as an object -----

  class Manager {
    var permissions: map<nat, Permission>
    var byName: map<Level, nat>
    var next: nat
    var links: map<Scope, Name>
    var accounts: set<Name>

    function Value(): State
      reads this
    {
      State(permissions, byName, next, links, accounts)
    }

    constructor ()
      ensures Value() == Initial()
    {
      permissions, byName, next, links, accounts := map[], map[], 1, map[], {};
    }

    method CreatePermission(account: Name, name: Name, parent: nat) returns (id: nat)
      modifies this`permissions, this`byName, this`next
      ensures Value() == Create(old(Value()), account, name, parent) && id == old(next)
    {
      id := next;
      permissions := permissions[id := Permission(parent, account, name)];
      byName := byName[Level(account, name) := id];
      next := next + 1;
    }

    method AddAccount(account: Name) returns (ok: bool)
      modifies this
      ensures ok <==> NewAccount(old(Value()), account).Some?
      ensures Value() == if ok then NewAccount(old(Value()), account).value else old(Value())
    {
      ok := account != EMPTY && account !in accounts;
      if ok {
        accounts := accounts + {account};
        var id := CreatePermission(account, OWNER, 0);
        id := CreatePermission(account, ACTIVE, id);
      }
    }

    /** `updateauth`. The tree decides that an existing permission has a row. */
    method Update(account: Name, name: Name, parent: Name) returns (ok: bool)
      requires Inv(Value())
      modifies this
      ensures ok <==> UpdateAuth(old(Value()), account, name, parent).Some?
      ensures Value() == if ok then UpdateAuth(old(Value()), account, name, parent).value else old(Value())
      ensures ok && name != OWNER ==>
                && Level(account, parent) in old(byName) && Level(account, name) in byName
                && byName[Level(account, name)] in permissions
                && permissions[byName[Level(account, name)]].parent == old(byName)[Level(account, parent)]
    {
      if name == EMPTY || Reserved(name) || name == parent || account !in accounts {
        return false;
      }
      if (name == ACTIVE && parent != OWNER) || (name == OWNER) != (parent == EMPTY) {
        return false;
      }
      var parentId := 0;
      if name != OWNER {
        if Level(account, parent) !in byName {
          return false;
        }
        parentId := byName[Level(account, parent)];
      }
      if Level(account, name) in byName {
        EntryIsKnown(Value(), Level(account, name));
        ok := parentId == permissions[byName[Level(account, name)]].parent;
      } else {
        var id := CreatePermission(account, name, parentId);
        ok := true;
      }
    }

    method Delete(account: Name, name: Name) returns (ok: bool)
      modifies this`permissions, this`byName
      ensures ok <==> DeleteAuth(old(Value()), account, name).Some?
      ensures Value() == if ok then DeleteAuth(old(Value()), account, name).value else old(Value())
    {
      if name == ACTIVE || name == OWNER || IsLinked(Value(), account, name) || Level(account, name) !in byName {
        return false;
      }
      var id := byName[Level(account, name)];
      if HasChildren(Value(), id) {
        return false;
      }
      permissions, byName := permissions - {id}, byName - {Level(account, name)};
      ok := true;
    }

    method Link(k: Scope, required: Name) returns (ok: bool)
      modifies this`links
      ensures ok <==> LinkAuth(old(Value()), k, required).Some?
      ensures Value() == if ok then LinkAuth(old(Value()), k, required).value else old(Value())
    {
      if required == EMPTY || k.account !in accounts || k.code !in accounts {
        return false;
      }
      if required != ANY && !Exists(Value(), required) {
        return false;
      }
      if k in links && links[k] == required {
        return false;
      }
      links := links[k := required];
      ok := true;
    }

    method Unlink(k: Scope) returns (ok: bool)
      modifies this`links
      ensures ok <==> UnlinkAuth(old(Value()), k).Some?
      ensures Value() == if ok then UnlinkAuth(old(Value()), k).value else old(Value())
    {
      ok := k in links;
      if ok {
        links := links - {k};
      }
    }
  }
}
