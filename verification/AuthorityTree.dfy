/** Authorities that reach no permission twice. For them the answer of the checker is known at every
    depth limit: it accepts exactly what has a derivation no higher than the limit. More keys, more
    provided permissions, a longer delay or a higher limit then never hurt, and the keys a
    successful check reports suffice by themselves. */
module AuthorityTree {
  import opened Options
  import opened Authority

  /** The permissions the entries reach within `n` steps, not counting what was provided. */
  ghost function Named(env: Env, es: seq<Entry>, n: nat): set<Level>
    decreases n, 1, |es|
  {
    if es == [] then {} else NamedBy(env, es[0], n) + Named(env, es[1..], n)
  }

  ghost function NamedBy(env: Env, e: Entry, n: nat): set<Level>
    decreases n, 0, 0
  {
    if !Opens(env, e) then {}
    else if n == 0 then {e.level}
    else {e.level} + Named(env, Ordered(env.authorities[e.level]), n - 1)
  }

  /** The entry names a permission that has to be looked up. */
  ghost predicate Opens(env: Env, e: Entry) {
    e.Account? && e.level in env.authorities && !Granted(env, e.level)
  }

  /** No permission is reached twice. */
  ghost predicate Tree(env: Env, es: seq<Entry>, n: nat)
    decreases n, 1, |es|
  {
    es == [] || (TreeOf(env, es[0], n) && NamedBy(env, es[0], n) !! Named(env, es[1..], n) && Tree(env, es[1..], n))
  }

  ghost predicate TreeOf(env: Env, e: Entry, n: nat)
    decreases n, 0, 0
  {
    n == 0 || !Opens(env, e) || IsBranch(env, e.level, n)
  }

  ghost predicate IsBranch(env: Env, l: Level, n: nat)
    requires n > 0 && l in env.authorities
    decreases n - 1, 2, 0
  {
    Tree(env, Ordered(env.authorities[l]), n - 1) && l !in Named(env, Ordered(env.authorities[l]), n - 1)
  }

  ghost predicate IsTree(env: Env, a: Authority) {
    Tree(env, Ordered(a), env.limit)
  }

  // ----- fewer steps and more provided permissions keep a tree -----

  ghost predicate Looser(env: Env, env': Env) {
    env'.authorities == env.authorities && env.provided <= env'.provided
  }

  lemma OpensLess(env: Env, env': Env, e: Entry)
    requires Looser(env, env') && Opens(env', e)
    ensures Opens(env, e)
  {
  }

  lemma {:induction false} NamesLess(env: Env, env': Env, es: seq<Entry>, n: nat, n': nat)
    requires Looser(env, env') && n' <= n
    ensures Named(env', es, n') <= Named(env, es, n)
    decreases n', 1, |es|
  {
    hide NamedBy, Looser;
    if es != [] {
      NamesLessBy(env, env', es[0], n, n');
      NamesLess(env, env', es[1..], n, n');
    }
  }

  lemma {:induction false} NamesLessBy(env: Env, env': Env, e: Entry, n: nat, n': nat)
    requires Looser(env, env') && n' <= n
    ensures NamedBy(env', e, n') <= NamedBy(env, e, n)
    decreases n', 0, 0
  {
    hide Named, Ordered, Granted;
    if Opens(env', e) {
      OpensLess(env, env', e);
      if n' > 0 {
        NamesLess(env, env', Ordered(env.authorities[e.level]), n - 1, n' - 1);
      }
    }
  }

  lemma {:induction false} StaysTree(env: Env, env': Env, es: seq<Entry>, n: nat, n': nat)
    requires Looser(env, env') && n' <= n && Tree(env, es, n)
    ensures Tree(env', es, n')
    decreases n', 1, |es|
  {
    hide NamedBy, Named, TreeOf, Looser;
    if es != [] {
      NamesLessBy(env, env', es[0], n, n');
      NamesLess(env, env', es[1..], n, n');
      StaysTreeOf(env, env', es[0], n, n');
      StaysTree(env, env', es[1..], n, n');
    }
  }

  lemma {:induction false} StaysTreeOf(env: Env, env': Env, e: Entry, n: nat, n': nat)
    requires Looser(env, env') && n' <= n && TreeOf(env, e, n)
    ensures TreeOf(env', e, n')
    decreases n', 0, 0
  {
    hide Named, Tree, Ordered, Granted;
    if n' > 0 && Opens(env', e) {
      OpensLess(env, env', e);
      var es := Ordered(env.authorities[e.level]);
      StaysTree(env, env', es, n - 1, n' - 1);
      NamesLess(env, env', es, n - 1, n' - 1);
    }
  }

  // ----- the cache of a check on a tree -----

  /** The cache holds what was provided and otherwise only permissions that were looked up. */
  ghost predicate Known(env: Env, cache: Cache) {
    && (forall l :: l in env.provided ==> l in cache && cache[l] == Satisfied)
    && (forall l :: l in cache ==> l in env.provided || (l in env.authorities && l.permission != 0 && !Granted(env, l)))
  }

  lemma SeenIsProvided(env: Env, cache: Cache, e: Entry, n: nat)
    requires Known(env, cache) && e.Account? && NamedBy(env, e, n) !! cache.Keys
    ensures StatusOf(cache, e.level) == if Granted(env, e.level) then Some(Satisfied) else None
  {
    hide Named, Ordered;
    if Opens(env, e) {
      assert e.level in NamedBy(env, e, n);
    }
  }

  lemma KnownInside(env: Env, cache: Cache, l: Level)
    requires Known(env, cache) && l in env.authorities && l.permission != 0 && !Granted(env, l)
    ensures Known(env, cache[l := Evaluating])
  {
  }

  lemma KnownAfter(env: Env, cache: Cache, l: Level, status: Status)
    requires Known(env, cache) && l in cache && !Granted(env, l)
    ensures Known(env, cache[l := status])
  {
  }

  lemma InitiallyKnown(env: Env)
    ensures Known(env, InitialCache(env))
  {
  }

  lemma NothingNamedYet(env: Env, es: seq<Entry>, n: nat)
    ensures Named(env, es, n) !! InitialCache(env).Keys
  {
    forall l | l in Named(env, es, n) ensures l !in env.provided {
      NamedIsNotGranted(env, es, n, l);
    }
  }

  lemma {:induction false} NamedIsNotGranted(env: Env, es: seq<Entry>, n: nat, l: Level)
    requires l in Named(env, es, n)
    ensures l !in env.provided
    decreases n, 1, |es|
  {
    hide Ordered;
    if l in NamedBy(env, es[0], n) {
      if n > 0 && l != es[0].level {
        NamedIsNotGranted(env, Ordered(env.authorities[es[0].level]), n - 1, l);
      }
    } else {
      NamedIsNotGranted(env, es[1..], n, l);
    }
  }

  // ----- the check on a tree -----

  ghost function WithKeys(env: Env, keys: set<Key>): Env {
    env.(keys := keys)
  }

  /** What visiting one entry promises: the weight, from the reported keys alone, and what the cache
      may learn. */
  ghost predicate VisitedRight(env: Env, e: Entry, cache: Cache, t: Tally, n: nat) {
    && t.weight == DerivedOf(env, e, n) && t.weight <= DerivedOf(WithKeys(env, t.used), e, n)
    && Known(env, t.cache) && t.cache.Keys <= cache.Keys + NamedBy(env, e, n)
  }

  lemma {:induction false} VisitTree(env: Env, e: Entry, cache: Cache, used: set<Key>, depth: nat)
    requires WellFormed(env) && depth <= env.limit && TreeOf(env, e, env.limit - depth)
    requires Known(env, cache) && NamedBy(env, e, env.limit - depth) !! cache.Keys
    ensures VisitedRight(env, e, cache, Visit(env, e, cache, used, depth), env.limit - depth)
    decreases Room(env, depth), 0, 1
  {
    hide Check, Known, Named, Tree, Ordered, Granted, WellFormed, Derives, StatusOf;
    if e.Account? {
      var l, n := e.level, env.limit - depth;
      SeenIsProvided(env, cache, e, n);
      GrantedDerives(env, l, n, used);
      if StatusOf(cache, l).None? {
        if depth < env.limit && l in env.authorities {
          VisitBranch(env, e, cache, used, depth);
        } else {
          NotDerived(env, l, n);
        }
      }
    }
  }

  lemma GrantedDerives(env: Env, l: Level, n: nat, keys: set<Key>)
    ensures Granted(env, l) ==> Derives(env, l, n) && Derives(WithKeys(env, keys), l, n)
  {
  }

  lemma NotDerived(env: Env, l: Level, n: nat)
    requires !Granted(env, l) && (n == 0 || l !in env.authorities)
    ensures !Derives(env, l, n)
  {
  }

  lemma DerivesOpened(env: Env, l: Level, n: nat, keys: set<Key>)
    requires !Granted(env, l) && n > 0 && l in env.authorities
    ensures var a := env.authorities[l];
            && (Derives(env, l, n) <==> All(a) != [] && DerivedWeight(env, All(a), n - 1) >= a.threshold)
            && (Derives(WithKeys(env, keys), l, n) <==>
                All(a) != [] && DerivedWeight(WithKeys(env, keys), All(a), n - 1) >= a.threshold)
  {
    hide All, DerivedWeight;
  }

  lemma {:induction false} VisitBranch(env: Env, e: Entry, cache: Cache, used: set<Key>, depth: nat)
    requires WellFormed(env) && depth < env.limit && TreeOf(env, e, env.limit - depth)
    requires Known(env, cache) && NamedBy(env, e, env.limit - depth) !! cache.Keys
    requires Opens(env, e) && StatusOf(cache, e.level).None?
    ensures VisitedRight(env, e, cache, Visit(env, e, cache, used, depth), env.limit - depth)
    decreases Room(env, depth), 0, 0
  {
    hide Check, Known, Named, Tree, Ordered, Granted, Derives, All;
    var l, n := e.level, env.limit - depth;
    var a := env.authorities[l];
    KnownInside(env, cache, l);
    CheckTree(env, a, cache[l := Evaluating], used, depth + 1);
    CheckExtends(env, a, cache[l := Evaluating], used, depth + 1);
    var o := Check(env, a, cache[l := Evaluating], used, depth + 1);
    DerivesOpened(env, l, n, o.used);
    KnownAfter(env, o.cache, l, if o.ok then Satisfied else Unsatisfied);
  }

  lemma {:induction false} VisitAllTree(env: Env, es: seq<Entry>, threshold: nat, total: nat, cache: Cache, used: set<Key>, depth: nat)
    requires WellFormed(env) && depth <= env.limit && Tree(env, es, env.limit - depth)
    requires Known(env, cache) && Named(env, es, env.limit - depth) !! cache.Keys
    ensures var o, n := VisitAll(env, es, threshold, total, cache, used, depth), env.limit - depth;
            && (o.ok <==> es != [] && total + DerivedWeight(env, es, n) >= threshold)
            && (o.ok ==> total + DerivedWeight(WithKeys(env, o.used), es, n) >= threshold)
            && Known(env, o.cache) && o.cache.Keys <= cache.Keys + Named(env, es, n)
    decreases Room(env, depth), 1, |es|
  {
    hide Visit, DerivedOf, NamedBy, TreeOf, Known, WellFormed, Extends;
    if es != [] {
      var n := env.limit - depth;
      VisitTree(env, es[0], cache, used, depth);
      var t := Visit(env, es[0], cache, used, depth);
      if total + t.weight < threshold {
        VisitAllTree(env, es[1..], threshold, total + t.weight, t.cache, t.used, depth);
        VisitAllExtends(env, es[1..], threshold, total + t.weight, t.cache, t.used, depth);
        var o := VisitAll(env, es[1..], threshold, total + t.weight, t.cache, t.used, depth);
        EntryWeighsMore(env, es[0], n, t.used, o.used);
      }
    }
  }

  lemma EntryWeighsMore(env: Env, e: Entry, n: nat, keys: set<Key>, keys': set<Key>)
    requires keys <= keys'
    ensures DerivedOf(WithKeys(env, keys), e, n) <= DerivedOf(WithKeys(env, keys'), e, n)
  {
    hide Derives;
    if e.Account? && Derives(WithKeys(env, keys), e.level, n) {
      DerivesMore(WithKeys(env, keys), WithKeys(env, keys'), e.level, n);
    }
  }

  lemma {:induction false} CheckTree(env: Env, a: Authority, cache: Cache, used: set<Key>, depth: nat)
    requires WellFormed(env) && depth <= env.limit && Tree(env, Ordered(a), env.limit - depth)
    requires Known(env, cache) && Named(env, Ordered(a), env.limit - depth) !! cache.Keys
    ensures var o, n := Check(env, a, cache, used, depth), env.limit - depth;
            && (o.ok <==> All(a) != [] && DerivedWeight(env, All(a), n) >= a.threshold)
            && (o.ok ==> DerivedWeight(WithKeys(env, o.used), All(a), n) >= a.threshold)
            && Known(env, o.cache) && o.cache.Keys <= cache.Keys + Named(env, Ordered(a), n)
    decreases Room(env, depth), 2, 0
  {
    hide VisitAll, Ordered, Named, Tree, Known, DerivedWeight, All, WellFormed;
    VisitAllTree(env, Ordered(a), a.threshold, 0, cache, used, depth);
    OrderedIsAll(env, a);
    OrderedWeighs(env, a, env.limit - depth);
    OrderedWeighs(WithKeys(env, Check(env, a, cache, used, depth).used), a, env.limit - depth);
  }

  // ----- results -----

  /** At every depth limit, whether permissions are nested deeper or not, the check accepts exactly
      what has a derivation no higher than the limit. */
  lemma SatisfiedIffDerived(env: Env, a: Authority, used: set<Key>)
    requires WellFormed(env) && IsTree(env, a)
    ensures SatisfiesAuthority(env, a, used).ok <==> All(a) != [] && DerivedWeight(env, All(a), env.limit) >= a.threshold
  {
    hide Check, Named, Tree, Known, Ordered, All, InitialCache;
    InitiallyKnown(env);
    NothingNamedYet(env, Ordered(a), env.limit);
    CheckTree(env, a, InitialCache(env), used, 0);
  }

  lemma PermissionIffDerived(env: Env, l: Level, used: set<Key>)
    requires WellFormed(env) && TreeOf(env, Account(l, 1), env.limit)
    ensures SatisfiesPermission(env, l, used).ok <==> Derives(env, l, env.limit)
  {
    hide Visit, NamedBy, TreeOf, Known, InitialCache, Derives;
    var e := Account(l, 1);
    InitiallyKnown(env);
    NothingNamedYet(env, [e], env.limit);
    assert Named(env, [e], env.limit) == NamedBy(env, e, env.limit) + Named(env, [], env.limit) by {
      assert [e][1..] == [];
    }
    VisitTree(env, e, InitialCache(env), used, 0);
  }

  /** More keys, more provided permissions, a longer delay or more depth do not turn an accepted
      authority into a refused one. */
  lemma MoreStillSatisfies(env: Env, env': Env, a: Authority)
    requires WellFormed(env) && Weaker(env, env') && env.limit <= env'.limit
    requires Tree(env, Ordered(a), env'.limit)
    ensures SatisfiesAuthority(env, a, {}).ok ==> SatisfiesAuthority(env', a, {}).ok
  {
    hide SatisfiesAuthority, Tree, Ordered, DerivedWeight, All;
    StaysTree(env, env, Ordered(a), env'.limit, env.limit);
    StaysTree(env, env', Ordered(a), env'.limit, env'.limit);
    SatisfiedIffDerived(env, a, {});
    SatisfiedIffDerived(env', a, {});
    WeighsMore(env, env', All(a), env.limit);
    WeightRises(env', All(a), env.limit, env'.limit);
  }

  /** The keys a successful check reports satisfy the authority by themselves. */
  lemma UsedKeysSuffice(env: Env, a: Authority)
    requires WellFormed(env) && IsTree(env, a)
    ensures var o := SatisfiesAuthority(env, a, {});
            o.ok ==> o.used <= env.keys && SatisfiesAuthority(WithKeys(env, o.used), a, {}).ok
  {
    hide Check, Named, Tree, Known, Ordered, All, InitialCache, DerivedWeight, Extends;
    var o := SatisfiesAuthority(env, a, {});
    InitiallyKnown(env);
    NothingNamedYet(env, Ordered(a), env.limit);
    CheckTree(env, a, InitialCache(env), {}, 0);
    CheckExtends(env, a, InitialCache(env), {}, 0);
    StaysTree(env, WithKeys(env, o.used), Ordered(a), env.limit, env.limit);
    SatisfiedIffDerived(WithKeys(env, o.used), a, {});
  }
}
