/** Inputs outside the conditions under which the checker of authorities is exact, and what it
    answers there: the cache, the limit of the depth and cycles make the answer depend on the order
    of the visits. */
module AuthorityCases {
  import opened Authority

  const P := Level(1, 1)
  const Q := Level(2, 1)

  lemma OrderedPair(e: Entry, f: Entry)
    ensures InsertAll([], [e, f]) == if Before(f, e) then [f, e] else [e, f]
    ensures InsertAll([], [e]) == [e]
  {
    assert Insert([], e) == [e];
    assert [e, f][1..] == [f];
    assert InsertAll([e], [f]) == InsertAll(Insert([e], f), []);
    assert [e][1..] == [];
    assert Insert([e][1..], f) == [f];
    assert InsertAll([], [e]) == InsertAll([e], []);
  }

  lemma VisitOne(env: Env, e: Entry, threshold: nat, total: nat, cache: Cache, used: set<Key>, depth: nat)
    ensures var t := Visit(env, e, cache, used, depth);
            VisitAll(env, [e], threshold, total, cache, used, depth) == Outcome(total + t.weight >= threshold, t.cache, t.used)
  {
    hide Visit;
    assert [e][1..] == [];
  }

  lemma VisitTwo(env: Env, e: Entry, f: Entry, threshold: nat, cache: Cache, used: set<Key>, depth: nat)
    ensures var t := Visit(env, e, cache, used, depth);
            VisitAll(env, [e, f], threshold, 0, cache, used, depth) ==
              if t.weight >= threshold then Outcome(true, t.cache, t.used)
              else
                var u := Visit(env, f, t.cache, t.used, depth);
                Outcome(t.weight + u.weight >= threshold, u.cache, u.used)
  {
    hide Visit;
    assert [e, f][1..] == [f];
    var t := Visit(env, e, cache, used, depth);
    VisitOne(env, f, threshold, t.weight, t.cache, t.used, depth);
  }

  lemma VisitNew(env: Env, l: Level, weight: nat, cache: Cache, used: set<Key>, depth: nat)
    requires l !in cache && Level(l.actor, 0) !in cache && depth < env.limit && l in env.authorities
    ensures var o := Check(env, env.authorities[l], cache[l := Evaluating], used, depth + 1);
            Visit(env, Account(l, weight), cache, used, depth) ==
              if o.ok then Tally(weight, o.cache[l := Satisfied], o.used) else Tally(0, o.cache[l := Unsatisfied], o.used)
  {
    hide Check;
  }

  /** P needs key 7; Q needs key 8 and P. */
  function Shared(keys: set<Key>): Env {
    Env(map[P := Authority(1, [], [KeyEntry(7, 1)], []), Q := Authority(2, [], [KeyEntry(8, 1)], [Account(P, 1)])],
        keys, {}, 0, 6)
  }

  lemma OneKey(env: Env, cache: Cache, used: set<Key>, depth: nat)
    ensures Check(env, Authority(1, [], [KeyEntry(7, 1)], []), cache, used, depth) ==
              if 7 in env.keys then Outcome(true, cache, used + {7}) else Outcome(false, cache, used)
  {
    OrderedPair(KeyEntry(7, 1), KeyEntry(7, 1));
    VisitOne(env, KeyEntry(7, 1), 1, 0, cache, used, depth);
  }

  lemma OrderedKeyAndAccount(k: Key, l: Level)
    ensures Ordered(Authority(2, [], [KeyEntry(k, 1)], [Account(l, 1)])) == [KeyEntry(k, 1), Account(l, 1)]
  {
    OrderedPair(KeyEntry(k, 1), Account(l, 1));
    OrderedPair(KeyEntry(k, 1), KeyEntry(k, 1));
    assert InsertAll([KeyEntry(k, 1)], [Account(l, 1)]) == InsertAll([], [KeyEntry(k, 1), Account(l, 1)]) by {
      assert [KeyEntry(k, 1), Account(l, 1)][1..] == [Account(l, 1)];
    }
  }

  lemma SharedQ(keys: set<Key>, cache: Cache)
    requires 8 !in keys && cache == map[Q := Evaluating]
    ensures Check(Shared(keys), Shared(keys).authorities[Q], cache, {}, 1) ==
              Outcome(false, cache[P := if 7 in keys then Satisfied else Unsatisfied], {})
  {
    hide Visit, VisitAll, Ordered;
    var env := Shared(keys);
    OrderedKeyAndAccount(8, P);
    VisitTwo(env, KeyEntry(8, 1), Account(P, 1), 2, cache, {}, 1);
    MissingKey(env, 8, 1, cache, {}, 1);
    VisitNew(env, P, 1, cache, {}, 1);
    OneKey(env, cache[P := Evaluating], {}, 2);
  }

  lemma MissingKey(env: Env, k: Key, w: nat, cache: Cache, used: set<Key>, depth: nat)
    requires k !in env.keys
    ensures Visit(env, KeyEntry(k, w), cache, used, depth) == Tally(0, cache, used)
  {
  }

  lemma KnownLevel(env: Env, l: Level, w: nat, cache: Cache, used: set<Key>, depth: nat)
    requires l in cache
    ensures Visit(env, Account(l, w), cache, used, depth) == Tally(if cache[l] == Satisfied then w else 0, cache, used)
  {
  }

  /** Where a permission is named twice, the reported keys may fall short: P is satisfied inside
      Q, which fails and gives its key back, and P still counts when it is met again. */
  lemma UsedKeysMayFallShort()
    ensures var a := Authority(1, [], [], [Account(Q, 2), Account(P, 1)]);
            && SatisfiesAuthority(Shared({7}), a, {}).ok && SatisfiesAuthority(Shared({7}), a, {}).used == {}
            && !SatisfiesAuthority(Shared({}), a, {}).ok
  {
    SharedTop({7});
    SharedTop({});
  }

  lemma SharedTop(keys: set<Key>)
    requires 8 !in keys
    ensures var o := SatisfiesAuthority(Shared(keys), Authority(1, [], [], [Account(Q, 2), Account(P, 1)]), {});
            o.ok == (7 in keys) && o.used == {}
  {
    hide Visit, VisitAll, InsertAll;
    var env := Shared(keys);
    var cache: Cache := map[];
    assert InitialCache(env) == cache;
    OrderedPair(Account(Q, 2), Account(P, 1));
    NoneInserted();
    VisitTwo(env, Account(Q, 2), Account(P, 1), 1, cache, {}, 0);
    VisitNew(env, Q, 2, cache, {}, 0);
    SharedQ(keys, cache[Q := Evaluating]);
    var c := Visit(env, Account(Q, 2), cache, {}, 0).cache;
    KnownLevel(env, P, 1, c, {}, 0);
  }

  lemma NoneInserted()
    ensures InsertAll([], []) == []
  {
  }

  /** P needs key 7 or Q, and Q needs P. */
  function Mutual(): Env {
    Env(map[P := Authority(1, [], [KeyEntry(7, 1)], [Account(Q, 2)]), Q := Authority(1, [], [], [Account(P, 1)])], {7}, {}, 0, 6)
  }

  lemma MutualQ(cache: Cache)
    requires P in cache && cache[P] == Evaluating
    ensures Check(Mutual(), Mutual().authorities[Q], cache, {}, 2) == Outcome(false, cache, {})
  {
    hide Visit, VisitAll, InsertAll;
    OrderedPair(Account(P, 1), Account(P, 1));
    NoneInserted();
    VisitOne(Mutual(), Account(P, 1), 1, 0, cache, {}, 2);
    KnownLevel(Mutual(), P, 1, cache, {}, 2);
  }

  lemma OrderedP()
    ensures Ordered(Mutual().authorities[P]) == [Account(Q, 2), KeyEntry(7, 1)]
  {
    hide InsertAll;
    OrderedPair(KeyEntry(7, 1), Account(Q, 2));
    NoneInserted();
    InsertedInTurn(KeyEntry(7, 1), Account(Q, 2));
  }

  lemma MutualP(cache: Cache)
    requires cache == map[P := Evaluating]
    ensures Check(Mutual(), Mutual().authorities[P], cache, {}, 1) == Outcome(true, cache[Q := Unsatisfied], {7})
  {
    hide Visit, VisitAll, Ordered;
    var env := Mutual();
    OrderedP();
    VisitTwo(env, Account(Q, 2), KeyEntry(7, 1), 1, cache, {}, 1);
    VisitNew(env, Q, 2, cache, {}, 1);
    MutualQ(cache[Q := Evaluating]);
    assert cache[Q := Evaluating][Q := Unsatisfied] == cache[Q := Unsatisfied];
    FoundKey(env, 7, 1, cache[Q := Unsatisfied], {}, 1);
  }

  lemma FoundKey(env: Env, k: Key, w: nat, cache: Cache, used: set<Key>, depth: nat)
    requires k in env.keys
    ensures Visit(env, KeyEntry(k, w), cache, used, depth) == Tally(w, cache, used + {k})
  {
  }

  lemma InsertedInTurn(e: Entry, f: Entry)
    ensures InsertAll(InsertAll([], [e]), [f]) == InsertAll([], [e, f])
  {
    assert [e, f][1..] == [f] && [e][1..] == [];
  }

  /** Permissions that depend on each other may be refused though they hold: Q is found
      unsatisfied while P is being evaluated, and stays so when P turns out to be satisfied. */
  lemma CyclesMayHideSuccess()
    ensures var a := Authority(2, [], [], [Account(P, 1), Account(Q, 1)]);
            Holds(Mutual(), a) && !SatisfiesAuthority(Mutual(), a, {}).ok
  {
    MutualHolds();
    MutualTop();
  }

  lemma MutualTop()
    ensures !SatisfiesAuthority(Mutual(), Authority(2, [], [], [Account(P, 1), Account(Q, 1)]), {}).ok
  {
    hide Visit, VisitAll, InsertAll;
    var env := Mutual();
    var cache: Cache := map[];
    assert InitialCache(env) == cache;
    OrderedPair(Account(P, 1), Account(Q, 1));
    NoneInserted();
    VisitTwo(env, Account(P, 1), Account(Q, 1), 2, cache, {}, 0);
    VisitNew(env, P, 1, cache, {}, 0);
    MutualP(cache[P := Evaluating]);
    var c := Visit(env, Account(P, 1), cache, {}, 0).cache;
    KnownLevel(env, Q, 1, c, {7}, 0);
  }

  lemma MutualHolds()
    ensures Holds(Mutual(), Authority(2, [], [], [Account(P, 1), Account(Q, 1)]))
  {
    var env := Mutual();
    var all := All(env.authorities[P]);
    assert all == [KeyEntry(7, 1), Account(Q, 2)];
    assert all[1..] == [Account(Q, 2)];
    assert DerivedWeight(env, all, 0) >= 1;
    assert Derives(env, P, 1);
    assert All(env.authorities[Q]) == [Account(P, 1)];
    assert DerivedWeight(env, [Account(P, 1)], 1) == 1;
    assert Derives(env, Q, 2);
    var a := Authority(2, [], [], [Account(P, 1), Account(Q, 1)]);
    assert All(a) == [Account(P, 1), Account(Q, 1)];
    assert All(a)[1..] == [Account(Q, 1)] && [Account(Q, 1)][1..] == [];
  }

  // ----- the depth limit -----

  const R := Level(3, 1)
  const X := Level(4, 1)
  const Y := Level(5, 1)

  /** R needs key 7, P needs R, Y needs P, X needs Y. */
  function Nested(limit: nat): Env {
    Env(map[R := Authority(1, [], [KeyEntry(7, 1)], []), P := Only(R), Y := Only(P), X := Only(Y)], {7}, {}, 0, limit)
  }

  function Only(l: Level): Authority {
    Authority(1, [], [], [Account(l, 1)])
  }

  lemma CheckOnly(env: Env, l: Level, cache: Cache, used: set<Key>, depth: nat)
    ensures var t := Visit(env, Account(l, 1), cache, used, depth);
            Check(env, Only(l), cache, used, depth) ==
              if t.weight >= 1 then Outcome(true, t.cache, t.used) else Outcome(false, t.cache, used)
  {
    hide Visit, VisitAll, InsertAll;
    OrderedPair(Account(l, 1), Account(l, 1));
    NoneInserted();
    VisitOne(env, Account(l, 1), 1, 0, cache, used, depth);
  }

  lemma TooDeep(env: Env, l: Level, w: nat, cache: Cache, used: set<Key>, depth: nat)
    requires l !in cache && Level(l.actor, 0) !in cache && depth >= env.limit
    ensures Visit(env, Account(l, w), cache, used, depth) == Tally(0, cache, used)
  {
  }

  lemma VisitR(limit: nat, cache: Cache, depth: nat)
    requires R !in cache && Level(3, 0) !in cache
    ensures var t := Visit(Nested(limit), Account(R, 1), cache, {}, depth);
            t == if depth < limit then Tally(1, cache[R := Satisfied], {7}) else Tally(0, cache, {})
  {
    hide Visit, Check;
    if depth < limit {
      VisitNew(Nested(limit), R, 1, cache, {}, depth);
      OneKey(Nested(limit), cache[R := Evaluating], {}, depth + 1);
      assert cache[R := Evaluating][R := Satisfied] == cache[R := Satisfied];
      assert {} + {7} == {7};
    } else {
      TooDeep(Nested(limit), R, 1, cache, {}, depth);
    }
  }

  lemma VisitP(limit: nat, w: nat, cache: Cache, depth: nat)
    requires cache.Keys <= {X, Y} && w > 0
    ensures var t := Visit(Nested(limit), Account(P, w), cache, {}, depth);
            && t.weight == (if depth + 1 < limit then w else 0)
            && t.cache.Keys <= cache.Keys + {R, P}
            && (P in t.cache <==> depth < limit) && (depth + 1 == limit ==> t.cache[P] == Unsatisfied)
            && (depth + 1 < limit ==> t.cache[P] == Satisfied) && (t.weight == 0 ==> t.used == {})
  {
    hide Visit, Check;
    var env := Nested(limit);
    if depth < limit {
      VisitNew(env, P, w, cache, {}, depth);
      CheckOnly(env, R, cache[P := Evaluating], {}, depth + 1);
      VisitR(limit, cache[P := Evaluating], depth + 1);
    } else {
      TooDeep(env, P, w, cache, {}, depth);
    }
  }

  lemma VisitX(limit: nat)
    requires limit >= 2
    ensures var t := Visit(Nested(limit), Account(X, 2), map[], {}, 0);
            && t.weight == (if limit >= 4 then 2 else 0) && (t.weight == 0 ==> t.used == {})
            && t.cache.Keys <= {X, Y, R, P} && (P in t.cache <==> limit >= 3)
            && (limit == 3 ==> t.cache[P] == Unsatisfied) && (limit == 2 ==> t.cache.Keys <= {X, Y})
  {
    hide Visit, Check;
    var env := Nested(limit);
    var c: Cache := map[X := Evaluating];
    var d: Cache := map[X := Evaluating, Y := Evaluating];
    VisitNew(env, X, 2, map[], {}, 0);
    assert map[][X := Evaluating] == c && c[Y := Evaluating] == d;
    CheckOnly(env, Y, c, {}, 1);
    VisitNew(env, Y, 1, c, {}, 1);
    CheckOnly(env, P, d, {}, 2);
    VisitP(limit, 1, d, 2);
    if limit == 2 {
      TooDeep(env, P, 1, d, {}, 2);
    }
  }

  /** Without cycles, and though the authority holds, a higher depth limit may turn acceptance into
      refusal and back: with a limit of 3, P is found too deep inside X, and is not tried again. */
  lemma DepthMayHurt()
    ensures var a := Authority(1, [], [], [Account(X, 2), Account(P, 1)]);
            && SatisfiesAuthority(Nested(2), a, {}).ok
            && !SatisfiesAuthority(Nested(3), a, {}).ok
            && SatisfiesAuthority(Nested(4), a, {}).ok
  {
    NestedTop(2);
    NestedTop(3);
    NestedTop(4);
  }

  lemma NestedTop(limit: nat)
    requires limit >= 2
    ensures SatisfiesAuthority(Nested(limit), Authority(1, [], [], [Account(X, 2), Account(P, 1)]), {}).ok <==> limit != 3
  {
    hide Visit, VisitAll, InsertAll;
    var env := Nested(limit);
    var none: Cache := map[];
    assert InitialCache(env) == none;
    OrderedPair(Account(X, 2), Account(P, 1));
    NoneInserted();
    VisitTwo(env, Account(X, 2), Account(P, 1), 1, none, {}, 0);
    VisitX(limit);
    var c := Visit(env, Account(X, 2), none, {}, 0).cache;
    if limit == 2 {
      VisitP(limit, 1, c, 0);
    } else if limit == 3 {
      KnownLevel(env, P, 1, c, {}, 0);
    }
  }

  // ----- more keys and a cycle -----

  /** P needs key 7 or Q, Q needs P, X needs key 9 or Q. */
  function Cyclic(keys: set<Key>): Env {
    Env(map[P := Authority(1, [], [KeyEntry(7, 1)], [Account(Q, 2)]), Q := Only(P),
            X := Authority(1, [], [KeyEntry(9, 2)], [Account(Q, 1)])], keys, {}, 0, 6)
  }

  lemma CyclicQ(keys: set<Key>, cache: Cache, used: set<Key>, depth: nat)
    requires P in cache && cache[P] == Evaluating && Q !in cache && Level(2, 0) !in cache && depth < 6
    ensures Visit(Cyclic(keys), Account(Q, 2), cache, used, depth) == Tally(0, cache[Q := Unsatisfied], used)
  {
    hide Visit, Check;
    var env := Cyclic(keys);
    VisitNew(env, Q, 2, cache, used, depth);
    CheckOnly(env, P, cache[Q := Evaluating], used, depth + 1);
    KnownLevel(env, P, 1, cache[Q := Evaluating], used, depth + 1);
    assert cache[Q := Evaluating][Q := Unsatisfied] == cache[Q := Unsatisfied];
  }

  /** P while Q is being evaluated or was found unsatisfied inside. */
  lemma CyclicP(keys: set<Key>, w: nat, cache: Cache, used: set<Key>, depth: nat)
    requires 7 in keys && P !in cache && Level(1, 0) !in cache && Level(2, 0) !in cache && depth < 5
    requires Q in cache ==> cache[Q] == Evaluating
    ensures Visit(Cyclic(keys), Account(P, w), cache, used, depth) ==
              Tally(w, if Q in cache then cache[P := Satisfied] else cache[Q := Unsatisfied][P := Satisfied], used + {7})
  {
    hide Visit, Check, VisitAll, Ordered;
    var env := Cyclic(keys);
    var inner := cache[P := Evaluating];
    VisitNew(env, P, w, cache, used, depth);
    OrderedP();
    VisitTwo(env, Account(Q, 2), KeyEntry(7, 1), 1, inner, used, depth + 1);
    var after := if Q in cache then inner else inner[Q := Unsatisfied];
    if Q in cache {
      KnownLevel(env, Q, 2, inner, used, depth + 1);
    } else {
      CyclicQ(keys, inner, used, depth + 1);
    }
    FoundKey(env, 7, 1, after, used, depth + 1);
    CheckInOrder(env, env.authorities[P], inner, used, depth + 1);
    assert after[P := Satisfied] == if Q in cache then cache[P := Satisfied] else cache[Q := Unsatisfied][P := Satisfied];
  }

  lemma CheckInOrder(env: Env, a: Authority, cache: Cache, used: set<Key>, depth: nat)
    ensures var o := VisitAll(env, Ordered(a), a.threshold, 0, cache, used, depth);
            Check(env, a, cache, used, depth) == if o.ok then o else o.(used := used)
  {
    hide VisitAll, Ordered;
  }

  lemma OrderedX()
    ensures Ordered(Authority(1, [], [KeyEntry(9, 2)], [Account(Q, 1)])) == [KeyEntry(9, 2), Account(Q, 1)]
  {
    hide InsertAll;
    OrderedPair(KeyEntry(9, 2), Account(Q, 1));
    NoneInserted();
    InsertedInTurn(KeyEntry(9, 2), Account(Q, 1));
  }

  /** With key 9, X is satisfied without looking at Q. */
  lemma CyclicXWithNine()
    ensures Visit(Cyclic({7, 9}), Account(X, 3), map[], {}, 0) == Tally(3, map[X := Satisfied], {9})
  {
    hide Visit, Check, VisitAll, Ordered;
    var env := Cyclic({7, 9});
    var c: Cache := map[X := Evaluating];
    VisitNew(env, X, 3, map[], {}, 0);
    assert map[][X := Evaluating] == c;
    OrderedX();
    VisitTwo(env, KeyEntry(9, 2), Account(Q, 1), 1, c, {}, 1);
    FoundKey(env, 9, 2, c, {}, 1);
    CheckInOrder(env, env.authorities[X], c, {}, 1);
    assert c[X := Satisfied] == map[X := Satisfied] && {} + {9} == {9};
  }

  /** Without it, Q and through it P are found satisfied on the way. */
  lemma CyclicXWithoutNine()
    ensures Visit(Cyclic({7}), Account(X, 3), map[], {}, 0) == Tally(3, map[X := Satisfied, Q := Satisfied, P := Satisfied], {7})
  {
    hide Visit, Check, VisitAll, Ordered;
    var env := Cyclic({7});
    var c: Cache := map[X := Evaluating];
    VisitNew(env, X, 3, map[], {}, 0);
    assert map[][X := Evaluating] == c;
    OrderedX();
    VisitTwo(env, KeyEntry(9, 2), Account(Q, 1), 1, c, {}, 1);
    MissingKey(env, 9, 2, c, {}, 1);
    VisitNew(env, Q, 1, c, {}, 1);
    CheckOnly(env, P, c[Q := Evaluating], {}, 2);
    CyclicP({7}, 1, c[Q := Evaluating], {}, 2);
    CheckInOrder(env, env.authorities[X], c, {}, 1);
    assert {} + {7} == {7};
    assert c[Q := Evaluating][P := Satisfied][Q := Satisfied][X := Satisfied] == map[X := Satisfied, Q := Satisfied, P := Satisfied];
  }

  lemma OrderedThree(e: Entry, f: Entry, g: Entry)
    requires !Before(f, e) && !Before(g, e) && !Before(g, f)
    ensures InsertAll([], [e, f, g]) == [e, f, g]
  {
    assert [e, f, g][1..] == [f, g] && [f, g][1..] == [g] && [g][1..] == [];
    assert [e, f][1..] == [f] && [e][1..] == [] && [f][1..] == [];
    assert Insert([], e) == [e] && Insert([e], f) == [e, f];
    assert Insert([f], g) == [f, g];
    assert Insert([e, f], g) == [e] + Insert([f], g) == [e, f, g];
    assert InsertAll([e, f], [g]) == InsertAll([e, f, g], []);
    assert InsertAll([e], [f, g]) == InsertAll([e, f], [g]);
    assert InsertAll([], [e, f, g]) == InsertAll([e], [f, g]);
  }

  lemma VisitThree(env: Env, e: Entry, f: Entry, g: Entry, threshold: nat, cache: Cache, used: set<Key>, depth: nat)
    requires var t := Visit(env, e, cache, used, depth);
             t.weight + Visit(env, f, t.cache, t.used, depth).weight < threshold
    ensures var t := Visit(env, e, cache, used, depth);
            var u := Visit(env, f, t.cache, t.used, depth);
            var v := Visit(env, g, u.cache, u.used, depth);
            VisitAll(env, [e, f, g], threshold, 0, cache, used, depth) == Outcome(t.weight + u.weight + v.weight >= threshold, v.cache, v.used)
  {
    hide Visit;
    assert [e, f, g][1..] == [f, g] && [f, g][1..] == [g];
    var t := Visit(env, e, cache, used, depth);
    var u := Visit(env, f, t.cache, t.used, depth);
    VisitOne(env, g, threshold, t.weight + u.weight, u.cache, u.used, depth);
  }

  const SIX := Authority(6, [], [], [Account(X, 3), Account(P, 2), Account(Q, 1)])

  lemma OrderedSix()
    ensures Ordered(SIX) == [Account(X, 3), Account(P, 2), Account(Q, 1)]
  {
    hide InsertAll;
    NoneInserted();
    OrderedThree(Account(X, 3), Account(P, 2), Account(Q, 1));
    assert Ordered(SIX) == InsertAll([], [Account(X, 3), Account(P, 2), Account(Q, 1)]);
  }

  lemma SixWithoutNine()
    ensures SatisfiesAuthority(Cyclic({7}), SIX, {}).ok
  {
    hide Visit, VisitAll, Ordered;
    var env := Cyclic({7});
    var none: Cache := map[];
    assert InitialCache(env) == none;
    OrderedSix();
    CyclicXWithoutNine();
    var c: Cache := map[X := Satisfied, Q := Satisfied, P := Satisfied];
    KnownLevel(env, P, 2, c, {7}, 0);
    KnownLevel(env, Q, 1, c, {7}, 0);
    VisitThree(env, Account(X, 3), Account(P, 2), Account(Q, 1), 6, none, {}, 0);
  }

  lemma SixWithNine()
    ensures !SatisfiesAuthority(Cyclic({7, 9}), SIX, {}).ok
  {
    hide Visit, VisitAll, Ordered;
    var env := Cyclic({7, 9});
    var none: Cache := map[];
    assert InitialCache(env) == none;
    OrderedSix();
    CyclicXWithNine();
    var c: Cache := map[X := Satisfied];
    CyclicP({7, 9}, 2, c, {9}, 0);
    KnownLevel(env, Q, 1, c[Q := Unsatisfied][P := Satisfied], {9} + {7}, 0);
    VisitThree(env, Account(X, 3), Account(P, 2), Account(Q, 1), 6, none, {}, 0);
  }

  /** Where permissions depend on each other, one more key may turn acceptance into refusal: it lets
      X succeed before Q is tried, and Q then fails while P is being evaluated. */
  lemma MoreKeysMayHurt()
    ensures SatisfiesAuthority(Cyclic({7}), SIX, {}).ok && !SatisfiesAuthority(Cyclic({7, 9}), SIX, {}).ok
  {
    SixWithoutNine();
    SixWithNine();
  }
}
