/** Deciding whether keys, permissions and a delay satisfy an authority. An authority asks for a
    total weight; it may name keys, waiting times and other permissions, which stand for
    authorities in turn. The checker visits the entries from the heaviest on, remembers the
    permissions it evaluated, limits the depth, and takes back the keys a failed authority used.

    The reference it is compared with is the least set of permissions closed under the rule that
    a permission holds when the weights of its satisfied entries reach its threshold. */
module Authority {
  import opened Options

  type Key = nat

  /** The name 0 is the empty permission name: a provided permission with it stands for every
      permission of its account. */
  datatype Level = Level(actor: nat, permission: nat)

  datatype Entry =
    | Wait(seconds: nat, weight: nat)
    | KeyEntry(key: Key, weight: nat)
    | Account(level: Level, weight: nat)

  datatype Authority = Authority(threshold: nat, waits: seq<Entry>, keys: seq<Entry>, accounts: seq<Entry>)

  /** What a check is given. */
  datatype Env = Env(authorities: map<Level, Authority>, keys: set<Key>, provided: set<Level>, delay: nat, limit: nat)

  datatype Status = Evaluating | Unsatisfied | Satisfied

  type Cache = map<Level, Status>

  datatype Outcome = Outcome(ok: bool, cache: Cache, used: set<Key>)

  datatype Tally = Tally(weight: nat, cache: Cache, used: set<Key>)

  // ----- the order of the entries -----

  function Kind(e: Entry): nat {
    match e
    case Account(_, _) => 0
    case KeyEntry(_, _) => 1
    case Wait(_, _) => 2
  }

  predicate Before(e: Entry, f: Entry) {
    e.weight > f.weight || (e.weight == f.weight && Kind(e) > Kind(f))
  }

  /** Inserts after the entries that do not come later. */
  function Insert(v: seq<Entry>, e: Entry): seq<Entry> {
    if v == [] || Before(e, v[0]) then [e] + v else [v[0]] + Insert(v[1..], e)
  }

  function InsertAll(v: seq<Entry>, es: seq<Entry>): seq<Entry>
    decreases |es|
  {
    if es == [] then v else InsertAll(Insert(v, es[0]), es[1..])
  }

  function All(a: Authority): seq<Entry> {
    a.waits + a.keys + a.accounts
  }

  function Ordered(a: Authority): seq<Entry> {
    InsertAll(InsertAll(InsertAll([], a.waits), a.keys), a.accounts)
  }

  /** No entry stands before one that should come earlier. */
  ghost predicate Descending(v: seq<Entry>) {
    forall i, j :: 0 <= i < j < |v| ==> !Before(v[j], v[i])
  }

  lemma {:induction false} InsertDescends(v: seq<Entry>, e: Entry)
    requires Descending(v)
    ensures Descending(Insert(v, e)) && forall x :: x in Insert(v, e) ==> x == e || x in v
  {
    if v == [] || Before(e, v[0]) {
      forall k | 0 <= k < |v| ensures !Before(v[k], e) {
      }
    } else {
      var rest := Insert(v[1..], e);
      InsertDescends(v[1..], e);
      forall k | 0 <= k < |rest| ensures !Before(rest[k], v[0]) {
        assert rest[k] in rest;
        if rest[k] != e {
          var i :| 0 <= i < |v[1..]| && v[1..][i] == rest[k];
          assert v[1..][i] == v[i + 1];
        }
      }
    }
  }

  lemma {:induction false} InsertAllDescends(v: seq<Entry>, es: seq<Entry>)
    requires Descending(v)
    ensures Descending(InsertAll(v, es))
    decreases |es|
  {
    hide Insert, Descending;
    if es != [] {
      InsertDescends(v, es[0]);
      InsertAllDescends(Insert(v, es[0]), es[1..]);
    }
  }

  lemma OrderedDescends(a: Authority)
    ensures Descending(Ordered(a))
  {
    hide InsertAll;
    InsertAllDescends([], a.waits);
    InsertAllDescends(InsertAll([], a.waits), a.keys);
    InsertAllDescends(InsertAll(InsertAll([], a.waits), a.keys), a.accounts);
  }

  /** Entries are visited by falling weight, at equal weight waits before keys before accounts. */
  lemma HeaviestFirst(a: Authority, i: nat, j: nat)
    requires i < j < |Ordered(a)|
    ensures var e, f := Ordered(a)[i], Ordered(a)[j];
            e.weight >= f.weight && (e.weight == f.weight ==> e.Wait? || (e.KeyEntry? && !f.Wait?) || f.Account?)
  {
    OrderedDescends(a);
  }

  /** Entries of the same weight and the same kind. */
  ghost predicate Alike(p: Entry -> bool) {
    forall e, f :: p(e) && p(f) ==> e.weight == f.weight && (e.Wait? <==> f.Wait?) && (e.KeyEntry? <==> f.KeyEntry?)
  }

  ghost function Pick(p: Entry -> bool, v: seq<Entry>): seq<Entry> {
    if v == [] then [] else (if p(v[0]) then [v[0]] else []) + Pick(p, v[1..])
  }

  lemma {:induction false} PickNone(p: Entry -> bool, v: seq<Entry>)
    requires forall x :: x in v ==> !p(x)
    ensures Pick(p, v) == []
  {
    if v != [] {
      PickNone(p, v[1..]);
    }
  }

  lemma PickFirst(p: Entry -> bool, v: seq<Entry>)
    requires v != []
    ensures Pick(p, v) == (if p(v[0]) then [v[0]] else []) + Pick(p, v[1..])
  {
  }

  lemma {:induction false} PickAppend(p: Entry -> bool, v: seq<Entry>, es: seq<Entry>)
    ensures Pick(p, v + es) == Pick(p, v) + Pick(p, es)
  {
    hide Pick;
    if v == [] {
      PickNone(p, v);
      assert v + es == es;
    } else {
      PickAppend(p, v[1..], es);
      PickFirst(p, v);
      PickFirst(p, v + es);
      assert (v + es)[1..] == v[1..] + es && (v + es)[0] == v[0];
    }
  }

  lemma {:induction false} PickInserted(p: Entry -> bool, v: seq<Entry>, e: Entry)
    requires Alike(p) && Descending(v)
    ensures Pick(p, Insert(v, e)) == Pick(p, v) + if p(e) then [e] else []
  {
    if v == [] || Before(e, v[0]) {
      if p(e) {
        forall x | x in v ensures !p(x) {
          var i :| 0 <= i < |v| && v[i] == x;
        }
        PickNone(p, v);
      }
      assert ([e] + v)[1..] == v;
    } else {
      PickInserted(p, v[1..], e);
      assert Insert(v, e)[1..] == Insert(v[1..], e);
    }
  }

  lemma {:induction false} PickInsertedAll(p: Entry -> bool, v: seq<Entry>, es: seq<Entry>)
    requires Alike(p) && Descending(v)
    ensures Pick(p, InsertAll(v, es)) == Pick(p, v) + Pick(p, es)
    decreases |es|
  {
    hide Insert, Descending, Alike, Pick;
    if es == [] {
      PickNone(p, es);
    } else {
      var one := if p(es[0]) then [es[0]] else [];
      InsertDescends(v, es[0]);
      PickInserted(p, v, es[0]);
      PickInsertedAll(p, Insert(v, es[0]), es[1..]);
      PickFirst(p, es);
      assert Pick(p, v) + one + Pick(p, es[1..]) == Pick(p, v) + (one + Pick(p, es[1..]));
    }
  }

  /** Entries alike are visited in the order the authority lists them. */
  lemma AlikeKeepOrder(p: Entry -> bool, a: Authority)
    requires Alike(p)
    ensures Pick(p, Ordered(a)) == Pick(p, All(a))
  {
    hide InsertAll, Alike, Pick;
    var w := InsertAll([], a.waits);
    var k := InsertAll(w, a.keys);
    InsertAllDescends([], a.waits);
    InsertAllDescends(w, a.keys);
    PickInsertedAll(p, [], a.waits);
    PickInsertedAll(p, w, a.keys);
    PickInsertedAll(p, k, a.accounts);
    PickNone(p, []);
    PickAppend(p, a.waits, a.keys);
    PickAppend(p, a.waits + a.keys, a.accounts);
  }

  // ----- the check -----

  function StatusOf(cache: Cache, l: Level): Option<Status> {
    if l in cache then Some(cache[l])
    else if Level(l.actor, 0) in cache then Some(cache[Level(l.actor, 0)])
    else None
  }

  function Room(env: Env, depth: nat): nat {
    if depth < env.limit then env.limit - depth else 0
  }

  const SECOND: nat := 1_000_000

  /** One entry: the weight it adds. */
  function Visit(env: Env, e: Entry, cache: Cache, used: set<Key>, depth: nat): Tally
    decreases Room(env, depth), 0, 0
  {
    match e
    case Wait(seconds, weight) => Tally(if env.delay >= seconds * SECOND then weight else 0, cache, used)
    case KeyEntry(key, weight) => if key in env.keys then Tally(weight, cache, used + {key}) else Tally(0, cache, used)
    case Account(l, weight) =>
      var status := StatusOf(cache, l);
      if status.Some? then Tally(if status.value.Satisfied? then weight else 0, cache, used)
      else if depth < env.limit && l in env.authorities then
        var o := Check(env, env.authorities[l], cache[l := Evaluating], used, depth + 1);
        if o.ok then Tally(weight, o.cache[l := Satisfied], o.used)
        else Tally(0, o.cache[l := Unsatisfied], o.used)
      else Tally(0, cache, used)
  }

  /** The entries in turn, until the total reaches the threshold. */
  function VisitAll(env: Env, es: seq<Entry>, threshold: nat, total: nat, cache: Cache, used: set<Key>, depth: nat): Outcome
    decreases Room(env, depth), 1, |es|
  {
    if es == [] then Outcome(false, cache, used)
    else
      var t := Visit(env, es[0], cache, used, depth);
      if total + t.weight >= threshold then Outcome(true, t.cache, t.used)
      else VisitAll(env, es[1..], threshold, total + t.weight, t.cache, t.used, depth)
  }

  /** An authority: a failed one gives back the keys it used. */
  function Check(env: Env, a: Authority, cache: Cache, used: set<Key>, depth: nat): Outcome
    decreases Room(env, depth), 2, 0
  {
    var o := VisitAll(env, Ordered(a), a.threshold, 0, cache, used, depth);
    if o.ok then o else o.(used := used)
  }

  function InitialCache(env: Env): Cache {
    map l | l in env.provided :: Satisfied
  }

  /** `satisfied` for an authority and for a permission. */
  function SatisfiesAuthority(env: Env, a: Authority, used: set<Key>): Outcome {
    Check(env, a, InitialCache(env), used, 0)
  }

  function SatisfiesPermission(env: Env, l: Level, used: set<Key>): Outcome {
    var t := Visit(env, Account(l, 1), InitialCache(env), used, 0);
    Outcome(t.weight > 0, t.cache, t.used)
  }

  // ----- the reference -----

  ghost predicate Granted(env: Env, l: Level) {
    l in env.provided || Level(l.actor, 0) in env.provided
  }

  /** A permission that holds by a derivation of height at most `n`. */
  ghost predicate Derives(env: Env, l: Level, n: nat)
    decreases n, 1, 0
  {
    || Granted(env, l)
    || (n > 0 && l in env.authorities && All(env.authorities[l]) != [] &&
        DerivedWeight(env, All(env.authorities[l]), n - 1) >= env.authorities[l].threshold)
  }

  ghost function DerivedWeight(env: Env, es: seq<Entry>, n: nat): nat
    decreases n, 2, |es|
  {
    if es == [] then 0 else DerivedOf(env, es[0], n) + DerivedWeight(env, es[1..], n)
  }

  ghost function DerivedOf(env: Env, e: Entry, n: nat): nat
    decreases n, 2, 0
  {
    match e
    case Wait(seconds, weight) => if env.delay >= seconds * SECOND then weight else 0
    case KeyEntry(key, weight) => if key in env.keys then weight else 0
    case Account(l, weight) => if Derives(env, l, n) then weight else 0
  }

  ghost predicate Derivable(env: Env, l: Level) {
    exists n: nat :: Derives(env, l, n)
  }

  ghost function Earned(env: Env, e: Entry): nat {
    match e
    case Wait(seconds, weight) => if env.delay >= seconds * SECOND then weight else 0
    case KeyEntry(key, weight) => if key in env.keys then weight else 0
    case Account(l, weight) => if Derivable(env, l) then weight else 0
  }

  ghost function Sum(env: Env, es: seq<Entry>): nat {
    if es == [] then 0 else Earned(env, es[0]) + Sum(env, es[1..])
  }

  /** The weights of the entries that hold reach the threshold. */
  ghost predicate Holds(env: Env, a: Authority) {
    All(a) != [] && Sum(env, All(a)) >= a.threshold
  }

  // ----- the reference is a fixed point -----

  lemma {:induction false} DerivesRises(env: Env, l: Level, n: nat, m: nat)
    requires n <= m && Derives(env, l, n)
    ensures Derives(env, l, m)
    decreases n, 1, 0
  {
    if !Granted(env, l) {
      WeightRises(env, All(env.authorities[l]), n - 1, m - 1);
    }
  }

  lemma {:induction false} WeightRises(env: Env, es: seq<Entry>, n: nat, m: nat)
    requires n <= m
    ensures DerivedWeight(env, es, n) <= DerivedWeight(env, es, m)
    decreases n, 2, |es|
  {
    if es != [] {
      if es[0].Account? && Derives(env, es[0].level, n) {
        DerivesRises(env, es[0].level, n, m);
      }
      WeightRises(env, es[1..], n, m);
    }
  }

  lemma OneIsEarned(env: Env, e: Entry, n: nat)
    ensures DerivedOf(env, e, n) <= Earned(env, e)
  {
    if e.Account? && Derives(env, e.level, n) {
      assert Derivable(env, e.level);
    }
  }

  lemma {:induction false} WeightIsEarned(env: Env, es: seq<Entry>, n: nat)
    ensures DerivedWeight(env, es, n) <= Sum(env, es)
  {
    if es != [] {
      OneIsEarned(env, es[0], n);
      WeightIsEarned(env, es[1..], n);
    }
  }

  /** Finitely many derivations have a common height. */
  lemma {:induction false} EarnedIsWeight(env: Env, es: seq<Entry>) returns (n: nat)
    ensures DerivedWeight(env, es, n) == Sum(env, es)
  {
    if es == [] {
      n := 0;
    } else {
      var m := EarnedIsWeight(env, es[1..]);
      var k: nat := 0;
      if es[0].Account? && Derivable(env, es[0].level) {
        k :| Derives(env, es[0].level, k);
      }
      n := if m < k then k else m;
      WeightRises(env, es[1..], m, n);
      WeightIsEarned(env, es[1..], n);
      OneIsEarned(env, es[0], n);
      if es[0].Account? && Derivable(env, es[0].level) {
        DerivesRises(env, es[0].level, k, n);
      }
    }
  }

  /** A permission that was not provided holds exactly when its authority does. */
  lemma DerivableIff(env: Env, l: Level)
    requires !Granted(env, l)
    ensures Derivable(env, l) <==> l in env.authorities && Holds(env, env.authorities[l])
  {
    if Derivable(env, l) {
      var n: nat :| Derives(env, l, n);
      WeightIsEarned(env, All(env.authorities[l]), n - 1);
    }
    if l in env.authorities && Holds(env, env.authorities[l]) {
      var n := EarnedIsWeight(env, All(env.authorities[l]));
      assert Derives(env, l, n + 1);
    }
  }

  // ----- the order does not matter for the total -----

  function Total(w: Entry -> nat, es: seq<Entry>): nat {
    if es == [] then 0 else w(es[0]) + Total(w, es[1..])
  }

  lemma {:induction false} TotalInsert(w: Entry -> nat, v: seq<Entry>, e: Entry)
    ensures Total(w, Insert(v, e)) == Total(w, v) + w(e)
    ensures multiset(Insert(v, e)) == multiset(v) + multiset{e}
  {
    hide Before;
    if v == [] || Before(e, v[0]) {
      assert ([e] + v)[1..] == v;
    } else {
      TotalInsert(w, v[1..], e);
      assert v == [v[0]] + v[1..];
      assert ([v[0]] + Insert(v[1..], e))[1..] == Insert(v[1..], e);
    }
  }

  lemma {:induction false} TotalInsertAll(w: Entry -> nat, v: seq<Entry>, es: seq<Entry>)
    ensures Total(w, InsertAll(v, es)) == Total(w, v) + Total(w, es)
    ensures multiset(InsertAll(v, es)) == multiset(v) + multiset(es)
    decreases |es|
  {
    hide Insert;
    if es != [] {
      TotalInsert(w, v, es[0]);
      TotalInsertAll(w, Insert(v, es[0]), es[1..]);
      assert es == [es[0]] + es[1..];
    }
  }

  lemma {:induction false} TotalAppend(w: Entry -> nat, v: seq<Entry>, es: seq<Entry>)
    ensures Total(w, v + es) == Total(w, v) + Total(w, es)
  {
    if v == [] {
      assert v + es == es;
    } else {
      TotalAppend(w, v[1..], es);
      assert (v + es)[1..] == v[1..] + es;
    }
  }

  lemma OrderedTotal(w: Entry -> nat, a: Authority)
    ensures Total(w, Ordered(a)) == Total(w, All(a))
    ensures multiset(Ordered(a)) == multiset(All(a))
  {
    hide Insert, InsertAll;
    TotalInsertAll(w, [], a.waits);
    var v := InsertAll([], a.waits);
    TotalInsertAll(w, v, a.keys);
    TotalInsertAll(w, InsertAll(v, a.keys), a.accounts);
    TotalAppend(w, a.waits, a.keys);
    TotalAppend(w, a.waits + a.keys, a.accounts);
  }

  lemma {:induction false} SumIsTotal(env: Env, w: Entry -> nat, es: seq<Entry>)
    requires forall e :: w(e) == Earned(env, e)
    ensures Sum(env, es) == Total(w, es)
  {
    hide Earned;
    if es != [] {
      SumIsTotal(env, w, es[1..]);
    }
  }

  lemma {:induction false} WeightIsTotal(env: Env, w: Entry -> nat, es: seq<Entry>, n: nat)
    requires forall e :: w(e) == DerivedOf(env, e, n)
    ensures DerivedWeight(env, es, n) == Total(w, es)
    decreases |es|
  {
    hide DerivedOf;
    if es != [] {
      WeightIsTotal(env, w, es[1..], n);
    }
  }

  lemma SumAppend(env: Env, v: seq<Entry>, es: seq<Entry>)
    ensures Sum(env, v + es) == Sum(env, v) + Sum(env, es)
  {
    hide Earned, Sum, Total;
    var w := e => Earned(env, e);
    SumIsTotal(env, w, v + es);
    SumIsTotal(env, w, v);
    SumIsTotal(env, w, es);
    TotalAppend(w, v, es);
  }

  lemma WeightAppend(env: Env, v: seq<Entry>, es: seq<Entry>, n: nat)
    ensures DerivedWeight(env, v + es, n) == DerivedWeight(env, v, n) + DerivedWeight(env, es, n)
  {
    hide DerivedOf, DerivedWeight, Total;
    var w := e => DerivedOf(env, e, n);
    WeightIsTotal(env, w, v + es, n);
    WeightIsTotal(env, w, v, n);
    WeightIsTotal(env, w, es, n);
    TotalAppend(w, v, es);
  }

  lemma OrderedIsAll(env: Env, a: Authority)
    ensures Sum(env, Ordered(a)) == Sum(env, All(a))
    ensures multiset(Ordered(a)) == multiset(All(a))
    ensures Ordered(a) == [] <==> All(a) == []
  {
    hide Sum, Total, Earned, Ordered, All;
    var w := e => Earned(env, e);
    OrderedTotal(w, a);
    SumIsTotal(env, w, Ordered(a));
    SumIsTotal(env, w, All(a));
    assert |multiset(Ordered(a))| == |Ordered(a)| && |multiset(All(a))| == |All(a)|;
  }

  lemma OrderedWeighs(env: Env, a: Authority, n: nat)
    ensures DerivedWeight(env, Ordered(a), n) == DerivedWeight(env, All(a), n)
  {
    hide DerivedWeight, DerivedOf, Total, Ordered, All;
    var w := e => DerivedOf(env, e, n);
    OrderedTotal(w, a);
    WeightIsTotal(env, w, Ordered(a), n);
    WeightIsTotal(env, w, All(a), n);
  }

  lemma SumOfNone(env: Env)
    ensures Sum(env, []) == 0
  {
  }

  // ----- what a check remembers -----

  /** A cache grows: what it knew stays, and nothing new is left half evaluated. */
  ghost predicate Extends(cache: Cache, cache': Cache) {
    && (forall l :: l in cache ==> l in cache' && cache'[l] == cache[l])
    && (forall l :: l in cache' && l !in cache ==> cache'[l] != Evaluating)
  }

  lemma {:induction false} VisitExtends(env: Env, e: Entry, cache: Cache, used: set<Key>, depth: nat)
    ensures var t := Visit(env, e, cache, used, depth);
            Extends(cache, t.cache) && used <= t.used <= used + env.keys
    decreases Room(env, depth), 0, 0
  {
    hide Check, Ordered;
    if e.Account? && StatusOf(cache, e.level).None? && depth < env.limit && e.level in env.authorities {
      CheckExtends(env, env.authorities[e.level], cache[e.level := Evaluating], used, depth + 1);
    }
  }

  lemma {:induction false} VisitAllExtends(env: Env, es: seq<Entry>, threshold: nat, total: nat, cache: Cache, used: set<Key>, depth: nat)
    ensures var o := VisitAll(env, es, threshold, total, cache, used, depth);
            Extends(cache, o.cache) && used <= o.used <= used + env.keys
    decreases Room(env, depth), 1, |es|
  {
    hide Visit;
    if es != [] {
      VisitExtends(env, es[0], cache, used, depth);
      var t := Visit(env, es[0], cache, used, depth);
      VisitAllExtends(env, es[1..], threshold, total + t.weight, t.cache, t.used, depth);
    }
  }

  /** A check reports only keys that were provided, and a failed one reports none. */
  lemma {:induction false} CheckExtends(env: Env, a: Authority, cache: Cache, used: set<Key>, depth: nat)
    ensures var o := Check(env, a, cache, used, depth);
            && Extends(cache, o.cache) && used <= o.used <= used + env.keys
            && (!o.ok ==> o.used == used)
    decreases Room(env, depth), 2, 0
  {
    hide VisitAll, Ordered;
    VisitAllExtends(env, Ordered(a), a.threshold, 0, cache, used, depth);
  }

  // ----- soundness -----

  /** No authority is stored under the empty permission name. */
  predicate WellFormed(env: Env) {
    forall l :: l in env.authorities ==> l.permission != 0
  }

  ghost predicate CacheOk(env: Env, cache: Cache) {
    && (forall l :: l in env.provided ==> l in cache && cache[l] == Satisfied)
    && (forall l :: l in cache && l.permission == 0 ==> l in env.provided)
    && (forall l :: l in cache && cache[l] == Satisfied ==> Derivable(env, l))
  }

  lemma GrantedIsDerivable(env: Env, l: Level)
    requires Granted(env, l)
    ensures Derivable(env, l)
  {
    assert Derives(env, l, 0);
  }

  lemma StatusIsSound(env: Env, cache: Cache, l: Level)
    requires CacheOk(env, cache)
    ensures StatusOf(cache, l) == Some(Satisfied) ==> Derivable(env, l)
    ensures StatusOf(cache, l) == None ==> !Granted(env, l)
    ensures l !in cache ==> StatusOf(cache, l).None? || StatusOf(cache, l) == Some(Satisfied)
  {
    if Granted(env, l) {
      GrantedIsDerivable(env, l);
    }
  }

  lemma CacheBegins(env: Env, cache: Cache, l: Level)
    requires CacheOk(env, cache) && l !in cache && l.permission != 0
    ensures CacheOk(env, cache[l := Evaluating])
  {
    hide Derivable;
  }

  lemma CacheEnds(env: Env, cache: Cache, l: Level, ok: bool)
    requires CacheOk(env, cache) && l !in env.provided && l.permission != 0 && (ok ==> Derivable(env, l))
    ensures CacheOk(env, cache[l := if ok then Satisfied else Unsatisfied])
  {
    hide Derivable;
  }

  lemma {:induction false} VisitIsSound(env: Env, e: Entry, cache: Cache, used: set<Key>, depth: nat)
    requires WellFormed(env) && CacheOk(env, cache)
    ensures var t := Visit(env, e, cache, used, depth); t.weight <= Earned(env, e) && CacheOk(env, t.cache)
    decreases Room(env, depth), 0, 0
  {
    hide Check, CacheOk, Derivable, Granted, Holds;
    if e.Account? {
      var l := e.level;
      StatusIsSound(env, cache, l);
      if StatusOf(cache, l).None? && depth < env.limit && l in env.authorities {
        CacheBegins(env, cache, l);
        CheckIsSound(env, env.authorities[l], cache[l := Evaluating], used, depth + 1);
        DerivableIff(env, l);
        NotGranted(env, l);
        CacheEnds(env, Check(env, env.authorities[l], cache[l := Evaluating], used, depth + 1).cache, l,
                  Check(env, env.authorities[l], cache[l := Evaluating], used, depth + 1).ok);
      }
    }
  }

  lemma NotGranted(env: Env, l: Level)
    requires !Granted(env, l)
    ensures l !in env.provided
  {
  }

  lemma {:induction false} VisitAllIsSound(env: Env, es: seq<Entry>, threshold: nat, total: nat, cache: Cache, used: set<Key>, depth: nat)
    requires WellFormed(env) && CacheOk(env, cache)
    ensures var o := VisitAll(env, es, threshold, total, cache, used, depth);
            CacheOk(env, o.cache) && (o.ok ==> es != [] && total + Sum(env, es) >= threshold)
    decreases Room(env, depth), 1, |es|
  {
    hide Visit, CacheOk, Earned;
    if es != [] {
      VisitIsSound(env, es[0], cache, used, depth);
      var t := Visit(env, es[0], cache, used, depth);
      VisitAllIsSound(env, es[1..], threshold, total + t.weight, t.cache, t.used, depth);
    }
  }

  /** Whatever the check accepts holds. */
  lemma {:induction false} CheckIsSound(env: Env, a: Authority, cache: Cache, used: set<Key>, depth: nat)
    requires WellFormed(env) && CacheOk(env, cache)
    ensures var o := Check(env, a, cache, used, depth); CacheOk(env, o.cache) && (o.ok ==> Holds(env, a))
    decreases Room(env, depth), 2, 0
  {
    hide VisitAll, CacheOk, Sum, Ordered;
    VisitAllIsSound(env, Ordered(a), a.threshold, 0, cache, used, depth);
    OrderedIsAll(env, a);
  }

  lemma InitialCacheIsOk(env: Env)
    ensures CacheOk(env, InitialCache(env))
  {
    forall l | l in env.provided ensures Derivable(env, l) {
      GrantedIsDerivable(env, l);
    }
  }

  lemma SatisfiedAuthorityHolds(env: Env, a: Authority, used: set<Key>)
    requires WellFormed(env) && SatisfiesAuthority(env, a, used).ok
    ensures Holds(env, a)
  {
    hide Check, Holds, CacheOk;
    InitialCacheIsOk(env);
    CheckIsSound(env, a, InitialCache(env), used, 0);
  }

  // ----- exactness -----

  /** A measure, of a set of permissions closed under what their authorities name, that falls from
      every permission to those its authority names. Permissions that were provided need none. */
  ghost predicate Ranked(env: Env, r: map<Level, nat>) {
    forall l :: l in r && l in env.authorities ==> Below(env, All(env.authorities[l]), r, r[l])
  }

  ghost predicate Below(env: Env, es: seq<Entry>, r: map<Level, nat>, bound: nat) {
    forall e :: e in es ==> EntryBelow(env, e, r, bound)
  }

  ghost predicate EntryBelow(env: Env, e: Entry, r: map<Level, nat>, bound: nat) {
    e.Account? && e.level in env.authorities && !Granted(env, e.level) ==> e.level in r && r[e.level] < bound
  }

  /** The cache is right about everything but the permissions being evaluated, which are above. */
  ghost predicate CacheExact(env: Env, cache: Cache, r: map<Level, nat>, bound: nat) {
    && CacheOk(env, cache)
    && (forall l :: l in cache && cache[l] == Unsatisfied ==> !Derivable(env, l))
    && (forall l :: l in cache && cache[l] == Evaluating ==> l in env.authorities && !Granted(env, l) && l in r && r[l] >= bound)
  }

  lemma StatusIsExact(env: Env, cache: Cache, r: map<Level, nat>, bound: nat, e: Entry)
    requires CacheExact(env, cache, r, bound) && e.Account? && EntryBelow(env, e, r, bound)
    ensures StatusOf(cache, e.level).Some? ==> (StatusOf(cache, e.level).value.Satisfied? <==> Derivable(env, e.level))
  {
    hide Derivable;
    StatusIsSound(env, cache, e.level);
  }

  lemma ExactBegins(env: Env, cache: Cache, r: map<Level, nat>, bound: nat, l: Level)
    requires CacheExact(env, cache, r, bound) && l !in cache && l.permission != 0 && l in env.authorities
    requires !Granted(env, l) && l in r && r[l] < bound
    ensures CacheExact(env, cache[l := Evaluating], r, r[l])
  {
    hide Derivable, CacheOk;
    CacheBegins(env, cache, l);
  }

  lemma ExactEnds(env: Env, cache: Cache, cache': Cache, r: map<Level, nat>, bound: nat, l: Level, ok: bool)
    requires CacheExact(env, cache, r, bound) && l !in cache && l.permission != 0 && l in r
    requires CacheExact(env, cache', r, r[l]) && Extends(cache[l := Evaluating], cache') && (ok <==> Derivable(env, l))
    requires l !in env.provided
    ensures CacheExact(env, cache'[l := if ok then Satisfied else Unsatisfied], r, bound)
  {
    hide Derivable, CacheOk;
    CacheEnds(env, cache', l, ok);
  }

  lemma {:induction false} VisitIsExact(env: Env, e: Entry, cache: Cache, used: set<Key>, depth: nat, r: map<Level, nat>, bound: nat)
    requires WellFormed(env) && Ranked(env, r) && CacheExact(env, cache, r, bound)
    requires EntryBelow(env, e, r, bound) && bound + depth <= env.limit
    ensures var t := Visit(env, e, cache, used, depth); t.weight == Earned(env, e) && CacheExact(env, t.cache, r, bound)
    decreases Room(env, depth), 0, 0
  {
    hide Check, CacheExact, CacheOk, Derivable, Granted, Holds, Extends, Below;
    if e.Account? {
      var l := e.level;
      StatusIsExact(env, cache, r, bound, e);
      if StatusOf(cache, l).None? {
        ExactIsOk(env, cache, r, bound);
        StatusIsSound(env, cache, l);
        DerivableIff(env, l);
        NotGranted(env, l);
        if l in env.authorities {
          var a := env.authorities[l];
          ExactBegins(env, cache, r, bound, l);
          CheckIsExact(env, a, cache[l := Evaluating], used, depth + 1, r, r[l]);
          CheckExtends(env, a, cache[l := Evaluating], used, depth + 1);
          var o := Check(env, a, cache[l := Evaluating], used, depth + 1);
          ExactEnds(env, cache, o.cache, r, bound, l, o.ok);
        }
      }
    }
  }

  lemma ExactIsOk(env: Env, cache: Cache, r: map<Level, nat>, bound: nat)
    requires CacheExact(env, cache, r, bound)
    ensures CacheOk(env, cache)
  {
  }

  lemma {:induction false} VisitAllIsExact(env: Env, es: seq<Entry>, threshold: nat, total: nat, cache: Cache, used: set<Key>,
                                           depth: nat, r: map<Level, nat>, bound: nat)
    requires WellFormed(env) && Ranked(env, r) && CacheExact(env, cache, r, bound)
    requires Below(env, es, r, bound) && bound + depth <= env.limit
    ensures var o := VisitAll(env, es, threshold, total, cache, used, depth);
            CacheExact(env, o.cache, r, bound) && (o.ok <==> es != [] && total + Sum(env, es) >= threshold)
    decreases Room(env, depth), 1, |es|
  {
    hide Visit, CacheExact, Earned, EntryBelow, Ranked;
    if es != [] {
      assert EntryBelow(env, es[0], r, bound);
      VisitIsExact(env, es[0], cache, used, depth, r, bound);
      var t := Visit(env, es[0], cache, used, depth);
      if total + t.weight < threshold {
        VisitAllIsExact(env, es[1..], threshold, total + t.weight, t.cache, t.used, depth, r, bound);
        SumOfNone(env);
      }
    }
  }

  lemma BelowInAnyOrder(env: Env, a: Authority, r: map<Level, nat>, bound: nat)
    requires Below(env, All(a), r, bound)
    ensures Below(env, Ordered(a), r, bound)
  {
    hide EntryBelow, All, Ordered;
    OrderedIsAll(env, a);
    forall e | e in Ordered(a) ensures e in All(a) {
      assert e in multiset(Ordered(a));
    }
  }

  lemma {:induction false} CheckIsExact(env: Env, a: Authority, cache: Cache, used: set<Key>, depth: nat, r: map<Level, nat>, bound: nat)
    requires WellFormed(env) && Ranked(env, r) && CacheExact(env, cache, r, bound)
    requires Below(env, All(a), r, bound) && bound + depth <= env.limit
    ensures var o := Check(env, a, cache, used, depth);
            CacheExact(env, o.cache, r, bound) && (o.ok <==> Holds(env, a))
    decreases Room(env, depth), 2, 0
  {
    hide VisitAll, CacheExact, Sum, Ordered, Below, Ranked;
    BelowInAnyOrder(env, a, r, bound);
    VisitAllIsExact(env, Ordered(a), a.threshold, 0, cache, used, depth, r, bound);
    OrderedIsAll(env, a);
  }

  /** Permissions that do not depend on themselves and are not nested deeper than the limit are
      decided exactly. */
  lemma SatisfiedIffHolds(env: Env, a: Authority, used: set<Key>, r: map<Level, nat>)
    requires WellFormed(env) && Ranked(env, r) && Below(env, All(a), r, env.limit)
    ensures SatisfiesAuthority(env, a, used).ok <==> Holds(env, a)
  {
    hide Check, Holds, CacheOk, Ranked, Below;
    InitialCacheIsOk(env);
    InitialCacheIsExact(env, r);
    CheckIsExact(env, a, InitialCache(env), used, 0, r, env.limit);
  }

  lemma InitialCacheIsExact(env: Env, r: map<Level, nat>)
    requires CacheOk(env, InitialCache(env))
    ensures CacheExact(env, InitialCache(env), r, env.limit)
  {
    hide CacheOk;
  }

  // ----- more keys never hurt -----

  ghost predicate Weaker(env: Env, env': Env) {
    && env'.authorities == env.authorities && env.keys <= env'.keys
    && env.provided <= env'.provided && env.delay <= env'.delay
  }

  lemma {:induction false} DerivesMore(env: Env, env': Env, l: Level, n: nat)
    requires Weaker(env, env') && Derives(env, l, n)
    ensures Derives(env', l, n)
    decreases n, 1, 0
  {
    if !Granted(env, l) {
      WeighsMore(env, env', All(env.authorities[l]), n - 1);
    }
  }

  lemma {:induction false} WeighsMore(env: Env, env': Env, es: seq<Entry>, n: nat)
    requires Weaker(env, env')
    ensures DerivedWeight(env, es, n) <= DerivedWeight(env', es, n)
    decreases n, 2, |es|
  {
    if es != [] {
      if es[0].Account? && Derives(env, es[0].level, n) {
        DerivesMore(env, env', es[0].level, n);
      }
      WeighsMore(env, env', es[1..], n);
    }
  }

  lemma EarnsMore(env: Env, env': Env, e: Entry)
    requires Weaker(env, env')
    ensures Earned(env, e) <= Earned(env', e)
  {
    if e.Account? && Derivable(env, e.level) {
      var n: nat :| Derives(env, e.level, n);
      DerivesMore(env, env', e.level, n);
    }
  }

  lemma {:induction false} SumsToMore(env: Env, env': Env, es: seq<Entry>)
    requires Weaker(env, env')
    ensures Sum(env, es) <= Sum(env', es)
  {
    hide Earned, Weaker;
    if es != [] {
      EarnsMore(env, env', es[0]);
      SumsToMore(env, env', es[1..]);
    }
  }

  /** Where a check is exact, whatever was accepted with fewer keys, fewer provided permissions or a
      shorter delay, at any depth limit, is accepted. */
  lemma SatisfiedStaysSatisfied(env: Env, env': Env, a: Authority, r: map<Level, nat>)
    requires WellFormed(env) && Weaker(env, env')
    requires Ranked(env', r) && Below(env', All(a), r, env'.limit)
    ensures SatisfiesAuthority(env, a, {}).ok ==> SatisfiesAuthority(env', a, {}).ok
  {
    hide SatisfiesAuthority, Sum, Below, Ranked;
    SatisfiedIffHolds(env', a, {}, r);
    SumsToMore(env, env', All(a));
    if SatisfiesAuthority(env, a, {}).ok {
      SatisfiedAuthorityHolds(env, a, {});
    }
  }

  /** A wait counts from the delay of that many seconds on; delays are in microseconds. */
  lemma WaitIsMet(env: Env, seconds: nat, weight: nat, threshold: nat, used: set<Key>)
    ensures var a := Authority(threshold, [Wait(seconds, weight)], [], []);
            SatisfiesAuthority(env, a, used).ok <==> (if env.delay >= seconds * 1_000_000 then weight else 0) >= threshold
  {
    var e := Wait(seconds, weight);
    assert Insert([], e) == [e];
    assert [e][1..] == [];
    assert InsertAll([], [e]) == InsertAll([e], []) == [e];
    assert Ordered(Authority(threshold, [e], [], [])) == [e];
    assert VisitAll(env, [e], threshold, 0, InitialCache(env), used, 0).ok <==> Visit(env, e, InitialCache(env), used, 0).weight >= threshold;
  }
}
