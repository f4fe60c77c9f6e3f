/** The checker as an object: it marks keys as used and permissions as evaluated while it visits
    the entries, and has exactly the effect of `Authority.Check`; and the validation of
    authorities before they are stored. */
module AuthorityChecker {
  import opened Authority
  import AuthorityTree

  class Checker {
    const authorities: map<Level, Authority>
    const providedKeys: set<Key>
    const providedPermissions: set<Level>
    const depthLimit: nat
    var providedDelay: nat
    var usedKeys: set<Key>
    var cache: Cache

    function Given(): Env
      reads this`providedDelay
    {
      Env(authorities, providedKeys, providedPermissions, providedDelay, depthLimit)
    }

    constructor (authorities: map<Level, Authority>, depthLimit: nat, keys: set<Key>, permissions: set<Level>, delay: nat)
      ensures Given() == Env(authorities, keys, permissions, delay, depthLimit)
      ensures usedKeys == {}
    {
      this.authorities, this.depthLimit := authorities, depthLimit;
      providedKeys, providedPermissions, providedDelay := keys, permissions, delay;
      usedKeys, cache := {}, map[];
    }

    /** The visitor: the weight one entry adds. */
    method Weigh(e: Entry, depth: nat) returns (weight: nat)
      modifies this`usedKeys, this`cache
      ensures Tally(weight, cache, usedKeys) == Visit(Given(), e, old(cache), old(usedKeys), depth)
      decreases Room(Given(), depth), 0
    {
      hide Check;
      weight := 0;
      match e
      case Wait(seconds, w) =>
        if providedDelay >= seconds * SECOND {
          weight := w;
        }
      case KeyEntry(key, w) =>
        if key in providedKeys {
          usedKeys := usedKeys + {key};
          weight := w;
        }
      case Account(l, w) =>
        var status := StatusOf(cache, l);
        if status.None? {
          if depth < depthLimit && l in authorities {
            cache := cache[l := Evaluating];
            var ok := Evaluate(authorities[l], depth + 1);
            if ok {
              weight := w;
              cache := cache[l := Satisfied];
            } else {
              cache := cache[l := Unsatisfied];
            }
          }
        } else if status.value == Satisfied {
          weight := w;
        }
    }

    /** `satisfied` at some depth: the entries from the heaviest on. */
    method Evaluate(a: Authority, depth: nat) returns (ok: bool)
      modifies this`usedKeys, this`cache
      ensures Outcome(ok, cache, usedKeys) == Check(Given(), a, old(cache), old(usedKeys), depth)
      decreases Room(Given(), depth), 1
    {
      hide Visit, Ordered;
      var saved := usedKeys;
      var permissions := Ordered(a);
      var total: nat := 0;
      for i := 0 to |permissions|
        invariant VisitAll(Given(), permissions, a.threshold, 0, old(cache), old(usedKeys), depth) ==
                    VisitAll(Given(), permissions[i..], a.threshold, total, cache, usedKeys, depth)
      {
        assert permissions[i..][1..] == permissions[i + 1..];
        var w := Weigh(permissions[i], depth);
        total := total + w;
        if total >= a.threshold {
          return true;
        }
      }
      usedKeys := saved;
      ok := false;
    }

    method Begin()
      modifies this`cache
      ensures cache == InitialCache(Given())
    {
      cache := map l | l in providedPermissions :: Satisfied;
    }

    method SatisfiedBy(a: Authority) returns (ok: bool)
      modifies this`usedKeys, this`cache
      ensures Outcome(ok, cache, usedKeys) == SatisfiesAuthority(Given(), a, old(usedKeys))
    {
      hide Check;
      Begin();
      ok := Evaluate(a, 0);
    }

    method SatisfiedByPermission(l: Level) returns (ok: bool)
      modifies this`usedKeys, this`cache
      ensures Outcome(ok, cache, usedKeys) == SatisfiesPermission(Given(), l, old(usedKeys))
    {
      hide Visit;
      Begin();
      var weight := Weigh(Account(l, 1), 0);
      ok := weight > 0;
    }

    /** The same with another delay for this one check. */
    method SatisfiedWithDelay(a: Authority, delay: nat) returns (ok: bool)
      modifies this
      ensures Outcome(ok, cache, usedKeys) == SatisfiesAuthority(old(Given()).(delay := delay), a, old(usedKeys))
      ensures Given() == old(Given())
    {
      hide Check;
      var saved := providedDelay;
      providedDelay := delay;
      ok := SatisfiedBy(a);
      providedDelay := saved;
    }
  }

  // ----- validation -----

  predicate Earlier(l: Level, m: Level) {
    l.actor < m.actor || (l.actor == m.actor && l.permission < m.permission)
  }

  /** The fields hold what their types say: 16-bit weights and a 32-bit threshold. */
  predicate Typed(a: Authority) {
    && a.threshold < 0x1_0000_0000
    && (forall e :: e in a.waits ==> e.Wait? && e.weight < 0x1_0000)
    && (forall e :: e in a.keys ==> e.KeyEntry? && e.weight < 0x1_0000)
    && (forall e :: e in a.accounts ==> e.Account? && e.weight < 0x1_0000)
  }

  /** No entry is named twice, and the entries are in ascending order. */
  ghost predicate Sorted(a: Authority)
    requires Typed(a)
  {
    && (forall i, j :: 0 <= i < j < |a.keys| ==> a.keys[i].key < a.keys[j].key)
    && (forall i, j :: 0 <= i < j < |a.accounts| ==>
          var l, m := a.accounts[i].level, a.accounts[j].level;
          l.actor < m.actor || (l.actor == m.actor && l.permission < m.permission))
    && (forall i, j :: 0 <= i < j < |a.waits| ==> a.waits[i].seconds < a.waits[j].seconds)
    && (forall i :: 0 <= i < |a.waits| ==> a.waits[i].seconds > 0)
  }

  function Weights(es: seq<Entry>): nat {
    if es == [] then 0 else Weights(es[..|es| - 1]) + es[|es| - 1].weight
  }

  ghost predicate IsValid(a: Authority)
    requires Typed(a)
  {
    && |All(a)| <= 0x1_0000 && a.threshold != 0 && Sorted(a)
    && Weights(a.keys) + Weights(a.accounts) + Weights(a.waits) >= a.threshold
  }

  function UInt32(x: nat): nat {
    x % 0x1_0000_0000
  }

  /** Sums of 16-bit weights of that many entries do not overflow. */
  lemma {:induction false} WeightsFit(es: seq<Entry>)
    requires forall e :: e in es ==> e.weight < 0x1_0000
    ensures Weights(es) <= |es| * 0xFFFF
  {
    if es != [] {
      WeightsFit(es[..|es| - 1]);
    }
  }

  lemma {:induction false} WeightsOfPart(es: seq<Entry>, i: nat)
    requires i <= |es|
    ensures Weights(es[..i]) <= Weights(es)
  {
    if i == |es| {
      assert es[..i] == es;
    } else {
      WeightsOfPart(es[..|es| - 1], i);
      assert es[..|es| - 1][..i] == es[..i];
    }
  }

  lemma WeightsOneMore(es: seq<Entry>, i: nat)
    requires i < |es|
    ensures Weights(es[..i + 1]) == Weights(es[..i]) + es[i].weight && Weights(es[..i + 1]) <= Weights(es)
  {
    assert es[..i + 1][..i] == es[..i];
    WeightsOfPart(es, i + 1);
  }

  lemma TotalFits(a: Authority)
    requires Typed(a) && |All(a)| <= 0x1_0000
    ensures Weights(a.keys) + Weights(a.accounts) + Weights(a.waits) < 0x1_0000_0000
  {
    WeightsFit(a.keys);
    WeightsFit(a.accounts);
    WeightsFit(a.waits);
  }

  /** Adds the weights of one list, in 32 bits. */
  method AddWeights(es: seq<Entry>, total: nat) returns (r: nat)
    requires total + Weights(es) < 0x1_0000_0000
    ensures r == total + Weights(es)
  {
    r := total;
    for i := 0 to |es|
      invariant r == total + Weights(es[..i])
    {
      WeightsOneMore(es, i);
      r := UInt32(r + es[i].weight);
    }
    assert es[..|es|] == es;
  }

  /** `validate`. */
  method Validate(a: Authority) returns (ok: bool)
    requires Typed(a)
    ensures ok <==> IsValid(a)
  {
    hide Weights;
    if |a.keys| + |a.accounts| + |a.waits| > 0x1_0000 || a.threshold == 0 {
      return false;
    }
    for i := 0 to |a.keys|
      invariant forall k, l :: 0 <= k < l < i ==> a.keys[k].key < a.keys[l].key
    {
      if i > 0 && a.keys[i - 1].key >= a.keys[i].key {
        return false;
      }
    }
    for i := 0 to |a.accounts|
      invariant forall k, l :: 0 <= k < l < i ==> Earlier(a.accounts[k].level, a.accounts[l].level)
    {
      if i > 0 && !Earlier(a.accounts[i - 1].level, a.accounts[i].level) {
        return false;
      }
    }
    if |a.waits| > 0 && a.waits[0].seconds == 0 {
      return false;
    }
    for i := 0 to |a.waits|
      invariant forall k, l :: 0 <= k < l < i ==> a.waits[k].seconds < a.waits[l].seconds
      invariant forall k :: 0 <= k < i ==> a.waits[k].seconds > 0
    {
      if i > 0 && a.waits[i - 1].seconds >= a.waits[i].seconds {
        return false;
      }
    }
    TotalFits(a);
    var total := AddWeights(a.keys, 0);
    total := AddWeights(a.accounts, total);
    total := AddWeights(a.waits, total);
    ok := total >= a.threshold;
  }

  lemma {:induction false} EarnsEverything(env: Env, es: seq<Entry>)
    requires forall e :: e in es ==> Earned(env, e) == e.weight
    ensures Sum(env, es) == Weights(es)
  {
    hide Earned;
    if es != [] {
      var n := |es| - 1;
      EarnsEverything(env, es[..n]);
      SumAppend(env, es[..n], es[n..]);
      assert es == es[..n] + es[n..] && es[n..][1..] == [];
    }
  }

  /** Validation accepts an authority that is in order exactly when all its entries together
      satisfy it. */
  lemma ValidIffSatisfiable(env: Env, a: Authority)
    requires Typed(a) && forall e :: e in All(a) ==> Earned(env, e) == e.weight
    ensures IsValid(a) <==> |All(a)| <= 0x1_0000 && Sorted(a) && a.threshold != 0 && Holds(env, a)
  {
    hide Earned, Sum, Weights, Sorted;
    EarnsEverything(env, a.keys);
    EarnsEverything(env, a.accounts);
    EarnsEverything(env, a.waits);
    SumAppend(env, a.waits, a.keys);
    SumAppend(env, a.waits + a.keys, a.accounts);
    SumOfNone(env);
  }

  /** A valid authority is accepted when everything it names is there. */
  lemma ValidAuthorityIsSatisfied(env: Env, a: Authority, r: map<Level, nat>)
    requires WellFormed(env) && Ranked(env, r) && Below(env, All(a), r, env.limit)
    requires Typed(a) && IsValid(a) && forall e :: e in All(a) ==> Earned(env, e) == e.weight
    ensures SatisfiesAuthority(env, a, {}).ok
  {
    hide Earned, IsValid, Holds, SatisfiesAuthority, Ranked, Below;
    ValidIffSatisfiable(env, a);
    SatisfiedIffHolds(env, a, {}, r);
  }

  lemma {:induction false} WeighsEverything(env: Env, es: seq<Entry>, n: nat)
    requires forall e :: e in es ==> DerivedOf(env, e, n) == e.weight
    ensures DerivedWeight(env, es, n) == Weights(es)
    decreases |es|
  {
    hide DerivedOf;
    if es != [] {
      var k := |es| - 1;
      WeighsEverything(env, es[..k], n);
      WeightAppend(env, es[..k], es[k..], n);
      assert es == es[..k] + es[k..] && es[k..][1..] == [];
    }
  }

  /** The same at every depth limit, where no permission is reached twice and everything has a
      derivation within the limit. */
  lemma ValidTreeIsSatisfied(env: Env, a: Authority)
    requires WellFormed(env) && AuthorityTree.IsTree(env, a)
    requires Typed(a) && IsValid(a) && forall e :: e in All(a) ==> DerivedOf(env, e, env.limit) == e.weight
    ensures SatisfiesAuthority(env, a, {}).ok
  {
    hide DerivedOf, DerivedWeight, Weights, Sorted, SatisfiesAuthority, AuthorityTree.IsTree;
    var n := env.limit;
    WeighsEverything(env, a.keys, n);
    WeighsEverything(env, a.accounts, n);
    WeighsEverything(env, a.waits, n);
    WeightAppend(env, a.waits, a.keys, n);
    WeightAppend(env, a.waits + a.keys, a.accounts, n);
    NothingWeighs(env, n);
    AuthorityTree.SatisfiedIffDerived(env, a, {});
  }

  lemma NothingWeighs(env: Env, n: nat)
    ensures DerivedWeight(env, [], n) == 0
  {
  }
}
