/** Utils.cs: content defaults, the resource cache, `Yield`, the delayed-call
    scheduler and colour blending. */
module Utils {
  import opened Base

  /** GUIContent as built by `CreateContent`; `image` is the name of the built-in
      icon the editor is asked for, when there is one. */
  datatype Content = Content(text: string, image: Option<string>, tooltip: string)

  /** A null or empty string argument (`string.IsNullOrEmpty`). */
  predicate NullOrEmpty(s: Option<string>)
  {
    s.None? || s.value == ""
  }

  function CreateContent(text: Option<string>, image: Option<string>, tooltip: Option<string>): (r: Content)
    ensures r.text == (if NullOrEmpty(text) then "" else text.value)
    ensures r.tooltip == (if NullOrEmpty(tooltip) then "" else tooltip.value)
    ensures r.image.None? <==> NullOrEmpty(image)
    ensures r.image.Some? ==> r.image == image
  {
    Content(
      if NullOrEmpty(text) then "" else text.value,
      if NullOrEmpty(image) then Option.None else image,
      if NullOrEmpty(tooltip) then "" else tooltip.value)
  }

  /** `Yield`: the item as a one-element sequence. */
  function Yield<T>(item: T): (r: seq<T>)
    ensures |r| == 1 && r[0] == item
  {
    [item]
  }

  /** The result of a dictionary-backed cache lookup: the value, the cache
      afterwards, and whether the producer had to be called. */
  datatype Cached<K, V> = Cached(value: V, cache: map<K, V>, produced: bool)

  /** The memoising lookup used for the resource cache and the project view's
      tables: a hit returns the stored value (whatever it is) and leaves the cache
      alone; a miss calls the producer once and stores its result. */
  function CacheGet<K, V>(cache: map<K, V>, key: K, produce: K -> V): (r: Cached<K, V>)
    ensures r.produced <==> key !in cache
    ensures key in cache ==> r.value == cache[key] && r.cache == cache
    ensures key !in cache ==> r.value == produce(key) && r.cache == cache[key := r.value]
    ensures key in r.cache && r.cache[key] == r.value
  {
    if key in cache then Cached(cache[key], cache, false)
    else Cached(produce(key), cache[key := produce(key)], true)
  }

  /** Once a key has been looked up, every later lookup returns the same value
      without calling any producer, whichever producer it is given. */
  lemma CacheGetIsSticky<K, V>(cache: map<K, V>, key: K, first: K -> V, later: K -> V)
    ensures var r1 := CacheGet(cache, key, first);
            var r2 := CacheGet(r1.cache, key, later);
            r2.value == r1.value && !r2.produced && r2.cache == r1.cache
  {
  }

  /** Every stored value is what `produce` gives for its key. */
  ghost predicate Agrees<K, V>(cache: map<K, V>, produce: K -> V)
  {
    forall k :: k in cache ==> cache[k] == produce(k)
  }

  /** A cache that agrees with its producer answers as the producer would, and
      keeps agreeing after the lookup. */
  lemma CacheGetAgrees<K, V>(cache: map<K, V>, key: K, produce: K -> V)
    requires Agrees(cache, produce)
    ensures CacheGet(cache, key, produce).value == produce(key)
    ensures Agrees(CacheGet(cache, key, produce).cache, produce)
  {
  }

  /** `GetResource`: the built-in icon cache. `lookup` stands for the editor's
      `EditorGUIUtility.IconContent(name).image`. */
  class ResourceCache {
    var cache: map<string, Option<Texture>>

    constructor()
      ensures cache == map[]
    {
      cache := map[];
    }

    method GetResource(resource: string, lookup: string -> Option<Texture>) returns (icon: Option<Texture>, looked: bool)
      modifies this
      ensures looked <==> resource !in old(cache)
      ensures resource in old(cache) ==> icon == old(cache)[resource] && cache == old(cache)
      ensures resource !in old(cache) ==> icon == lookup(resource) && cache == old(cache)[resource := icon]
    {
      var r := CacheGet(cache, resource, lookup);
      icon, looked, cache := r.value, r.produced, r.cache;
    }
  }

  /** ColorBlend.Mode. */
  datatype BlendMode = None | Override | Multiple

  /** `ColorBlend.Blend(a, b, mode)`: `a` is the layer colour, `b` the tint. */
  function Blend(a: Color, b: Color, mode: BlendMode): (r: Color)
    ensures mode == BlendMode.None ==> r == a
    ensures mode == Override ==> r == b
    ensures mode == Multiple ==> r == Mul(a, b)
    // a white tint is neutral except under Override, where it replaces the colour
    ensures b == White ==> r == (if mode == Override then White else a)
  {
    match mode
    case Override => b
    case Multiple => Mul(a, b)
    case None => a
  }

  /** A callback handed to `DelayedCall`; only its identity matters. */
  datatype Action = Action(id: nat)

  /** A pending call: its action and its deadline in editor seconds. */
  type Entry = (Action, real)

  /** The entries a check at `now` keeps: those not yet due, in their order. */
  function Pending(es: seq<Entry>, now: real): (r: seq<Entry>)
    ensures |r| <= |es|
  {
    if |es| == 0 then []
    else (if now < es[0].1 then [es[0]] else []) + Pending(es[1..], now)
  }

  /** The actions a check at `now` fires: the due ones, from the last entry to the first. */
  function Fired(es: seq<Entry>, now: real): (r: seq<Action>)
    ensures |r| <= |es|
  {
    if |es| == 0 then []
    else Fired(es[1..], now) + (if now < es[0].1 then [] else [es[0].0])
  }

  /** A check splits the entries exactly: every entry is either kept or fired,
      and every entry that is due is fired. */
  lemma {:induction false} PendingAndFiredPartition(es: seq<Entry>, now: real)
    ensures |Pending(es, now)| + |Fired(es, now)| == |es|
    ensures forall i :: 0 <= i < |es| && es[i].1 <= now ==> es[i].0 in Fired(es, now)
  {
    if |es| > 0 {
      PendingAndFiredPartition(es[1..], now);
      assert forall i :: 1 <= i < |es| ==> es[i] == es[1..][i - 1];
    }
  }

  /** A check keeps exactly the entries that are not yet due. */
  lemma {:induction false} PendingKeepsNotDue(es: seq<Entry>, now: real)
    ensures forall e :: e in Pending(es, now) <==> e in es && now < e.1
  {
    if |es| > 0 {
      PendingKeepsNotDue(es[1..], now);
      assert es == [es[0]] + es[1..];
    }
  }

  /** Every fired action was due at `now`. */
  lemma {:induction false} FiredAreDue(es: seq<Entry>, now: real, a: Action)
    requires a in Fired(es, now)
    ensures exists i :: 0 <= i < |es| && es[i].0 == a && es[i].1 <= now
  {
    if |es| > 0 {
      if a in Fired(es[1..], now) {
        FiredAreDue(es[1..], now, a);
        var i :| 0 <= i < |es[1..]| && es[1..][i].0 == a && es[1..][i].1 <= now;
        assert es[i + 1] == es[1..][i];
      } else {
        assert es[0].0 == a && es[0].1 <= now;
      }
    }
  }

  /** One step of a check that walks the entries from index `i` on. */
  lemma PendingFiredStep(es: seq<Entry>, i: nat, now: real)
    requires i < |es|
    ensures Pending(es[i..], now) == (if now < es[i].1 then [es[i]] else []) + Pending(es[i + 1..], now)
    ensures Fired(es[i..], now) == Fired(es[i + 1..], now) + (if now < es[i].1 then [] else [es[i].0])
  {
    assert es[i..][1..] == es[i + 1..];
  }

  /** An iteration of `CheckDelayedCall` at index `i`, on the two lists `a` and `t`
      whose pairs are the untouched prefix of `es` followed by what the check has
      kept so far, reads the i-th entry of `es` and fires it if it is due. */
  lemma CheckStep(a: seq<Action>, t: seq<real>, es: seq<Entry>, i: nat, now: real)
    requires |a| == |t| && i < |es|
    requires Zip(a, t) == es[..i + 1] + Pending(es[i + 1..], now)
    ensures i < |a| && a[i] == es[i].0 && t[i] == es[i].1
    ensures Fired(es[i..], now) == Fired(es[i + 1..], now) + (if now < t[i] then [] else [a[i]])
  {
    PendingFiredStep(es, i, now);
    assert Zip(a, t)[i] == es[..i + 1][i];
  }

  /** An entry that is not due stays where it is. */
  lemma CheckKeep(z: seq<Entry>, es: seq<Entry>, i: nat, now: real)
    requires i < |es| && now < es[i].1
    requires z == es[..i + 1] + Pending(es[i + 1..], now)
    ensures z == es[..i] + Pending(es[i..], now)
  {
    PendingFiredStep(es, i, now);
    assert es[..i + 1] == es[..i] + [es[i]];
  }

  /** A due entry is removed from both lists. */
  lemma CheckDrop(a: seq<Action>, t: seq<real>, es: seq<Entry>, i: nat, now: real)
    requires |a| == |t| && i < |es| && i < |a| && es[i].1 <= now
    requires Zip(a, t) == es[..i + 1] + Pending(es[i + 1..], now)
    ensures Zip(a[..i] + a[i + 1..], t[..i] + t[i + 1..]) == es[..i] + Pending(es[i..], now)
  {
    PendingFiredStep(es, i, now);
    ZipRemoveAt(a, t, i);
    var z := Zip(a, t);
    var head, rest := es[..i + 1], Pending(es[i + 1..], now);
    assert Pending(es[i..], now) == rest;
    assert z[..i] == es[..i] by {
      assert z == head + rest && |head| == i + 1;
      assert z[..i] == head[..i];
    }
    assert z[i + 1..] == rest by {
      assert z == head + rest && |head| == i + 1;
    }
  }

  /** The pairs of two lists of equal length. */
  function Zip(a: seq<Action>, b: seq<real>): (r: seq<Entry>)
    requires |a| == |b|
    ensures |r| == |a| && forall i :: 0 <= i < |a| ==> r[i] == (a[i], b[i])
  {
    seq(|a|, i requires 0 <= i < |a| => (a[i], b[i]))
  }

  /** `RemoveAt(i)` on both lists removes the i-th pair. */
  lemma ZipRemoveAt(a: seq<Action>, b: seq<real>, i: nat)
    requires |a| == |b| && i < |a|
    ensures Zip(a[..i] + a[i + 1..], b[..i] + b[i + 1..]) == Zip(a, b)[..i] + Zip(a, b)[i + 1..]
  {
  }

  /** The two parallel lists `s_DelayedAction` / `s_DelayedTime` and the number of
      times `CheckDelayedCall` is subscribed to `EditorApplication.update`. */
  class Scheduler {
    var actions: seq<Action>
    var times: seq<real>
    var hooks: nat

    ghost predicate Valid()
      reads this
    {
      |actions| == |times| && hooks == (if |actions| == 0 then 0 else 1)
    }

    /** The pending calls, read from the two parallel lists. */
    function Entries(): (r: seq<Entry>)
      reads this
      requires |actions| == |times|
    {
      Zip(actions, times)
    }

    constructor()
      ensures Valid() && actions == [] && times == [] && hooks == 0
    {
      actions, times, hooks := [], [], 0;
    }

    /** `DelayedCall(seconds, action)` at editor time `now`. */
    method DelayedCall(seconds: real, action: Action, now: real)
      requires Valid()
      modifies this
      ensures Valid()
      ensures Entries() == old(Entries()) + [(action, now + seconds)]
      ensures hooks == (if old(|actions|) == 0 then old(hooks) + 1 else old(hooks))
    {
      if |actions| == 0 {
        hooks := hooks + 1;
      }
      actions := actions + [action];
      times := times + [now + seconds];
    }

    /** `CheckDelayedCall` at editor time `now`: returns the actions it invokes, in
        the order it invokes them. */
    method CheckDelayedCall(now: real) returns (fired: seq<Action>)
      requires Valid()
      modifies this
      ensures Valid()
      ensures Entries() == Pending(old(Entries()), now)
      ensures fired == Fired(old(Entries()), now)
    {
      ghost var es := Entries();
      fired := [];
      var i := |times|;
      while i > 0
        invariant 0 <= i <= |es|
        invariant |actions| == |times| && hooks == old(hooks)
        invariant Zip(actions, times) == es[..i] + Pending(es[i..], now)
        invariant fired == Fired(es[i..], now)
      {
        i := i - 1;
        CheckStep(actions, times, es, i, now);
        if now < times[i] {
          CheckKeep(Zip(actions, times), es, i, now);
          continue;
        }
        CheckDrop(actions, times, es, i, now);
        fired := fired + [actions[i]];
        times := times[..i] + times[i + 1..];
        actions := actions[..i] + actions[i + 1..];
      }
      if |actions| == 0 && hooks > 0 {
        hooks := hooks - 1;
      }
    }
  }
}
