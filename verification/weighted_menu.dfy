/**
 * Action menus are assembled as lists of (element, weight) pairs and then
 * ordered with `Array.prototype.sort` on the weight. That sort is stable, so
 * items of equal weight keep the order in which they were pushed. The
 * stable sort is modelled as insertion of each pushed item after every
 * already-placed item of weight at most its own.
 */
module WeightedMenu {

  datatype Weighted<T> = Weighted(item: T, weight: int)

  /** A menu entry: a built-in item with its disabled flag, or the plugin item at an index. */
  datatype MenuEntry<A> = BuiltIn(action: A, disabled: bool) | PluginItem(index: nat)

  predicate SortedByWeight<T>(s: seq<Weighted<T>>)
  {
    forall i, j :: 0 <= i < j < |s| ==> s[i].weight <= s[j].weight
  }

  /** Every item of `s` weighs at most `w`. */
  predicate WeightsAtMost<T>(s: seq<Weighted<T>>, w: int)
  {
    forall i :: 0 <= i < |s| ==> s[i].weight <= w
  }

  /** `if (cond) items.push(x)`. */
  function PushIf<T>(s: seq<Weighted<T>>, cond: bool, x: Weighted<T>): seq<Weighted<T>>
  {
    if cond then s + [x] else s
  }

  /** Pushing an item no lighter than every item already pushed keeps the list sorted. */
  lemma PushIfSorted<T>(s: seq<Weighted<T>>, cond: bool, x: Weighted<T>)
    requires SortedByWeight(s) && WeightsAtMost(s, x.weight)
    ensures SortedByWeight(PushIf(s, cond, x)) && WeightsAtMost(PushIf(s, cond, x), x.weight)
  {
  }

  /** The items of weight `w`, in their order in `s`. */
  function ItemsOfWeight<T>(s: seq<Weighted<T>>, w: int): seq<Weighted<T>>
  {
    if |s| == 0 then []
    else ItemsOfWeight(s[..|s| - 1], w) + (if s[|s| - 1].weight == w then [s[|s| - 1]] else [])
  }

  /** Place `x` after the last item of `t` whose weight is at most `x.weight`. */
  function InsertByWeight<T>(t: seq<Weighted<T>>, x: Weighted<T>): seq<Weighted<T>>
  {
    if |t| == 0 then [x]
    else if t[|t| - 1].weight <= x.weight then t + [x]
    else InsertByWeight(t[..|t| - 1], x) + [t[|t| - 1]]
  }

  lemma {:induction false} InsertByWeightSorted<T>(t: seq<Weighted<T>>, x: Weighted<T>)
    requires SortedByWeight(t)
    ensures SortedByWeight(InsertByWeight(t, x))
    ensures |InsertByWeight(t, x)| == |t| + 1
    ensures forall k :: 0 <= k < |InsertByWeight(t, x)| ==>
      InsertByWeight(t, x)[k] == x || InsertByWeight(t, x)[k] in t
    decreases |t|
  {
    if |t| > 0 && t[|t| - 1].weight > x.weight {
      var init := t[..|t| - 1];
      InsertByWeightSorted(init, x);
      var r := InsertByWeight(init, x);
      forall k | 0 <= k < |r| ensures r[k].weight <= t[|t| - 1].weight {
        if r[k] != x {
          assert r[k] in init;
        }
      }
      forall k | 0 <= k < |r| ensures r[k] == x || r[k] in t {
        if r[k] != x {
          assert r[k] in init;
        }
      }
    }
  }

  lemma {:induction false} InsertByWeightMultiset<T>(t: seq<Weighted<T>>, x: Weighted<T>)
    ensures multiset(InsertByWeight(t, x)) == multiset(t) + multiset{x}
    decreases |t|
  {
    if |t| > 0 && t[|t| - 1].weight > x.weight {
      var init := t[..|t| - 1];
      InsertByWeightMultiset(init, x);
      assert t == init + [t[|t| - 1]];
    }
  }

  lemma {:induction false} InsertByWeightItems<T>(t: seq<Weighted<T>>, x: Weighted<T>, w: int)
    ensures ItemsOfWeight(InsertByWeight(t, x), w)
      == ItemsOfWeight(t, w) + (if x.weight == w then [x] else [])
    decreases |t|
  {
    if |t| == 0 {
      assert [x][..0] == [];
    } else if t[|t| - 1].weight <= x.weight {
      assert (t + [x])[..|t|] == t;
    } else {
      var init := t[..|t| - 1];
      var last := t[|t| - 1];
      InsertByWeightItems(init, x, w);
      var r := InsertByWeight(init, x);
      assert (r + [last])[..|r|] == r;
    }
  }

  /**
   * `items.sort((a, b) => a.weight - b.weight)`: a stable sort by weight.
   * The result is in ascending weight and holds exactly the pushed items.
   */
  function SortByWeight<T>(s: seq<Weighted<T>>): (r: seq<Weighted<T>>)
    ensures SortedByWeight(r) && |r| == |s|
    ensures multiset(r) == multiset(s)
  {
    if |s| == 0 then []
    else
      var init := SortByWeight(s[..|s| - 1]);
      InsertByWeightSorted(init, s[|s| - 1]);
      InsertByWeightMultiset(init, s[|s| - 1]);
      assert s == s[..|s| - 1] + [s[|s| - 1]];
      InsertByWeight(init, s[|s| - 1])
  }

  /** Stability: items of equal weight keep their push order. */
  lemma {:induction false} SortByWeightStable<T>(s: seq<Weighted<T>>, w: int)
    ensures ItemsOfWeight(SortByWeight(s), w) == ItemsOfWeight(s, w)
  {
    if |s| > 0 {
      SortByWeightStable(s[..|s| - 1], w);
      InsertByWeightItems(SortByWeight(s[..|s| - 1]), s[|s| - 1], w);
    }
  }

  /** A list pushed already in weight order comes out of the sort unchanged. */
  lemma {:induction false} SortByWeightOfSorted<T>(s: seq<Weighted<T>>)
    requires SortedByWeight(s)
    ensures SortByWeight(s) == s
  {
    if |s| > 0 {
      var init := s[..|s| - 1];
      SortByWeightOfSorted(init);
      if |init| > 0 {
        assert init[|init| - 1].weight <= s[|s| - 1].weight;
      }
      assert s == init + [s[|s| - 1]];
    }
  }

  /** The plugin items with their weights, in registration order. */
  function PluginItems<A>(weights: seq<int>): (items: seq<Weighted<MenuEntry<A>>>)
    ensures |items| == |weights|
    ensures forall i :: 0 <= i < |weights| ==> items[i] == Weighted(PluginItem(i), weights[i])
  {
    seq(|weights|, i requires 0 <= i < |weights| => Weighted(PluginItem(i), weights[i]))
  }

  lemma {:induction false} ItemsOfWeightAppend<T>(a: seq<Weighted<T>>, b: seq<Weighted<T>>, w: int)
    ensures ItemsOfWeight(a + b, w) == ItemsOfWeight(a, w) + ItemsOfWeight(b, w)
    decreases |b|
  {
    if |b| == 0 {
      assert a + b == a;
    } else {
      var b' := b[..|b| - 1];
      assert (a + b)[..|a + b| - 1] == a + b';
      ItemsOfWeightAppend(a, b', w);
    }
  }

  /** Plugin items are pushed after the built-ins, so on equal weight the built-ins come first. */
  lemma BuiltInsBeforePluginsOnTies<A>(builtIns: seq<Weighted<MenuEntry<A>>>, weights: seq<int>, w: int)
    ensures ItemsOfWeight(builtIns + PluginItems(weights), w)
      == ItemsOfWeight(builtIns, w) + ItemsOfWeight(PluginItems(weights), w)
  {
    ItemsOfWeightAppend(builtIns, PluginItems(weights), w);
  }
}
