/** Line items, the cart sequence, its aggregates (`cartCount`, `cartTotal`)
    and the two edits the page applies to a loaded cart (`push`, `splice`). */
module Cart {
  import opened Options

  /** One line of the cart, as the add handler builds it. `price` is in cents.
      `size` and `qty` may be missing in stored data, hence Option. */
  datatype Item = Item(
    sku: string,
    name: string,
    price: nat,
    image: string,
    size: Option<string>,
    qty: Option<int>,
    stripeLink: string)

  /** An ordered cart; position is the only identity a line has. */
  type Cart = seq<Item>

  /** A line whose quantity, when present, is at least one (the shape the
      add handler writes). */
  predicate WellFormedItem(it: Item)
  {
    it.qty.Some? ==> it.qty.value >= 1
  }

  /** `it.qty || 1`: a missing or zero quantity counts as one. */
  function EffectiveQty(it: Item): (q: int)
    ensures q != 0
    ensures it.qty == None ==> q == 1
    ensures it.qty == Some(0) ==> q == 1
    ensures it.qty.Some? && it.qty.value != 0 ==> q == it.qty.value
  {
    match it.qty
    case None => 1
    case Some(n) => if n == 0 then 1 else n
  }

  /** One line's share of `cartTotal`: `it.price * (it.qty || 1)`. */
  function LineTotal(it: Item): (t: int)
    ensures it.qty == None || it.qty == Some(0) ==> t == it.price
    ensures WellFormedItem(it) ==> t >= it.price
  {
    it.price * EffectiveQty(it)
  }

  /** `cartCount`: a left fold adding each line's effective quantity. With
      well-formed lines it is at least the number of lines. */
  function Count(c: Cart): (n: int)
    ensures (forall i :: 0 <= i < |c| ==> WellFormedItem(c[i])) ==> n >= |c|
  {
    if c == [] then 0 else Count(c[..|c| - 1]) + EffectiveQty(c[|c| - 1])
  }

  /** `cartTotal`: a left fold adding price times effective quantity. With
      well-formed lines it is never negative. */
  function Total(c: Cart): (t: int)
    ensures (forall i :: 0 <= i < |c| ==> WellFormedItem(c[i])) ==> t >= 0
  {
    if c == [] then 0 else Total(c[..|c| - 1]) + LineTotal(c[|c| - 1])
  }

  lemma CountTotalEmpty()
    ensures Count([]) == 0 && Total([]) == 0
  {
  }

  lemma {:induction false} CountAppend(a: Cart, b: Cart)
    ensures Count(a + b) == Count(a) + Count(b)
    decreases |b|
  {
    if b != [] {
      var b' := b[..|b| - 1];
      assert (a + b)[..|a + b| - 1] == a + b';
      CountAppend(a, b');
    } else {
      assert a + b == a;
    }
  }

  lemma {:induction false} TotalAppend(a: Cart, b: Cart)
    ensures Total(a + b) == Total(a) + Total(b)
    decreases |b|
  {
    if b != [] {
      var b' := b[..|b| - 1];
      assert (a + b)[..|a + b| - 1] == a + b';
      TotalAppend(a, b');
    } else {
      assert a + b == a;
    }
  }

  lemma CountTotalSingle(it: Item)
    ensures Count([it]) == EffectiveQty(it)
    ensures Total([it]) == LineTotal(it)
  {
    assert [it][..0] == [];
  }

  /** `splice(idx, 1)` on a non-negative index: drops the line at `idx`,
      or leaves the cart as it is when `idx` is past the end. */
  function RemoveAt(c: Cart, idx: nat): (r: Cart)
    ensures idx < |c| ==> |r| == |c| - 1
    ensures idx < |c| ==> forall j :: 0 <= j < idx ==> r[j] == c[j]
    ensures idx < |c| ==> forall j :: idx <= j < |r| ==> r[j] == c[j + 1]
    ensures idx >= |c| ==> r == c
  {
    if idx < |c| then c[..idx] + c[idx + 1..] else c
  }

  /** Removing a line removes exactly that line: the multiset of lines loses
      one copy of it and nothing else. */
  lemma {:induction false} RemoveAtMultiset(c: Cart, idx: nat)
    requires idx < |c|
    ensures multiset(RemoveAt(c, idx)) + multiset{c[idx]} == multiset(c)
  {
    assert c == c[..idx] + [c[idx]] + c[idx + 1..];
  }

  /** The aggregates drop by exactly the removed line's share. */
  lemma {:induction false} RemoveAtAggregates(c: Cart, idx: nat)
    requires idx < |c|
    ensures Count(RemoveAt(c, idx)) == Count(c) - EffectiveQty(c[idx])
    ensures Total(RemoveAt(c, idx)) == Total(c) - LineTotal(c[idx])
  {
    var p, x, q := c[..idx], c[idx], c[idx + 1..];
    assert c == (p + [x]) + q;
    assert RemoveAt(c, idx) == p + q;
    CountAppend(p + [x], q);
    CountAppend(p, q);
    TotalAppend(p + [x], q);
    TotalAppend(p, q);
    PushAggregates(p, x);
  }

  /** Appending one line (`cart.push(item)`) raises the aggregates by that
      line's share, whatever the earlier lines are; no merging happens even
      when an earlier line has the same sku and size. */
  lemma {:induction false} PushAggregates(c: Cart, it: Item)
    ensures Count(c + [it]) == Count(c) + EffectiveQty(it)
    ensures Total(c + [it]) == Total(c) + LineTotal(it)
    ensures |c + [it]| == |c| + 1 && (c + [it])[..|c|] == c
  {
    CountAppend(c, [it]);
    TotalAppend(c, [it]);
    CountTotalSingle(it);
  }
}
