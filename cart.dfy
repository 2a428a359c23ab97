/** The shopping-cart slice: a keyed list of items and its total price.
    Prices are integer cents, so the total is exact. */
module Cart {

  datatype Option<T> = None | Some(value: T)

  /** One cart line; `name` stands for the product fields copied from the payload. */
  datatype Item = Item(id: int, name: string, price: int, quantity: int)

  /** What one line contributes to the total. */
  function LineTotal(it: Item): (r: int) {
    it.price * it.quantity
  }

  /** `items.reduce((sum, item) => sum + item.price * item.quantity, 0)`:
      a left fold, so the last item is added last. */
  function Total(items: seq<Item>): (r: int)
    ensures NoNegativeLines(items) ==> r >= 0
  {
    if items == [] then 0 else Total(items[..|items| - 1]) + LineTotal(items[|items| - 1])
  }

  /** Every line has a price and a quantity of at least zero. */
  predicate NoNegativeLines(items: seq<Item>) {
    forall i :: 0 <= i < |items| ==> items[i].price >= 0 && items[i].quantity >= 0
  }

  /** No two items share an id. */
  predicate UniqueIds(items: seq<Item>) {
    forall i, j :: 0 <= i < j < |items| ==> items[i].id != items[j].id
  }

  /** Every item has a quantity of at least one. */
  predicate Positive(items: seq<Item>) {
    forall i :: 0 <= i < |items| ==> items[i].quantity >= 1
  }

  predicate HasId(items: seq<Item>, id: int) {
    exists i :: 0 <= i < |items| && items[i].id == id
  }

  /** `items.find(item => item.id === id)`, as the index of the first match. */
  function FirstIndex(items: seq<Item>, id: int): (r: Option<nat>)
    ensures r.Some? ==> r.value < |items| && items[r.value].id == id
    ensures r.Some? ==> forall j :: 0 <= j < r.value ==> items[j].id != id
    ensures r.None? <==> !HasId(items, id)
  {
    if items == [] then None
    else if items[0].id == id then Some(0)
    else match FirstIndex(items[1..], id)
      case None =>
        assert forall j :: 1 <= j < |items| ==> items[j] == items[1..][j - 1];
        None
      case Some(k) => Some(k + 1)
  }

  /** `items.filter(item => item.id !== id)`, keeping the order of the rest. */
  function Without(items: seq<Item>, id: int): (r: seq<Item>)
    ensures |r| <= |items|
    ensures forall x :: x in r ==> x in items && x.id != id
  {
    if items == [] then []
    else
      var last := items[|items| - 1];
      Without(items[..|items| - 1], id) + (if last.id == id then [] else [last])
  }

  /** The items after `addItem(p)`: an existing line gets one more unit,
      otherwise `p` is appended with quantity 1 (whatever quantity `p` carries). */
  function Added(items: seq<Item>, p: Item): (r: seq<Item>)
    ensures HasId(r, p.id)
    ensures |r| == if HasId(items, p.id) then |items| else |items| + 1
  {
    match FirstIndex(items, p.id)
    case Some(k) =>
      var r := items[k := items[k].(quantity := items[k].quantity + 1)];
      assert r[k].id == p.id;
      r
    case None =>
      var r := items + [p.(quantity := 1)];
      assert r[|items|].id == p.id;
      r
  }

  /** The items after `updateQuantity({id, quantity: q})`. */
  function Updated(items: seq<Item>, id: int, q: int): (r: seq<Item>)
    ensures |r| <= |items|
    ensures !HasId(items, id) ==> r == items
  {
    match FirstIndex(items, id)
    case None => items
    case Some(k) => if q <= 0 then Without(items, id) else items[k := items[k].(quantity := q)]
  }

  // ---------------------------------------------------------------------
  // The three array iterations the reducers use, as loops.

  /** `Array.prototype.find` on the id. */
  method Find(items: seq<Item>, id: int) returns (r: Option<nat>)
    ensures r == FirstIndex(items, id)
  {
    var i := 0;
    while i < |items|
      invariant 0 <= i <= |items|
      invariant forall j :: 0 <= j < i ==> items[j].id != id
    {
      if items[i].id == id {
        return Some(i);
      }
      i := i + 1;
    }
    return None;
  }

  /** `Array.prototype.filter` dropping the given id. */
  method FilterOut(items: seq<Item>, id: int) returns (r: seq<Item>)
    ensures r == Without(items, id)
  {
    r := [];
    var i := 0;
    while i < |items|
      invariant 0 <= i <= |items|
      invariant r == Without(items[..i], id)
    {
      assert items[..i + 1][..i] == items[..i];
      if items[i].id != id {
        r := r + [items[i]];
      }
      i := i + 1;
    }
    assert items[..i] == items;
  }

  /** `Array.prototype.reduce` summing price times quantity. */
  method SumTotal(items: seq<Item>) returns (t: int)
    ensures t == Total(items)
  {
    t := 0;
    var i := 0;
    while i < |items|
      invariant 0 <= i <= |items|
      invariant t == Total(items[..i])
    {
      assert items[..i + 1][..i] == items[..i];
      t := t + LineTotal(items[i]);
      i := i + 1;
    }
    assert items[..i] == items;
  }

  // ---------------------------------------------------------------------
  // Properties of the specification functions.

  /** Appending one line adds exactly its price times quantity. */
  lemma {:induction false} TotalAppend(items: seq<Item>, x: Item)
    ensures Total(items + [x]) == Total(items) + LineTotal(x)
  {
    assert (items + [x])[..|items|] == items;
  }

  /** Replacing one line changes the total by the difference of the two lines. */
  lemma {:induction false} TotalReplace(items: seq<Item>, k: nat, x: Item)
    requires k < |items|
    ensures Total(items[k := x]) == Total(items) - LineTotal(items[k]) + LineTotal(x)
  {
    var n := |items|;
    if k == n - 1 {
      assert items[k := x][..n - 1] == items[..n - 1];
    } else {
      TotalReplace(items[..n - 1], k, x);
      assert items[k := x][..n - 1] == items[..n - 1][k := x];
    }
  }

  /** Dropping one line takes exactly its price times quantity off the total. */
  lemma {:induction false} TotalRemove(items: seq<Item>, k: nat)
    requires k < |items|
    ensures Total(items[..k] + items[k + 1..]) == Total(items) - LineTotal(items[k])
  {
    var n := |items|;
    var init, last := items[..n - 1], items[n - 1];
    assert Total(items) == Total(init) + LineTotal(last);
    if k == n - 1 {
      assert items[..k] + items[k + 1..] == init;
    } else {
      var rest := init[..k] + init[k + 1..];
      assert items[..k] + items[k + 1..] == rest + [last];
      TotalRemove(init, k);
      TotalAppend(rest, last);
    }
  }

  /** filter on an absent id gives back the same list. */
  lemma {:induction false} WithoutAbsent(items: seq<Item>, id: int)
    requires forall j :: 0 <= j < |items| ==> items[j].id != id
    ensures Without(items, id) == items
    decreases |items|
  {
    if items != [] {
      var n := |items|;
      var init, last := items[..n - 1], items[n - 1];
      assert last.id != id;
      assert Without(items, id) == Without(init, id) + [last];
      WithoutAbsent(init, id);
      assert init + [last] == items;
    }
  }

  /** filter distributes over concatenation. */
  lemma {:induction false} WithoutConcat(a: seq<Item>, b: seq<Item>, id: int)
    ensures Without(a + b, id) == Without(a, id) + Without(b, id)
    decreases |b|
  {
    if b == [] {
      assert a + b == a;
    } else {
      var n := |b|;
      var init, last := b[..n - 1], b[n - 1];
      assert (a + b)[..|a + b| - 1] == a + init;
      assert (a + b)[|a + b| - 1] == last;
      WithoutConcat(a, init, id);
    }
  }

  /** filter on an id held by one line alone removes that line. */
  lemma {:induction false} WithoutSplit(before: seq<Item>, x: Item, after: seq<Item>)
    requires forall j :: 0 <= j < |before| ==> before[j].id != x.id
    requires forall j :: 0 <= j < |after| ==> after[j].id != x.id
    ensures Without(before + [x] + after, x.id) == before + after
  {
    var front := before + [x];
    calc {
      Without(front + after, x.id);
      { WithoutConcat(front, after, x.id); }
      Without(front, x.id) + Without(after, x.id);
      { WithoutAbsent(after, x.id); }
      Without(front, x.id) + after;
      { assert front[..|front| - 1] == before; }
      Without(before, x.id) + after;
      { WithoutAbsent(before, x.id); }
      before + after;
    }
  }

  /** With unique ids, filter on a present id removes exactly the line at its index. */
  lemma {:induction false} WithoutPresent(items: seq<Item>, id: int, k: nat)
    requires UniqueIds(items)
    requires k < |items| && items[k].id == id
    ensures Without(items, id) == items[..k] + items[k + 1..]
  {
    var before, after := items[..k], items[k + 1..];
    forall j | 0 <= j < |before| ensures before[j].id != id {
      assert before[j] == items[j];
    }
    forall j | 0 <= j < |after| ensures after[j].id != id {
      assert after[j] == items[k + 1 + j];
    }
    WithoutSplit(before, items[k], after);
    assert before + [items[k]] + after == items;
  }

  /** Removing one index keeps ids unique and quantities positive. */
  lemma {:induction false} RemoveAtKeeps(items: seq<Item>, k: nat)
    requires k < |items|
    ensures UniqueIds(items) ==> UniqueIds(items[..k] + items[k + 1..])
    ensures Positive(items) ==> Positive(items[..k] + items[k + 1..])
    ensures UniqueIds(items) ==> !HasId(items[..k] + items[k + 1..], items[k].id)
  {
    var r := items[..k] + items[k + 1..];
    assert forall i :: 0 <= i < |r| ==> r[i] == items[if i < k then i else i + 1];
  }

  /** With unique ids, an index holding an id is the only one holding it. */
  lemma {:induction false} OnlyIndex(items: seq<Item>, k: nat)
    requires UniqueIds(items) && k < |items|
    ensures forall j :: 0 <= j < |items| && items[j].id == items[k].id ==> j == k
  {
    forall j | 0 <= j < |items| && j != k ensures items[j].id != items[k].id {
      if j < k {
        assert items[j].id != items[k].id;
      } else {
        assert items[k].id != items[j].id;
      }
    }
  }

  /** removeItem: drops the line with that id and keeps the others in order;
      an absent id leaves the list as it was. Validity is kept. */
  lemma {:induction false} RemoveSpec(items: seq<Item>, id: int)
    requires UniqueIds(items) && Positive(items)
    ensures !HasId(items, id) ==> Without(items, id) == items
    ensures forall k :: 0 <= k < |items| && items[k].id == id ==>
      Without(items, id) == items[..k] + items[k + 1..]
    ensures !HasId(Without(items, id), id)
    ensures UniqueIds(Without(items, id)) && Positive(Without(items, id))
  {
    match FirstIndex(items, id)
    case None =>
      WithoutAbsent(items, id);
    case Some(k) =>
      WithoutPresent(items, id, k);
      RemoveAtKeeps(items, k);
      OnlyIndex(items, k);
  }

  /** removeItem takes exactly the removed line's price times quantity off
      the total. */
  lemma {:induction false} RemoveTotal(items: seq<Item>, id: int, k: nat)
    requires UniqueIds(items)
    requires k < |items| && items[k].id == id
    ensures Total(Without(items, id)) == Total(items) - LineTotal(items[k])
  {
    WithoutPresent(items, id, k);
    TotalRemove(items, k);
  }

  /** addItem on an id already in the cart raises that line's quantity by
      exactly one and leaves every other line as it was. */
  lemma {:induction false} AddExisting(items: seq<Item>, p: Item)
    requires UniqueIds(items) && HasId(items, p.id)
    ensures |Added(items, p)| == |items|
    ensures forall j :: 0 <= j < |items| ==>
      Added(items, p)[j] == if items[j].id == p.id then items[j].(quantity := items[j].quantity + 1) else items[j]
  {
    var k := FirstIndex(items, p.id).value;
    forall j | 0 <= j < |items| && j != k ensures items[j].id != p.id {
      if j < k {
      } else {
        assert items[k].id != items[j].id;
      }
    }
  }

  /** addItem on a new id appends the payload at the end with quantity 1. */
  lemma {:induction false} AddNew(items: seq<Item>, p: Item)
    requires !HasId(items, p.id)
    ensures Added(items, p) == items + [Item(p.id, p.name, p.price, 1)]
  {
  }

  /** addItem keeps ids unique and quantities positive, and the id is in
      the cart afterwards. */
  lemma {:induction false} AddSpec(items: seq<Item>, p: Item)
    requires UniqueIds(items) && Positive(items)
    ensures UniqueIds(Added(items, p)) && Positive(Added(items, p))
    ensures HasId(Added(items, p), p.id)
  {
    match FirstIndex(items, p.id)
    case Some(k) =>
      assert Added(items, p)[k].id == p.id;
    case None =>
      assert Added(items, p)[|items|].id == p.id;
  }

  /** One more unit of the same line adds one unit price. */
  lemma OneMoreUnit(it: Item, x: Item)
    requires x.price == it.price && x.quantity == it.quantity + 1
    ensures LineTotal(x) == LineTotal(it) + it.price
  {
  }

  /** addItem raises the total by exactly one unit's price: that of the line
      already in the cart, or the payload's for a new line. */
  lemma {:induction false} AddTotal(items: seq<Item>, p: Item)
    ensures Total(Added(items, p)) == Total(items) +
      match FirstIndex(items, p.id)
      case Some(k) => items[k].price
      case None => p.price
  {
    match FirstIndex(items, p.id)
    case Some(k) =>
      var x := items[k].(quantity := items[k].quantity + 1);
      TotalReplace(items, k, x);
      OneMoreUnit(items[k], x);
    case None =>
      TotalAppend(items, p.(quantity := 1));
  }

  /** updateQuantity: an absent id changes nothing; a quantity of at most 0
      drops the line; otherwise only that line's quantity changes. Ids stay
      unique, quantities positive. */
  lemma {:induction false} UpdateSpec(items: seq<Item>, id: int, q: int)
    requires UniqueIds(items) && Positive(items)
    ensures !HasId(items, id) ==> Updated(items, id, q) == items
    ensures HasId(items, id) && q <= 0 ==> !HasId(Updated(items, id, q), id) && |Updated(items, id, q)| == |items| - 1
    ensures forall k :: 0 <= k < |items| && items[k].id == id && q <= 0 ==>
      Updated(items, id, q) == items[..k] + items[k + 1..]
    ensures HasId(items, id) && q > 0 ==>
      |Updated(items, id, q)| == |items| &&
      forall j :: 0 <= j < |items| ==>
        Updated(items, id, q)[j] == if items[j].id == id then items[j].(quantity := q) else items[j]
    ensures UniqueIds(Updated(items, id, q)) && Positive(Updated(items, id, q))
  {
    match FirstIndex(items, id)
    case None =>
    case Some(k) =>
      if q <= 0 {
        RemoveSpec(items, id);
      } else {
        forall j | 0 <= j < |items| && j != k ensures items[j].id != id {
          if j > k {
            assert items[k].id != items[j].id;
          }
        }
      }
  }

  /** updateQuantity leaves the total equal to the sum over the new lines,
      which differs from the old total by the changed line alone. */
  lemma {:induction false} UpdateTotal(items: seq<Item>, id: int, q: int, k: nat)
    requires UniqueIds(items)
    requires k < |items| && items[k].id == id
    ensures q <= 0 ==> Total(Updated(items, id, q)) == Total(items) - LineTotal(items[k])
    ensures q > 0 ==>
      Total(Updated(items, id, q)) == Total(items) - LineTotal(items[k]) + LineTotal(items[k].(quantity := q))
  {
    assert FirstIndex(items, id) == Some(k);
    if q <= 0 {
      WithoutPresent(items, id, k);
      TotalRemove(items, k);
    } else {
      TotalReplace(items, k, items[k].(quantity := q));
    }
  }

  // ---------------------------------------------------------------------
  // The slice state, updated in place by the reducers.

  class CartState {
    var items: seq<Item>
    var totalPrice: int

    /** Ids unique, quantities positive, total equal to the sum of the lines. */
    ghost predicate Valid()
      reads this
    {
      UniqueIds(items) && Positive(items) && totalPrice == Total(items)
    }

    /** The initial state: no items and a total of 0. */
    constructor ()
      ensures Valid() && items == [] && totalPrice == 0
    {
      items := [];
      totalPrice := 0;
    }

    /** `addItem` */
    method AddItem(p: Item)
      requires Valid()
      modifies this
      ensures Valid()
      ensures items == Added(old(items), p)
    {
      AddSpec(items, p);
      var before := items;
      var found := Find(items, p.id);
      match found {
        case Some(k) =>
          items := items[k := items[k].(quantity := items[k].quantity + 1)];
        case None =>
          items := items + [p.(quantity := 1)];
      }
      assert items == Added(before, p);
      totalPrice := SumTotal(items);
    }

    /** `removeItem` */
    method RemoveItem(id: int)
      requires Valid()
      modifies this
      ensures Valid()
      ensures items == Without(old(items), id)
      ensures !HasId(items, id)
    {
      RemoveSpec(items, id);
      items := FilterOut(items, id);
      totalPrice := SumTotal(items);
    }

    /** `updateQuantity` */
    method UpdateQuantity(id: int, q: int)
      requires Valid()
      modifies this
      ensures Valid()
      ensures items == Updated(old(items), id, q)
    {
      UpdateSpec(items, id, q);
      var found := Find(items, id);
      match found {
        case Some(k) =>
          items := items[k := items[k].(quantity := q)];
          if items[k].quantity <= 0 {
            WithoutSameIds(old(items), k, q);
            items := FilterOut(items, id);
          }
        case None =>
      }
      totalPrice := SumTotal(items);
    }

    /** `clearCart` */
    method ClearCart()
      requires Valid()
      modifies this
      ensures Valid() && items == [] && totalPrice == 0
    {
      items := [];
      totalPrice := 0;
    }
  }

  /** Changing a field other than the id does not change what filter keeps. */
  lemma {:induction false} WithoutSameIds(items: seq<Item>, k: nat, q: int)
    requires k < |items|
    ensures Without(items[k := items[k].(quantity := q)], items[k].id) == Without(items, items[k].id)
  {
    var n := |items|;
    var s := items[k := items[k].(quantity := q)];
    if k == n - 1 {
      assert s[..n - 1] == items[..n - 1];
    } else {
      WithoutSameIds(items[..n - 1], k, q);
      assert s[..n - 1] == items[..n - 1][k := items[k].(quantity := q)];
    }
  }
}
