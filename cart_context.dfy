/** The shopping cart held by the cart provider: an ordered list of lines
    keyed by (slug, phone model), and the flag that opens the cart drawer.
    Prices are integer cents. */
module Cart {
  import opened Wrappers

  /** One cart line. `phoneModel` is absent when no model was chosen. */
  datatype CartItem = CartItem(slug: string, name: string, price: int, image: string, qty: int, phoneModel: Option<string>)

  /** What `add` receives: a line without its quantity. */
  datatype CartProduct = CartProduct(slug: string, name: string, price: int, image: string, phoneModel: Option<string>)

  /** The line is the one for this (slug, phone model) key; an absent model
      and a present one are different keys. */
  predicate HasKey(line: CartItem, slug: string, phoneModel: Option<string>) {
    line.slug == slug && line.phoneModel == phoneModel
  }

  predicate ContainsKey(items: seq<CartItem>, slug: string, phoneModel: Option<string>) {
    exists i :: 0 <= i < |items| && HasKey(items[i], slug, phoneModel)
  }

  /** At most one line per key. */
  predicate UniqueKeys(items: seq<CartItem>) {
    forall i, j :: 0 <= i < j < |items| ==> !HasKey(items[i], items[j].slug, items[j].phoneModel)
  }

  predicate AllPositive(items: seq<CartItem>) {
    forall i :: 0 <= i < |items| ==> items[i].qty > 0
  }

  function NewLine(item: CartProduct, qty: int): CartItem {
    CartItem(item.slug, item.name, item.price, item.image, qty, item.phoneModel)
  }

  /** `prev.find(...)`: the first line with the key, if any. */
  function Find(items: seq<CartItem>, slug: string, phoneModel: Option<string>): (r: Option<CartItem>)
    ensures r.Some? <==> ContainsKey(items, slug, phoneModel)
    ensures r.Some? ==> exists i :: 0 <= i < |items| && items[i] == r.value && HasKey(items[i], slug, phoneModel)
                                    && forall j :: 0 <= j < i ==> !HasKey(items[j], slug, phoneModel)
  {
    if items == [] then None
    else if HasKey(items[0], slug, phoneModel) then Some(items[0])
    else
      var r := Find(items[1..], slug, phoneModel);
      assert r.Some? ==> exists i :: 1 <= i < |items| && items[i] == r.value && HasKey(items[i], slug, phoneModel)
                                     && forall j :: 0 <= j < i ==> !HasKey(items[j], slug, phoneModel) by {
        if r.Some? {
          var i :| 0 <= i < |items[1..]| && items[1..][i] == r.value && HasKey(items[1..][i], slug, phoneModel)
                   && forall j :: 0 <= j < i ==> !HasKey(items[1..][j], slug, phoneModel);
          assert items[i + 1] == r.value;
          forall j | 0 <= j < i + 1 ensures !HasKey(items[j], slug, phoneModel) {
            if j > 0 { assert items[j] == items[1..][j - 1]; }
          }
        }
      }
      assert ContainsKey(items[1..], slug, phoneModel) ==> ContainsKey(items, slug, phoneModel) by {
        if ContainsKey(items[1..], slug, phoneModel) {
          var i :| 0 <= i < |items[1..]| && HasKey(items[1..][i], slug, phoneModel);
          assert HasKey(items[i + 1], slug, phoneModel);
        }
      }
      assert ContainsKey(items, slug, phoneModel) ==> ContainsKey(items[1..], slug, phoneModel) by {
        if ContainsKey(items, slug, phoneModel) {
          var i :| 0 <= i < |items| && HasKey(items[i], slug, phoneModel);
          assert i > 0 && HasKey(items[1..][i - 1], slug, phoneModel);
        }
      }
      r
  }

  /** `prev.map(...)`: every line with the key gets `qty` more units. */
  function Bumped(items: seq<CartItem>, slug: string, phoneModel: Option<string>, qty: int): seq<CartItem> {
    seq(|items|, i requires 0 <= i < |items| =>
      if HasKey(items[i], slug, phoneModel) then items[i].(qty := items[i].qty + qty) else items[i])
  }

  /** The list `add(item, qty)` leaves: a present key has its quantity
      raised, a new key is appended at the end. */
  function Added(items: seq<CartItem>, item: CartProduct, qty: int): (r: seq<CartItem>)
    ensures |r| == if ContainsKey(items, item.slug, item.phoneModel) then |items| else |items| + 1
    ensures !ContainsKey(items, item.slug, item.phoneModel) ==> r == items + [NewLine(item, qty)]
  {
    match Find(items, item.slug, item.phoneModel)
    case Some(_) => Bumped(items, item.slug, item.phoneModel, qty)
    case None => items + [NewLine(item, qty)]
  }

  /** The filter of `remove(slug, phoneModel)`: a line goes when its slug
      matches and, if a truthy model is given, its model matches too. */
  predicate Keeps(line: CartItem, slug: string, phoneModel: Option<string>) {
    KeyKept(line.slug, line.phoneModel, slug, phoneModel)
  }

  /** The same filter on a key (s, m) rather than on a line. */
  predicate KeyKept(s: string, m: Option<string>, slug: string, phoneModel: Option<string>) {
    !(s == slug && (if Truthy(phoneModel) then m == phoneModel else true))
  }

  /** The list `remove(slug, phoneModel)` leaves. */
  function Removed(items: seq<CartItem>, slug: string, phoneModel: Option<string>): (r: seq<CartItem>)
    ensures |r| <= |items|
  {
    if items == [] then []
    else (if Keeps(items[0], slug, phoneModel) then [items[0]] else []) + Removed(items[1..], slug, phoneModel)
  }

  /** Exactly the lines the filter keeps survive removal. */
  lemma {:induction false} RemovedMembers(items: seq<CartItem>, slug: string, phoneModel: Option<string>)
    ensures forall x :: x in Removed(items, slug, phoneModel) <==> x in items && Keeps(x, slug, phoneModel)
  {
    if items != [] {
      RemovedMembers(items[1..], slug, phoneModel);
      assert forall x :: x in items <==> x == items[0] || x in items[1..];
    }
  }

  /** No line has a negative price or quantity. */
  predicate NonNegative(items: seq<CartItem>) {
    forall i :: 0 <= i < |items| ==> items[i].price >= 0 && items[i].qty >= 0
  }

  function LineTotal(line: CartItem): int {
    line.price * line.qty
  }

  /** `items.reduce((sum, i) => sum + i.price * i.qty, 0)`: 0 for an empty
      cart, never negative when no price or quantity is. */
  function Subtotal(items: seq<CartItem>): (r: int)
    ensures items == [] ==> r == 0
    ensures NonNegative(items) ==> r >= 0
  {
    if items == [] then 0
    else
      assert NonNegative(items) ==> NonNegative(items[1..]);
      LineTotal(items[0]) + Subtotal(items[1..])
  }

  /** The badge count of the cart button: all units in the cart. */
  function UnitCount(items: seq<CartItem>): (r: int)
    ensures items == [] ==> r == 0
    ensures NonNegative(items) ==> r >= 0
  {
    if items == [] then 0
    else assert NonNegative(items) ==> NonNegative(items[1..]); items[0].qty + UnitCount(items[1..])
  }

  /** Units held under one key: the cart seen as a map from key to quantity. */
  function QtyOf(items: seq<CartItem>, slug: string, phoneModel: Option<string>): int {
    if items == [] then 0
    else (if HasKey(items[0], slug, phoneModel) then items[0].qty else 0) + QtyOf(items[1..], slug, phoneModel)
  }

  // ---------------------------------------------------------------- sums

  lemma {:induction false} SubtotalConcat(a: seq<CartItem>, b: seq<CartItem>)
    ensures Subtotal(a + b) == Subtotal(a) + Subtotal(b)
  {
    if a != [] {
      assert (a + b)[0] == a[0] && (a + b)[1..] == a[1..] + b;
      SubtotalConcat(a[1..], b);
    } else {
      assert a + b == b;
    }
  }

  lemma {:induction false} UnitCountConcat(a: seq<CartItem>, b: seq<CartItem>)
    ensures UnitCount(a + b) == UnitCount(a) + UnitCount(b)
  {
    if a != [] {
      assert (a + b)[0] == a[0] && (a + b)[1..] == a[1..] + b;
      UnitCountConcat(a[1..], b);
    } else {
      assert a + b == b;
    }
  }

  lemma {:induction false} QtyOfConcat(a: seq<CartItem>, b: seq<CartItem>, slug: string, phoneModel: Option<string>)
    ensures QtyOf(a + b, slug, phoneModel) == QtyOf(a, slug, phoneModel) + QtyOf(b, slug, phoneModel)
  {
    if a != [] {
      assert (a + b)[0] == a[0] && (a + b)[1..] == a[1..] + b;
      QtyOfConcat(a[1..], b, slug, phoneModel);
    } else {
      assert a + b == b;
    }
  }

  /** Splits a list around position `i`; a step for the prover only. */
  lemma Around(items: seq<CartItem>, i: nat, v: CartItem)
    requires i < |items|
    ensures items == items[..i] + [items[i]] + items[i + 1..]
    ensures items[i := v] == items[..i] + [v] + items[i + 1..]
  {
  }

  lemma SubtotalUpdate(items: seq<CartItem>, i: nat, v: CartItem)
    requires i < |items|
    ensures Subtotal(items[i := v]) == Subtotal(items) - LineTotal(items[i]) + LineTotal(v)
  {
    Around(items, i, v);
    SubtotalConcat(items[..i] + [items[i]], items[i + 1..]);
    SubtotalConcat(items[..i], [items[i]]);
    SubtotalConcat(items[..i] + [v], items[i + 1..]);
    SubtotalConcat(items[..i], [v]);
  }

  lemma UnitCountUpdate(items: seq<CartItem>, i: nat, v: CartItem)
    requires i < |items|
    ensures UnitCount(items[i := v]) == UnitCount(items) - items[i].qty + v.qty
  {
    Around(items, i, v);
    UnitCountConcat(items[..i] + [items[i]], items[i + 1..]);
    UnitCountConcat(items[..i], [items[i]]);
    UnitCountConcat(items[..i] + [v], items[i + 1..]);
    UnitCountConcat(items[..i], [v]);
  }

  lemma QtyOfUpdate(items: seq<CartItem>, i: nat, v: CartItem, slug: string, phoneModel: Option<string>)
    requires i < |items|
    ensures QtyOf(items[i := v], slug, phoneModel)
         == QtyOf(items, slug, phoneModel) - QtyOf([items[i]], slug, phoneModel) + QtyOf([v], slug, phoneModel)
  {
    Around(items, i, v);
    QtyOfConcat(items[..i] + [items[i]], items[i + 1..], slug, phoneModel);
    QtyOfConcat(items[..i], [items[i]], slug, phoneModel);
    QtyOfConcat(items[..i] + [v], items[i + 1..], slug, phoneModel);
    QtyOfConcat(items[..i], [v], slug, phoneModel);
  }

  // ---------------------------------------------------------------- add

  /** Adding a key that is present changes that one line's quantity and
      nothing else: length, order, and the line's name, price and image stay. */
  lemma AddExisting(items: seq<CartItem>, item: CartProduct, qty: int, i: nat)
    requires UniqueKeys(items)
    requires i < |items| && HasKey(items[i], item.slug, item.phoneModel)
    ensures Added(items, item, qty) == items[i := items[i].(qty := items[i].qty + qty)]
  {
    assert ContainsKey(items, item.slug, item.phoneModel);
  }

  /** In a unique list, `find` returns the one line with the key. */
  lemma FindUnique(items: seq<CartItem>, slug: string, phoneModel: Option<string>, i: nat)
    requires UniqueKeys(items)
    requires i < |items| && HasKey(items[i], slug, phoneModel)
    ensures Find(items, slug, phoneModel) == Some(items[i])
  {
    assert ContainsKey(items, slug, phoneModel);
    var r := Find(items, slug, phoneModel);
    var k :| 0 <= k < |items| && items[k] == r.value && HasKey(items[k], slug, phoneModel)
             && forall j :: 0 <= j < k ==> !HasKey(items[j], slug, phoneModel);
    assert k == i;
  }

  /** The position of a key that the list contains. */
  lemma KeyPosition(items: seq<CartItem>, slug: string, phoneModel: Option<string>) returns (i: nat)
    requires ContainsKey(items, slug, phoneModel)
    ensures i < |items| && HasKey(items[i], slug, phoneModel)
  {
    i :| 0 <= i < |items| && HasKey(items[i], slug, phoneModel);
  }

  /** `add` keeps at most one line per key. */
  lemma AddedKeepsUnique(items: seq<CartItem>, item: CartProduct, qty: int)
    requires UniqueKeys(items)
    ensures UniqueKeys(Added(items, item, qty))
  {
    if ContainsKey(items, item.slug, item.phoneModel) {
      var i := KeyPosition(items, item.slug, item.phoneModel);
      AddExisting(items, item, qty, i);
    }
  }

  /** With positive quantities `add` keeps every quantity at least one. */
  lemma AddedKeepsPositive(items: seq<CartItem>, item: CartProduct, qty: int)
    requires AllPositive(items) && qty > 0
    ensures AllPositive(Added(items, item, qty))
  {
  }

  /** Seen as a map from key to quantity, `add` raises the given key by
      `qty` and leaves every other key as it was. */
  lemma AddedQty(items: seq<CartItem>, item: CartProduct, qty: int, slug: string, phoneModel: Option<string>)
    requires UniqueKeys(items)
    ensures QtyOf(Added(items, item, qty), slug, phoneModel)
         == QtyOf(items, slug, phoneModel) + (if slug == item.slug && phoneModel == item.phoneModel then qty else 0)
  {
    if ContainsKey(items, item.slug, item.phoneModel) {
      var i := KeyPosition(items, item.slug, item.phoneModel);
      AddExisting(items, item, qty, i);
      QtyOfUpdate(items, i, items[i].(qty := items[i].qty + qty), slug, phoneModel);
    } else {
      QtyOfConcat(items, [NewLine(item, qty)], slug, phoneModel);
    }
  }

  /** The unit price `add` charges for the added units: the stored price
      of the line already holding the key, else the given price. */
  function AddPrice(items: seq<CartItem>, item: CartProduct): int {
    match Find(items, item.slug, item.phoneModel)
    case Some(line) => line.price
    case None => item.price
  }

  /** Bumping line `i` by `qty` raises the subtotal by `qty` of its units. */
  lemma BumpSubtotal(items: seq<CartItem>, i: nat, qty: int)
    requires i < |items|
    ensures Subtotal(items[i := items[i].(qty := items[i].qty + qty)]) == Subtotal(items) + qty * items[i].price
  {
    var v := items[i].(qty := items[i].qty + qty);
    SubtotalUpdate(items, i, v);
    Distribute(items[i].price, items[i].qty, qty);
  }

  /** Distributes a product over a sum; a step for the prover only. */
  lemma Distribute(p: int, a: int, b: int)
    ensures p * (a + b) == p * a + b * p
  {
  }

  /** `add` raises the subtotal by `qty` units at the price of the line that
      holds the key: the stored price for a present key, the given one for a new key. */
  lemma AddedSubtotal(items: seq<CartItem>, item: CartProduct, qty: int)
    requires UniqueKeys(items)
    ensures Subtotal(Added(items, item, qty)) == Subtotal(items) + qty * AddPrice(items, item)
  {
    if ContainsKey(items, item.slug, item.phoneModel) {
      var i := KeyPosition(items, item.slug, item.phoneModel);
      AddExisting(items, item, qty, i);
      FindUnique(items, item.slug, item.phoneModel, i);
      BumpSubtotal(items, i, qty);
    } else {
      SubtotalConcat(items, [NewLine(item, qty)]);
      assert Subtotal([NewLine(item, qty)]) == item.price * qty;
    }
  }

  /** The badge count grows by exactly the units added. */
  lemma AddedUnitCount(items: seq<CartItem>, item: CartProduct, qty: int)
    requires UniqueKeys(items)
    ensures UnitCount(Added(items, item, qty)) == UnitCount(items) + qty
  {
    if ContainsKey(items, item.slug, item.phoneModel) {
      var i := KeyPosition(items, item.slug, item.phoneModel);
      AddExisting(items, item, qty, i);
      UnitCountUpdate(items, i, items[i].(qty := items[i].qty + qty));
    } else {
      UnitCountConcat(items, [NewLine(item, qty)]);
    }
  }

  // ---------------------------------------------------------------- remove

  /** Removal keeps the surviving lines in their original order: it
      distributes over concatenation. */
  lemma {:induction false} RemovedConcat(a: seq<CartItem>, b: seq<CartItem>, slug: string, phoneModel: Option<string>)
    ensures Removed(a + b, slug, phoneModel) == Removed(a, slug, phoneModel) + Removed(b, slug, phoneModel)
  {
    if a != [] {
      assert (a + b)[0] == a[0] && (a + b)[1..] == a[1..] + b;
      RemovedConcat(a[1..], b, slug, phoneModel);
    } else {
      assert a + b == b;
    }
  }

  /** Removing a key that no line matches changes nothing. */
  lemma {:induction false} RemoveMissing(items: seq<CartItem>, slug: string, phoneModel: Option<string>)
    requires forall i :: 0 <= i < |items| ==> Keeps(items[i], slug, phoneModel)
    ensures Removed(items, slug, phoneModel) == items
  {
    if items != [] {
      RemoveMissing(items[1..], slug, phoneModel);
    }
  }

  /** An absent or empty model removes by slug alone, every model included. */
  lemma {:induction false} RemoveFalsyModel(items: seq<CartItem>, slug: string, phoneModel: Option<string>)
    requires !Truthy(phoneModel)
    ensures Removed(items, slug, phoneModel) == Removed(items, slug, None)
    ensures forall x :: x in Removed(items, slug, phoneModel) <==> x in items && x.slug != slug
  {
    if items != [] {
      RemoveFalsyModel(items[1..], slug, phoneModel);
    }
  }

  /** A non-empty model removes exactly the lines of that (slug, model) key. */
  lemma RemoveWithModel(items: seq<CartItem>, slug: string, phoneModel: Option<string>)
    requires Truthy(phoneModel)
    ensures forall x :: x in Removed(items, slug, phoneModel) <==> x in items && !HasKey(x, slug, phoneModel)
  {
  }

  /** Removal keeps at most one line per key. */
  lemma {:induction false} RemovedKeepsUnique(items: seq<CartItem>, slug: string, phoneModel: Option<string>)
    requires UniqueKeys(items)
    ensures UniqueKeys(Removed(items, slug, phoneModel))
  {
    if items != [] {
      var tail := items[1..];
      assert UniqueKeys(tail) by {
        forall i, j | 0 <= i < j < |tail| ensures !HasKey(tail[i], tail[j].slug, tail[j].phoneModel) {
          assert tail[i] == items[i + 1] && tail[j] == items[j + 1];
        }
      }
      RemovedKeepsUnique(tail, slug, phoneModel);
      RemovedMembers(tail, slug, phoneModel);
      var rest := Removed(tail, slug, phoneModel);
      var head := if Keeps(items[0], slug, phoneModel) then [items[0]] else [];
      forall j | 0 <= j < |rest| ensures !HasKey(items[0], rest[j].slug, rest[j].phoneModel) {
        assert rest[j] in tail;
        var k :| 0 <= k < |tail| && tail[k] == rest[j];
        assert items[k + 1] == rest[j];
      }
      assert Removed(items, slug, phoneModel) == head + rest;
    }
  }

  /** Seen as a map from key to quantity, removal zeroes the matching keys
      and leaves every other key as it was. */
  lemma {:induction false} RemovedQty(items: seq<CartItem>, slug: string, phoneModel: Option<string>, s: string, m: Option<string>)
    ensures QtyOf(Removed(items, slug, phoneModel), s, m)
         == if KeyKept(s, m, slug, phoneModel) then QtyOf(items, s, m) else 0
  {
    if items != [] {
      RemovedQty(items[1..], slug, phoneModel, s, m);
      var head := if Keeps(items[0], slug, phoneModel) then [items[0]] else [];
      QtyOfConcat(head, Removed(items[1..], slug, phoneModel), s, m);
    }
  }

  // ---------------------------------------------------------------- the store

  /** The cart provider's state: `items` and `open`, changed only through
      `add`, `remove`, `clear` and `setOpen`. */
  class CartStore {
    var items: seq<CartItem>
    var open: bool

    ghost predicate Valid()
      reads this
    {
      UniqueKeys(items)
    }

    constructor ()
      ensures Valid() && items == [] && !open
    {
      items := [];
      open := false;
    }

    /** `add(item, qty = 1)`: merges or appends the line and opens the drawer. */
    method Add(item: CartProduct, qty: int := 1)
      requires Valid()
      modifies this
      ensures Valid()
      ensures items == Added(old(items), item, qty)
      ensures open
    {
      AddedKeepsUnique(items, item, qty);
      items := Added(items, item, qty);
      open := true;
    }

    /** `remove(slug, phoneModel?)`; the drawer state is untouched. */
    method Remove(slug: string, phoneModel: Option<string> := None)
      requires Valid()
      modifies this
      ensures Valid()
      ensures items == Removed(old(items), slug, phoneModel)
      ensures open == old(open)
    {
      RemovedKeepsUnique(items, slug, phoneModel);
      items := Removed(items, slug, phoneModel);
    }

    /** `clear()`: no lines left; the drawer state is untouched. */
    method Clear()
      requires Valid()
      modifies this
      ensures Valid()
      ensures items == [] && open == old(open)
    {
      items := [];
    }

    /** `setOpen(v)`: shows or hides the drawer; the lines are untouched. */
    method SetOpen(v: bool)
      requires Valid()
      modifies this
      ensures Valid()
      ensures open == v && items == old(items)
    {
      open := v;
    }
  }
}
