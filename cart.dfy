/**
 * The shopping-cart engine of the storefront: an ordered list of lines, one per
 * product id, held by the cart provider and replaced wholesale by each operation.
 * The list transformations are pure functions; the provider is a class whose one
 * field is the current list.
 */
module Cart {
  import opened Wrappers

  /**
   * A product as the catalog returns it. Only the fields the cart reads or
   * carries are kept; prices and discounts are exact reals.
   */
  datatype Product = Product(
    id: int,
    title: string,
    price: real,
    category: string,
    stock: nat,
    rating: real,
    discountPercentage: real)

  /** A cart line: the product's fields as they were when the line was created, and a quantity. */
  datatype CartLine = CartLine(product: Product, quantity: int)

  function Min(a: int, b: int): int { if a <= b then a else b }

  /** No line of `items` carries product id `id`. */
  predicate Absent(items: seq<CartLine>, id: int) {
    forall i | 0 <= i < |items| :: items[i].product.id != id
  }

  /** No two lines share a product id. */
  predicate UniqueIds(items: seq<CartLine>) {
    forall i, j | 0 <= i < j < |items| :: items[i].product.id != items[j].product.id
  }

  /**
   * The cart invariant: ids are unique, every quantity is at least 1 and every
   * stored stock is at least 1 (a line is only ever created from a product in stock).
   */
  predicate WellFormed(items: seq<CartLine>) {
    && UniqueIds(items)
    && forall i | 0 <= i < |items| :: items[i].quantity >= 1 && items[i].product.stock >= 1
  }

  /** Every quantity is within the stock stored on its own line. */
  predicate Capped(items: seq<CartLine>) {
    forall i | 0 <= i < |items| :: items[i].quantity <= items[i].product.stock
  }

  /** `Array.prototype.find` by product id: the first line carrying `id`, if any. */
  function Find(items: seq<CartLine>, id: int): (r: Option<CartLine>)
    ensures r.None? <==> Absent(items, id)
    ensures r.Some? ==> r.value.product.id == id && r.value in items
    ensures forall k | 0 <= k < |items| && items[k].product.id == id
                       && (forall j | 0 <= j < k :: items[j].product.id != id) ::
      r == Some(items[k])
  {
    if items == [] then None
    else if items[0].product.id == id then Some(items[0])
    else
      assert forall i | 0 <= i < |items| - 1 :: items[1..][i] == items[i + 1];
      Find(items[1..], id)
  }

  /** The `map` that rewrites every line carrying `id` to quantity `q` and keeps every other line. */
  function SetQuantity(items: seq<CartLine>, id: int, q: int): (r: seq<CartLine>)
    ensures |r| == |items|
    ensures forall i | 0 <= i < |r| ::
      r[i] == if items[i].product.id == id then items[i].(quantity := q) else items[i]
  {
    if items == [] then []
    else [if items[0].product.id == id then items[0].(quantity := q) else items[0]]
         + SetQuantity(items[1..], id, q)
  }

  /**
   * addToCart: out-of-stock products are ignored; a product already in the cart
   * has its quantity bumped by one and clamped to the stock of the product passed
   * in; any other product is appended with quantity 1.
   */
  function AddLine(items: seq<CartLine>, p: Product): (r: seq<CartLine>)
    ensures p.stock == 0 ==> r == items
    ensures p.stock > 0 && Absent(items, p.id) ==> r == items + [CartLine(p, 1)]
    ensures !Absent(items, p.id) ==> |r| == |items|
    ensures forall i | 0 <= i < |items| && i < |r| :: r[i].product == items[i].product
  {
    if p.stock == 0 then items
    else match Find(items, p.id)
      case Some(line) => SetQuantity(items, p.id, Min(line.quantity + 1, p.stock))
      case None => items + [CartLine(p, 1)]
  }

  /** removeFromCart: the `filter` that drops every line carrying `id`. */
  function RemoveLine(items: seq<CartLine>, id: int): (r: seq<CartLine>)
    ensures forall i | 0 <= i < |r| :: r[i] in items && r[i].product.id != id
    ensures forall i | 0 <= i < |items| && items[i].product.id != id :: items[i] in r
    ensures Absent(r, id)
    ensures Absent(items, id) ==> r == items
    ensures |r| <= |items|
  {
    if items == [] then []
    else (if items[0].product.id == id then [] else [items[0]]) + RemoveLine(items[1..], id)
  }

  /**
   * updateQuantity: an absolute quantity below 1 removes the line; an id not in
   * the cart leaves it unchanged; otherwise the quantity is clamped to the stock
   * stored on the line.
   */
  function UpdateLine(items: seq<CartLine>, id: int, quantity: int): (r: seq<CartLine>)
    ensures quantity < 1 ==> r == RemoveLine(items, id)
    ensures quantity >= 1 && Absent(items, id) ==> r == items
    ensures quantity >= 1 ==> |r| == |items|
    ensures quantity >= 1 ==> forall i | 0 <= i < |r| :: r[i].product == items[i].product
  {
    if quantity < 1 then RemoveLine(items, id)
    else match Find(items, id)
      case None => items
      case Some(line) => SetQuantity(items, id, Min(quantity, line.product.stock))
  }

  /** getItemCount: the left fold adding up quantities (not the number of lines). */
  function ItemCount(items: seq<CartLine>): (n: int)
    ensures items == [] ==> n == 0
  {
    if items == [] then 0
    else ItemCount(items[..|items| - 1]) + items[|items| - 1].quantity
  }

  /** With every quantity at least 1, the count is at least the number of lines. */
  lemma {:induction false} CountAtLeastLines(items: seq<CartLine>)
    requires forall i | 0 <= i < |items| :: items[i].quantity >= 1
    ensures ItemCount(items) >= |items|
  {
    if items != [] {
      var init := items[..|items| - 1];
      assert forall i | 0 <= i < |init| :: init[i] == items[i];
      CountAtLeastLines(init);
    }
  }

  /** The unit price after the product's discount; a zero discount is no discount. */
  function EffectivePrice(p: Product): (r: real)
    ensures p.discountPercentage == 0.0 ==> r == p.price
    ensures 0.0 <= p.price && 0.0 <= p.discountPercentage <= 100.0 ==> 0.0 <= r <= p.price
  {
    if p.discountPercentage != 0.0 then
      var keep := 1.0 - p.discountPercentage / 100.0;
      assert 0.0 <= p.price && 0.0 <= keep <= 1.0 ==> p.price * keep <= p.price * 1.0;
      p.price * keep
    else p.price
  }

  function LineTotal(line: CartLine): real {
    EffectivePrice(line.product) * line.quantity as real
  }

  /** Prices are non-negative, discounts are percentages and quantities are non-negative. */
  predicate Priced(items: seq<CartLine>) {
    forall i | 0 <= i < |items| ::
      && 0.0 <= items[i].product.price
      && 0.0 <= items[i].product.discountPercentage <= 100.0
      && items[i].quantity >= 0
  }

  /** The left fold adding up `f` of every line, from 0. */
  function SumOf(items: seq<CartLine>, f: CartLine -> real): real {
    if items == [] then 0.0
    else SumOf(items[..|items| - 1], f) + f(items[|items| - 1])
  }

  /** getTotal: the left fold adding up effective price times quantity. */
  function Total(items: seq<CartLine>): (t: real)
    ensures items == [] ==> t == 0.0
  {
    SumOf(items, LineTotal)
  }

  /** Non-negative prices, percentage discounts and non-negative quantities give a non-negative total. */
  lemma {:induction false} TotalNonNegative(items: seq<CartLine>)
    requires Priced(items)
    ensures Total(items) >= 0.0
  {
    if items != [] {
      var init, last := items[..|items| - 1], items[|items| - 1];
      assert Priced(init) by {
        forall i | 0 <= i < |init| ensures init[i] == items[i] { }
      }
      TotalNonNegative(init);
      assert Total(items) == Total(init) + LineTotal(last);
      var e := EffectivePrice(last.product);
      assert 0.0 <= e;
      assert 0.0 <= e * last.quantity as real;
    }
  }

  // ---------------------------------------------------------------------------
  // Properties of the list operations
  // ---------------------------------------------------------------------------

  lemma UniqueTail(items: seq<CartLine>)
    requires UniqueIds(items) && items != []
    ensures UniqueIds(items[1..])
  {
    forall i, j | 0 <= i < j < |items| - 1
      ensures items[1..][i].product.id != items[1..][j].product.id
    {
      assert items[1..][i] == items[i + 1] && items[1..][j] == items[j + 1];
    }
  }

  /** With unique ids, `find` returns the one line carrying the id. */
  lemma {:induction false} FindUnique(items: seq<CartLine>, k: nat)
    requires UniqueIds(items) && k < |items|
    ensures Find(items, items[k].product.id) == Some(items[k])
  {
    if k > 0 {
      UniqueTail(items);
      assert items[1..][k - 1] == items[k];
      FindUnique(items[1..], k - 1);
    }
  }

  /**
   * Adding a product already in the cart (at index k) rewrites only that line:
   * its quantity becomes min(q + 1, stock passed in), which may even lower it,
   * and its stored product fields are untouched.
   */
  lemma AddExisting(items: seq<CartLine>, p: Product, k: nat)
    requires UniqueIds(items) && k < |items| && items[k].product.id == p.id && p.stock > 0
    ensures |AddLine(items, p)| == |items|
    ensures AddLine(items, p)[k] == items[k].(quantity := Min(items[k].quantity + 1, p.stock))
    ensures forall j | 0 <= j < |items| && j != k :: AddLine(items, p)[j] == items[j]
  {
    FindUnique(items, k);
  }

  /** Setting quantity on a line at index k of a unique-id list changes only that line. */
  lemma UpdateExisting(items: seq<CartLine>, id: int, quantity: int, k: nat)
    requires UniqueIds(items) && k < |items| && items[k].product.id == id && quantity >= 1
    ensures |UpdateLine(items, id, quantity)| == |items|
    ensures UpdateLine(items, id, quantity)[k]
      == items[k].(quantity := Min(quantity, items[k].product.stock))
    ensures forall j | 0 <= j < |items| && j != k :: UpdateLine(items, id, quantity)[j] == items[j]
  {
    FindUnique(items, k);
  }

  /** The removal filter distributes over concatenation. */
  lemma {:induction false} RemoveAppend(a: seq<CartLine>, b: seq<CartLine>, id: int)
    ensures RemoveLine(a + b, id) == RemoveLine(a, id) + RemoveLine(b, id)
  {
    if a == [] {
      assert a + b == b;
    } else {
      assert (a + b)[0] == a[0] && (a + b)[1..] == a[1..] + b;
      RemoveAppend(a[1..], b, id);
    }
  }

  /** Removing the id of the one line that carries it cuts out exactly that line. */
  lemma RemoveOnly(pre: seq<CartLine>, x: CartLine, post: seq<CartLine>)
    requires Absent(pre, x.product.id) && Absent(post, x.product.id)
    ensures RemoveLine(pre + [x] + post, x.product.id) == pre + post
  {
    var id := x.product.id;
    RemoveAppend(pre + [x], post, id);
    RemoveAppend(pre, [x], id);
    assert [x][1..] == [];
    assert RemoveLine([x], id) == [];
    assert RemoveLine(pre, id) == pre;
    assert RemoveLine(post, id) == post;
    assert RemoveLine(pre + [x], id) == pre + [];
    assert pre + [] == pre;
    assert RemoveLine(pre + [x] + post, id) == pre + post;
  }

  /** With unique ids, removing the id of line k is exactly cutting out line k, keeping order. */
  lemma RemoveExisting(items: seq<CartLine>, k: nat)
    requires UniqueIds(items) && k < |items|
    ensures RemoveLine(items, items[k].product.id) == items[..k] + items[k + 1..]
  {
    var id, pre, post := items[k].product.id, items[..k], items[k + 1..];
    assert items == pre + [items[k]] + post;
    assert Absent(pre, id) by {
      forall i | 0 <= i < |pre| ensures pre[i].product.id != id {
        assert pre[i] == items[i];
      }
    }
    assert Absent(post, id) by {
      forall i | 0 <= i < |post| ensures post[i].product.id != id {
        assert post[i] == items[k + 1 + i];
      }
    }
    RemoveOnly(pre, items[k], post);
  }

  /** addToCart keeps the invariant. */
  lemma AddPreservesWellFormed(items: seq<CartLine>, p: Product)
    requires WellFormed(items)
    ensures WellFormed(AddLine(items, p))
  {
    var r := AddLine(items, p);
    if p.stock > 0 && !Absent(items, p.id) {
      var k :| 0 <= k < |items| && items[k].product.id == p.id;
      AddExisting(items, p, k);
    }
  }

  /** Cutting one line out of a well-formed list leaves a well-formed list. */
  lemma CutPreservesWellFormed(items: seq<CartLine>, k: nat)
    requires WellFormed(items) && k < |items|
    ensures WellFormed(items[..k] + items[k + 1..])
  {
    var r := items[..k] + items[k + 1..];
    assert forall i | 0 <= i < |r| :: r[i] == items[if i < k then i else i + 1];
  }

  /** removeFromCart keeps the invariant. */
  lemma RemovePreservesWellFormed(items: seq<CartLine>, id: int)
    requires WellFormed(items)
    ensures WellFormed(RemoveLine(items, id))
  {
    if !Absent(items, id) {
      var k :| 0 <= k < |items| && items[k].product.id == id;
      RemoveExisting(items, k);
      CutPreservesWellFormed(items, k);
    }
  }

  /** updateQuantity keeps the invariant. */
  lemma UpdatePreservesWellFormed(items: seq<CartLine>, id: int, quantity: int)
    requires WellFormed(items)
    ensures WellFormed(UpdateLine(items, id, quantity))
  {
    if quantity < 1 {
      RemovePreservesWellFormed(items, id);
    } else if !Absent(items, id) {
      var k :| 0 <= k < |items| && items[k].product.id == id;
      UpdateExisting(items, id, quantity, k);
    }
  }

  /** removeFromCart keeps every quantity within its line's stored stock. */
  lemma RemovePreservesCapped(items: seq<CartLine>, id: int)
    requires Capped(items)
    ensures Capped(RemoveLine(items, id))
  {
    var r := RemoveLine(items, id);
    forall i | 0 <= i < |r| ensures r[i].quantity <= r[i].product.stock {
      assert r[i] in items;
    }
  }

  /** updateQuantity keeps every quantity within its line's stored stock. */
  lemma UpdatePreservesCapped(items: seq<CartLine>, id: int, quantity: int)
    requires Capped(items) && UniqueIds(items)
    ensures Capped(UpdateLine(items, id, quantity))
  {
    if quantity < 1 {
      RemovePreservesCapped(items, id);
    } else if !Absent(items, id) {
      var k :| 0 <= k < |items| && items[k].product.id == id;
      UpdateExisting(items, id, quantity, k);
    }
  }

  /** addToCart keeps quantities within the stored stock when it is given the same stock the line stored. */
  lemma AddPreservesCapped(items: seq<CartLine>, p: Product)
    requires Capped(items) && UniqueIds(items)
    requires forall i | 0 <= i < |items| && items[i].product.id == p.id :: items[i].product.stock == p.stock
    ensures Capped(AddLine(items, p))
  {
    if p.stock > 0 && !Absent(items, p.id) {
      var k :| 0 <= k < |items| && items[k].product.id == p.id;
      AddExisting(items, p, k);
    }
  }

  /**
   * addToCart clamps to the stock of the product passed in but keeps the stock
   * stored on the line, so when the catalog's stock has grown the quantity can
   * exceed the stored stock.
   */
  lemma AddMayExceedStoredStock()
    ensures var stored := Product(1, "t", 10.0, "c", 1, 4.0, 0.0);
            var items := [CartLine(stored, 1)];
            var r := AddLine(items, stored.(stock := 5));
            Capped(items) && !Capped(r) && r[0].quantity == 2 && r[0].product.stock == 1
  {
    var stored := Product(1, "t", 10.0, "c", 1, 4.0, 0.0);
    FindUnique([CartLine(stored, 1)], 0);
  }

  // ---------------------------------------------------------------------------
  // The two folds
  // ---------------------------------------------------------------------------

  /** The item count distributes over concatenation. */
  lemma {:induction false} CountAppend(a: seq<CartLine>, b: seq<CartLine>)
    ensures ItemCount(a + b) == ItemCount(a) + ItemCount(b)
  {
    if b == [] {
      assert a + b == a;
    } else {
      var b' := b[..|b| - 1];
      assert (a + b)[..|a + b| - 1] == a + b';
      assert (a + b)[|a + b| - 1] == b[|b| - 1];
      CountAppend(a, b');
    }
  }

  /** A fold of line contributions distributes over concatenation. */
  lemma {:induction false} SumAppend(a: seq<CartLine>, b: seq<CartLine>, f: CartLine -> real)
    ensures SumOf(a + b, f) == SumOf(a, f) + SumOf(b, f)
  {
    if b == [] {
      assert a + b == a;
    } else {
      var b' := b[..|b| - 1];
      assert (a + b)[..|a + b| - 1] == a + b';
      assert (a + b)[|a + b| - 1] == b[|b| - 1];
      SumAppend(a, b', f);
    }
  }

  /** A single line contributes its quantity and its line total. */
  lemma SingleFolds(x: CartLine)
    ensures ItemCount([x]) == x.quantity && Total([x]) == LineTotal(x)
  {
    assert [x][..0] == [];
    assert SumOf([x], LineTotal) == SumOf([], LineTotal) + LineTotal(x);
  }

  /** Cutting line k out subtracts exactly its quantity. */
  lemma {:induction false} CutCount(items: seq<CartLine>, k: nat)
    requires k < |items|
    ensures ItemCount(items[..k] + items[k + 1..]) == ItemCount(items) - items[k].quantity
  {
    var init := items[..|items| - 1];
    if k == |items| - 1 {
      assert items[..k] + items[k + 1..] == init;
    } else {
      var cut := init[..k] + init[k + 1..];
      assert items[..k] + items[k + 1..] == cut + [items[|items| - 1]];
      assert (cut + [items[|items| - 1]])[..|cut|] == cut;
      assert init[k] == items[k];
      CutCount(init, k);
    }
  }

  /** Cutting line k out of a fold of line contributions subtracts exactly its contribution. */
  lemma {:induction false} SumCut(items: seq<CartLine>, k: nat, f: CartLine -> real)
    requires k < |items|
    ensures SumOf(items[..k] + items[k + 1..], f) == SumOf(items, f) - f(items[k])
  {
    var init := items[..|items| - 1];
    if k == |items| - 1 {
      assert items[..k] + items[k + 1..] == init;
    } else {
      var cut := init[..k] + init[k + 1..];
      assert items[..k] + items[k + 1..] == cut + [items[|items| - 1]];
      assert (cut + [items[|items| - 1]])[..|cut|] == cut;
      assert init[k] == items[k];
      SumCut(init, k, f);
    }
  }

  /** Replacing line k by x changes the folds by exactly that line's contribution. */
  lemma ReplaceFolds(items: seq<CartLine>, k: nat, x: CartLine)
    requires k < |items|
    ensures ItemCount(items[k := x]) == ItemCount(items) - items[k].quantity + x.quantity
    ensures Total(items[k := x]) == Total(items) - LineTotal(items[k]) + LineTotal(x)
  {
    var pre, post := items[..k], items[k + 1..];
    assert items[k := x] == (pre + [x]) + post;
    assert items[k := x][..k] + items[k := x][k + 1..] == pre + post;
    CutCount(items, k);
    CutCount(items[k := x], k);
    SumCut(items, k, LineTotal);
    SumCut(items[k := x], k, LineTotal);
  }

  /** Changing a line's quantity changes its line total by the difference times the effective price. */
  lemma ShiftLineTotal(line: CartLine, q: int)
    ensures LineTotal(line.(quantity := q)) - LineTotal(line)
      == EffectivePrice(line.product) * (q - line.quantity) as real
  {
    var e := EffectivePrice(line.product);
    assert e * q as real - e * line.quantity as real == e * (q as real - line.quantity as real);
  }

  /** Adding a new product adds one item and its effective price. */
  lemma AddNewFolds(items: seq<CartLine>, p: Product)
    requires p.stock > 0 && Absent(items, p.id)
    ensures ItemCount(AddLine(items, p)) == ItemCount(items) + 1
    ensures Total(AddLine(items, p)) == Total(items) + EffectivePrice(p)
  {
    CountAppend(items, [CartLine(p, 1)]);
    SumAppend(items, [CartLine(p, 1)], LineTotal);
    SingleFolds(CartLine(p, 1));
  }

  /**
   * Adding a product already at line k changes the count by the (clamped) step,
   * possibly downwards, and the total by the change of that line's total (see
   * ShiftLineTotal for the change as step times effective price).
   */
  lemma AddExistingFolds(items: seq<CartLine>, p: Product, k: nat)
    requires UniqueIds(items) && k < |items| && items[k].product.id == p.id && p.stock > 0
    ensures ItemCount(AddLine(items, p))
      == ItemCount(items) - items[k].quantity + Min(items[k].quantity + 1, p.stock)
    ensures Total(AddLine(items, p))
      == Total(items) - LineTotal(items[k])
         + LineTotal(items[k].(quantity := Min(items[k].quantity + 1, p.stock)))
  {
    AddExisting(items, p, k);
    var x := items[k].(quantity := Min(items[k].quantity + 1, p.stock));
    assert AddLine(items, p) == items[k := x];
    ReplaceFolds(items, k, x);
  }

  /** Removing the line at k subtracts exactly its quantity and its line total. */
  lemma RemoveFolds(items: seq<CartLine>, k: nat)
    requires UniqueIds(items) && k < |items|
    ensures ItemCount(RemoveLine(items, items[k].product.id)) == ItemCount(items) - items[k].quantity
    ensures Total(RemoveLine(items, items[k].product.id)) == Total(items) - LineTotal(items[k])
  {
    RemoveExisting(items, k);
    CutCount(items, k);
    SumCut(items, k, LineTotal);
  }

  /**
   * Setting the quantity of line k changes the count and the total to reflect the
   * clamped quantity.
   */
  lemma UpdateExistingFolds(items: seq<CartLine>, id: int, quantity: int, k: nat)
    requires UniqueIds(items) && k < |items| && items[k].product.id == id && quantity >= 1
    ensures ItemCount(UpdateLine(items, id, quantity))
      == ItemCount(items) - items[k].quantity + Min(quantity, items[k].product.stock)
    ensures Total(UpdateLine(items, id, quantity))
      == Total(items) - LineTotal(items[k])
         + LineTotal(items[k].(quantity := Min(quantity, items[k].product.stock)))
  {
    UpdateExisting(items, id, quantity, k);
    var x := items[k].(quantity := Min(quantity, items[k].product.stock));
    assert UpdateLine(items, id, quantity) == items[k := x];
    ReplaceFolds(items, k, x);
  }

  /** Two lines of quantities 2 and 3 count 5 items, not 2. */
  lemma CountIsQuantitiesNotLines(a: Product, b: Product)
    ensures ItemCount([CartLine(a, 2), CartLine(b, 3)]) == 5
  {
    assert [CartLine(a, 2), CartLine(b, 3)][..1] == [CartLine(a, 2)];
  }

  /** One line of price 100 at 20% off, quantity 2, totals 160. */
  lemma DiscountedTotal(p: Product)
    requires p.price == 100.0 && p.discountPercentage == 20.0
    ensures Total([CartLine(p, 2)]) == 160.0
  {
    SingleFolds(CartLine(p, 2));
  }

  // ---------------------------------------------------------------------------
  // The cart provider
  // ---------------------------------------------------------------------------

  /** The cart provider's state: the current list of lines, replaced by each operation. */
  class CartStore {
    var items: seq<CartLine>

    ghost predicate Valid()
      reads this
    {
      WellFormed(items)
    }

    /** A fresh provider starts with an empty cart. */
    constructor ()
      ensures Valid() && items == []
      ensures ItemCount(items) == 0 && Total(items) == 0.0
    {
      items := [];
    }

    method AddToCart(p: Product)
      requires Valid()
      modifies this
      ensures Valid()
      ensures items == AddLine(old(items), p)
    {
      AddPreservesWellFormed(items, p);
      if p.stock == 0 {
        return;
      }
      var existing := Find(items, p.id);
      if existing.Some? {
        items := SetQuantity(items, p.id, Min(existing.value.quantity + 1, p.stock));
      } else {
        items := items + [CartLine(p, 1)];
      }
    }

    method RemoveFromCart(id: int)
      requires Valid()
      modifies this
      ensures Valid()
      ensures items == RemoveLine(old(items), id)
    {
      RemovePreservesWellFormed(items, id);
      items := RemoveLine(items, id);
    }

    method UpdateQuantity(id: int, quantity: int)
      requires Valid()
      modifies this
      ensures Valid()
      ensures items == UpdateLine(old(items), id, quantity)
    {
      UpdatePreservesWellFormed(items, id, quantity);
      if quantity < 1 {
        RemoveFromCart(id);
        return;
      }
      var line := Find(items, id);
      if line.None? {
        return;
      }
      items := SetQuantity(items, id, Min(quantity, line.value.product.stock));
    }

    method ClearCart()
      requires Valid()
      modifies this
      ensures Valid() && items == []
      ensures ItemCount(items) == 0 && Total(items) == 0.0
    {
      items := [];
    }
  }
}
