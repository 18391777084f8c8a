/** The cart store: an ordered list of lines `{product, quantity}` keyed by product
    id, with the operations add (merging into an existing line), remove, update
    and clear, and the derived item count and subtotal. */
module Cart {
  import opened Common
  import Pricing

  datatype CartItem = CartItem(product: Product, quantity: int)

  const AddFailedMessage := "Failed to add item to cart. Please try again."
  const OutOfStockMessage := "This item is out of stock."

  predicate HasId(items: seq<CartItem>, id: string) {
    exists i :: 0 <= i < |items| && items[i].product.id == id
  }

  /** No two lines are for the same product. */
  predicate IdsUnique(items: seq<CartItem>) {
    forall i, j :: 0 <= i < j < |items| ==> items[i].product.id != items[j].product.id
  }

  /** Index of the first line for product `id`, `|items|` when there is none
      (`find` in the source). */
  function FirstIndex(items: seq<CartItem>, id: string): (k: nat)
    ensures k <= |items|
    ensures k < |items| ==> items[k].product.id == id
    ensures forall i :: 0 <= i < k ==> items[i].product.id != id
  {
    if items == [] then 0
    else if items[0].product.id == id then 0
    else 1 + FirstIndex(items[1..], id)
  }

  /** Every line for product `id` gets quantity `q`; the others are kept. */
  function SetQuantity(items: seq<CartItem>, id: string, q: int): (r: seq<CartItem>)
    ensures |r| == |items|
    ensures forall i :: 0 <= i < |items| ==> r[i].product == items[i].product
    ensures forall i :: 0 <= i < |items| ==>
              r[i].quantity == if items[i].product.id == id then q else items[i].quantity
  {
    seq(|items|, i requires 0 <= i < |items| =>
      if items[i].product.id == id then items[i].(quantity := q) else items[i])
  }

  /** The list update of `addToCart` once the product is known to be in stock. The
      new quantity is checked against the stock of the product passed in; a product
      not yet in the cart is appended without any stock check. */
  function MergeAdd(items: seq<CartItem>, product: Product, quantity: int): (r: seq<CartItem>)
    ensures HasId(items, product.id) ==> |r| == |items|
    ensures !HasId(items, product.id) ==> r == items + [CartItem(product, quantity)]
    ensures HasId(r, product.id)
  {
    var k := FirstIndex(items, product.id);
    if k < |items| then
      var newQuantity := items[k].quantity + quantity;
      if newQuantity > product.stock then items else SetQuantity(items, product.id, newQuantity)
    else
      var r := items + [CartItem(product, quantity)];
      assert r[|items|].product.id == product.id;
      r
  }

  /** The list update of `updateQuantity`: a quantity below 1 is ignored, otherwise
      the product's lines get the quantity capped at their stored product's stock. */
  function UpdateQuantity(items: seq<CartItem>, id: string, quantity: int): (r: seq<CartItem>)
    ensures |r| == |items|
    ensures quantity < 1 ==> r == items
    ensures forall i :: 0 <= i < |items| ==> r[i].product == items[i].product
    ensures forall i :: 0 <= i < |items| && items[i].product.id != id ==> r[i] == items[i]
    ensures quantity >= 1 ==> forall i :: 0 <= i < |items| && items[i].product.id == id ==>
              r[i].quantity == Min(quantity, items[i].product.stock)
  {
    if quantity < 1 then items
    else
      seq(|items|, i requires 0 <= i < |items| =>
        if items[i].product.id == id then items[i].(quantity := Min(quantity, items[i].product.stock))
        else items[i])
  }

  /** The list update of `removeFromCart`: the lines of other products, in order. */
  function Remove(items: seq<CartItem>, id: string): (r: seq<CartItem>)
    ensures |r| <= |items|
    ensures forall x :: x in r <==> x in items && x.product.id != id
  {
    if items == [] then []
    else if items[0].product.id == id then Remove(items[1..], id)
    else [items[0]] + Remove(items[1..], id)
  }

  /** Sum of the quantities. */
  function ItemCount(items: seq<CartItem>): (n: int)
    ensures (forall i :: 0 <= i < |items| ==> items[i].quantity >= 0) ==> n >= 0
  {
    if items == [] then 0 else items[0].quantity + ItemCount(items[1..])
  }

  /** Sum of price times quantity, in cents. */
  function Subtotal(items: seq<CartItem>): (t: int)
    ensures (forall i :: 0 <= i < |items| ==> items[i].quantity >= 0 && items[i].product.price >= 0) ==> t >= 0
  {
    if items == [] then 0 else items[0].product.price * items[0].quantity + Subtotal(items[1..])
  }

  // ---- lemmas about the list updates ---------------------------------------------

  lemma {:induction false} ItemCountAppend(a: seq<CartItem>, b: seq<CartItem>)
    ensures ItemCount(a + b) == ItemCount(a) + ItemCount(b)
    ensures Subtotal(a + b) == Subtotal(a) + Subtotal(b)
  {
    if a == [] {
      assert a + b == b;
    } else {
      assert (a + b)[1..] == a[1..] + b;
      ItemCountAppend(a[1..], b);
    }
  }

  /** In a list with unique ids, the first line for `id` is the only one. */
  lemma OnlyLine(items: seq<CartItem>, id: string, k: nat)
    requires IdsUnique(items) && k < |items| && items[k].product.id == id
    ensures forall i :: 0 <= i < |items| && i != k ==> items[i].product.id != id
  {
  }

  /** Changing the quantity of line `k` changes the count by the difference. */
  lemma {:induction false} ItemCountUpdate(items: seq<CartItem>, k: nat, q: int)
    requires k < |items|
    ensures ItemCount(items[k := items[k].(quantity := q)]) == ItemCount(items) - items[k].quantity + q
    ensures Subtotal(items[k := items[k].(quantity := q)]) ==
            Subtotal(items) + items[k].product.price * (q - items[k].quantity)
  {
    CountAfterUpdate(items, k, q);
    SubtotalAfterUpdate(items, k, q);
  }

  lemma {:induction false} CountAfterUpdate(items: seq<CartItem>, k: nat, q: int)
    requires k < |items|
    ensures ItemCount(items[k := items[k].(quantity := q)]) == ItemCount(items) - items[k].quantity + q
  {
    var u := items[k := items[k].(quantity := q)];
    if k > 0 {
      assert u[1..] == items[1..][k - 1 := items[k].(quantity := q)];
      CountAfterUpdate(items[1..], k - 1, q);
    } else {
      assert u[1..] == items[1..];
    }
  }

  lemma {:induction false} SubtotalAfterUpdate(items: seq<CartItem>, k: nat, q: int)
    requires k < |items|
    ensures Subtotal(items[k := items[k].(quantity := q)]) ==
            Subtotal(items) + items[k].product.price * (q - items[k].quantity)
  {
    var u := items[k := items[k].(quantity := q)];
    if k > 0 {
      assert u[1..] == items[1..][k - 1 := items[k].(quantity := q)];
      SubtotalAfterUpdate(items[1..], k - 1, q);
    } else {
      assert u[1..] == items[1..];
    }
  }

  /** Adding a product already in the cart: when the sum stays within the passed
      product's stock only that line changes, to the sum; otherwise nothing changes. */
  lemma {:induction false} MergeAddExisting(items: seq<CartItem>, product: Product, quantity: int)
    requires IdsUnique(items) && HasId(items, product.id)
    ensures var k := FirstIndex(items, product.id);
            var newQuantity := items[k].quantity + quantity;
            && k < |items|
            && (newQuantity <= product.stock ==>
                  MergeAdd(items, product, quantity) == items[k := items[k].(quantity := newQuantity)])
            && (newQuantity > product.stock ==> MergeAdd(items, product, quantity) == items)
  {
    var k := FirstIndex(items, product.id);
    var newQuantity := items[k].quantity + quantity;
    if newQuantity <= product.stock {
      OnlyLine(items, product.id, k);
      var r := SetQuantity(items, product.id, newQuantity);
      var u := items[k := items[k].(quantity := newQuantity)];
      forall i | 0 <= i < |items| ensures r[i] == u[i] {
        if i != k {
          assert items[i].product.id != product.id;
        }
      }
      assert r == u;
    }
  }

  /** Adding a product not in the cart appends exactly one line with the requested
      quantity, whatever the stock. */
  lemma MergeAddNew(items: seq<CartItem>, product: Product, quantity: int)
    requires !HasId(items, product.id)
    ensures MergeAdd(items, product, quantity) == items + [CartItem(product, quantity)]
  {
  }

  /** The merge goes through: the product is new, or the sum stays within the
      stock of the product passed in. */
  predicate MergeAccepted(items: seq<CartItem>, product: Product, quantity: int) {
    var k := FirstIndex(items, product.id);
    k == |items| || items[k].quantity + quantity <= product.stock
  }

  /** A merge that goes through adds the requested quantity to the item count and
      adds its price, taken from the line's stored product, to the subtotal; a
      refused one changes nothing. */
  lemma {:induction false} MergeAddCount(items: seq<CartItem>, product: Product, quantity: int)
    requires IdsUnique(items)
    ensures var r := MergeAdd(items, product, quantity);
            var k := FirstIndex(items, product.id);
            && (MergeAccepted(items, product, quantity) ==>
                  && ItemCount(r) == ItemCount(items) + quantity
                  && Subtotal(r) == Subtotal(items)
                                    + (if k < |items| then items[k].product.price else product.price) * quantity)
            && (!MergeAccepted(items, product, quantity) ==> r == items)
  {
    var k := FirstIndex(items, product.id);
    if k < |items| {
      MergedLineCount(items, product, quantity, k);
    } else {
      AppendedLineCount(items, CartItem(product, quantity));
    }
  }

  lemma {:induction false} MergedLineCount(items: seq<CartItem>, product: Product, quantity: int, k: nat)
    requires IdsUnique(items) && k == FirstIndex(items, product.id) && k < |items|
    ensures items[k].quantity + quantity <= product.stock ==>
              && ItemCount(MergeAdd(items, product, quantity)) == ItemCount(items) + quantity
              && Subtotal(MergeAdd(items, product, quantity)) == Subtotal(items) + items[k].product.price * quantity
  {
    assert HasId(items, product.id);
    MergeAddExisting(items, product, quantity);
    var q := items[k].quantity + quantity;
    if q <= product.stock {
      var u := items[k := items[k].(quantity := q)];
      assert MergeAdd(items, product, quantity) == u;
      ItemCountUpdate(items, k, q);
      assert ItemCount(u) == ItemCount(items) + quantity;
      assert Subtotal(u) == Subtotal(items) + items[k].product.price * (q - items[k].quantity);
      assert q - items[k].quantity == quantity;
    }
  }

  lemma {:induction false} AppendedLineCount(items: seq<CartItem>, line: CartItem)
    ensures ItemCount(items + [line]) == ItemCount(items) + line.quantity
    ensures Subtotal(items + [line]) == Subtotal(items) + line.product.price * line.quantity
  {
    ItemCountAppend(items, [line]);
    assert [line][1..] == [];
  }

  lemma MergeAddUnique(items: seq<CartItem>, product: Product, quantity: int)
    requires IdsUnique(items)
    ensures IdsUnique(MergeAdd(items, product, quantity))
    ensures HasId(MergeAdd(items, product, quantity), product.id)
  {
    var k := FirstIndex(items, product.id);
    var r := MergeAdd(items, product, quantity);
    if k < |items| {
      assert r[k].product.id == product.id;
    } else {
      assert r[|items|].product.id == product.id;
    }
  }

  lemma UpdateQuantityUnique(items: seq<CartItem>, id: string, quantity: int)
    requires IdsUnique(items)
    ensures IdsUnique(UpdateQuantity(items, id, quantity))
  {
  }

  /** Removal keeps the other lines in their order: it distributes over concatenation. */
  lemma {:induction false} RemoveAppend(a: seq<CartItem>, b: seq<CartItem>, id: string)
    ensures Remove(a + b, id) == Remove(a, id) + Remove(b, id)
  {
    if a == [] {
      assert a + b == b;
    } else {
      assert (a + b)[1..] == a[1..] + b;
      RemoveAppend(a[1..], b, id);
    }
  }

  /** Removing a product that has no line changes nothing. */
  lemma {:induction false} RemoveAbsent(items: seq<CartItem>, id: string)
    requires !HasId(items, id)
    ensures Remove(items, id) == items
  {
    if items != [] {
      assert !HasId(items[1..], id) by {
        assert forall i :: 0 <= i < |items[1..]| ==> items[1..][i] == items[i + 1];
      }
      RemoveAbsent(items[1..], id);
    }
  }

  /** The lines that remain are a subsequence of the old ones, so unique ids stay unique. */
  lemma {:induction false} RemoveUnique(items: seq<CartItem>, id: string)
    requires IdsUnique(items)
    ensures IdsUnique(Remove(items, id))
  {
    if items != [] {
      RemoveUnique(items[1..], id);
      var rest := Remove(items[1..], id);
      if items[0].product.id != id {
        forall x | x in rest ensures x.product.id != items[0].product.id {
          var i :| 0 <= i < |items[1..]| && items[1..][i] == x;
          assert items[i + 1] == x;
        }
        assert ([items[0]] + rest)[1..] == rest;
      }
    }
  }

  /** Removing the only line of a product lowers the count by its quantity. */
  lemma {:induction false} RemoveCount(items: seq<CartItem>, id: string)
    requires IdsUnique(items) && HasId(items, id)
    ensures var k := FirstIndex(items, id);
            ItemCount(Remove(items, id)) == ItemCount(items) - items[k].quantity
  {
    var tail := items[1..];
    if items[0].product.id == id {
      assert !HasId(tail, id) by {
        forall i | 0 <= i < |tail| ensures tail[i].product.id != id {
          assert tail[i] == items[i + 1];
        }
      }
      RemoveAbsent(tail, id);
    } else {
      assert HasId(tail, id) by {
        var i :| 0 <= i < |items| && items[i].product.id == id;
        assert tail[i - 1] == items[i];
      }
      RemoveCount(tail, id);
    }
  }

  // ---- the store -----------------------------------------------------------------

  class CartStore {
    var items: seq<CartItem>
    var isLoading: bool

    /** Every line is for a different product. */
    predicate Valid()
      reads this
    {
      IdsUnique(items)
    }

    constructor ()
      ensures items == [] && !isLoading && Valid()
    {
      items := [];
      isLoading := false;
    }

    function Count(): (n: int)
      reads this
      ensures n == ItemCount(items)
      ensures items == [] ==> n == 0
    {
      ItemCount(items)
    }

    /** The cart's subtotal, shipping and total, by the shared rule. */
    function Total(): (t: real)
      reads this
      ensures t == Pricing.Total(Subtotal(items))
      ensures Subtotal(items) >= 0 ==> t >= Subtotal(items) as real
    {
      Pricing.Total(Subtotal(items))
    }

    /** `addToCart`. `fails` stands for the simulated 5% network failure. A refused
        merge (over stock) still reports success. */
    method AddToCart(product: Product, quantity: int, fails: bool) returns (r: Result<()>)
      requires Valid()
      modifies this
      ensures Valid() && !isLoading
      ensures fails ==> r == Err(AddFailedMessage) && items == old(items)
      ensures !fails && product.stock == 0 ==> r == Err(OutOfStockMessage) && items == old(items)
      ensures !fails && product.stock != 0 ==> r == Ok(()) && items == MergeAdd(old(items), product, quantity)
    {
      isLoading := true;
      if fails {
        isLoading := false;
        return Err(AddFailedMessage);
      }
      if product.stock == 0 {
        isLoading := false;
        return Err(OutOfStockMessage);
      }
      MergeAddUnique(items, product, quantity);
      items := MergeAdd(items, product, quantity);
      isLoading := false;
      return Ok(());
    }

    method RemoveFromCart(id: string)
      requires Valid()
      modifies this
      ensures Valid() && isLoading == old(isLoading)
      ensures items == Remove(old(items), id) && !HasId(items, id)
    {
      RemoveUnique(items, id);
      items := Remove(items, id);
      assert !HasId(items, id) by {
        forall i | 0 <= i < |items| ensures items[i].product.id != id {
          assert items[i] in items;
        }
      }
    }

    method UpdateItemQuantity(id: string, quantity: int)
      requires Valid()
      modifies this
      ensures Valid() && isLoading == old(isLoading)
      ensures items == UpdateQuantity(old(items), id, quantity)
    {
      UpdateQuantityUnique(items, id, quantity);
      items := UpdateQuantity(items, id, quantity);
    }

    method ClearCart()
      modifies this
      ensures Valid() && isLoading == old(isLoading)
      ensures items == [] && Count() == 0 && Subtotal(items) == 0
    {
      items := [];
    }
  }
}
