/** The wishlist store: an ordered list of products in which no id occurs twice,
    with add (ignored for a product already listed), remove, toggle and clear. */
module Wishlist {
  import opened Common

  /** `items.some(item => item.id === id)`. */
  predicate Contains(items: seq<Product>, id: string) {
    exists i :: 0 <= i < |items| && items[i].id == id
  }

  predicate IdsUnique(items: seq<Product>) {
    forall i, j :: 0 <= i < j < |items| ==> items[i].id != items[j].id
  }

  /** The list update of `addToWishlist`. */
  function Add(items: seq<Product>, product: Product): (r: seq<Product>)
    ensures items <= r && |r| <= |items| + 1
    ensures Contains(r, product.id)
  {
    if Contains(items, product.id) then items
    else
      var r := items + [product];
      assert r[|items|].id == product.id;
      r
  }

  /** The list update of `removeFromWishlist`: the other products, in order. */
  function Remove(items: seq<Product>, id: string): (r: seq<Product>)
    ensures |r| <= |items|
    ensures forall x :: x in r <==> x in items && x.id != id
  {
    if items == [] then []
    else if items[0].id == id then Remove(items[1..], id)
    else [items[0]] + Remove(items[1..], id)
  }

  /** `toggleWishlist`: remove when listed, add otherwise. */
  function Toggle(items: seq<Product>, product: Product): (r: seq<Product>)
    ensures Contains(items, product.id) ==> |r| <= |items| && !Contains(r, product.id)
    ensures !Contains(items, product.id) ==> r == items + [product]
  {
    if Contains(items, product.id) then
      var r := Remove(items, product.id);
      assert forall i :: 0 <= i < |r| ==> r[i] in r;
      r
    else Add(items, product)
  }

  lemma ContainsIff(items: seq<Product>, id: string)
    ensures Contains(items, id) <==> exists x :: x in items && x.id == id
  {
    if exists x :: x in items && x.id == id {
      var x :| x in items && x.id == id;
      var i :| 0 <= i < |items| && items[i] == x;
    }
  }

  /** Adding an already listed product changes nothing; adding a new one appends
      it; either way it is listed afterwards and ids stay unique. */
  lemma AddSpec(items: seq<Product>, product: Product)
    requires IdsUnique(items)
    ensures Contains(items, product.id) ==> Add(items, product) == items
    ensures !Contains(items, product.id) ==> Add(items, product) == items + [product]
    ensures Contains(Add(items, product), product.id)
    ensures IdsUnique(Add(items, product))
  {
    if !Contains(items, product.id) {
      assert (items + [product])[|items|] == product;
    }
  }

  /** Adding twice is adding once. */
  lemma AddIdempotent(items: seq<Product>, product: Product)
    ensures Add(Add(items, product), product) == Add(items, product)
  {
    if !Contains(items, product.id) {
      assert (items + [product])[|items|] == product;
    }
  }

  lemma {:induction false} RemoveAppend(a: seq<Product>, b: seq<Product>, id: string)
    ensures Remove(a + b, id) == Remove(a, id) + Remove(b, id)
  {
    if a == [] {
      assert a + b == b;
    } else {
      assert (a + b)[1..] == a[1..] + b;
      RemoveAppend(a[1..], b, id);
    }
  }

  lemma {:induction false} RemoveAbsent(items: seq<Product>, id: string)
    requires !Contains(items, id)
    ensures Remove(items, id) == items
  {
    if items != [] {
      assert !Contains(items[1..], id) by {
        forall i | 0 <= i < |items[1..]| ensures items[1..][i].id != id {
          assert items[1..][i] == items[i + 1];
        }
      }
      RemoveAbsent(items[1..], id);
    }
  }

  /** After removal the product is no longer listed and ids stay unique. */
  lemma {:induction false} RemoveSpec(items: seq<Product>, id: string)
    requires IdsUnique(items)
    ensures !Contains(Remove(items, id), id)
    ensures IdsUnique(Remove(items, id))
  {
    ContainsIff(Remove(items, id), id);
    if items != [] {
      RemoveSpec(items[1..], id);
      var rest := Remove(items[1..], id);
      if items[0].id != id {
        forall x | x in rest ensures x.id != items[0].id {
          var i :| 0 <= i < |items[1..]| && items[1..][i] == x;
          assert items[i + 1] == x;
        }
        assert ([items[0]] + rest)[1..] == rest;
      }
    }
  }

  /** Toggling an unlisted product twice gives the list back. */
  lemma ToggleTwiceAbsent(items: seq<Product>, product: Product)
    requires !Contains(items, product.id)
    ensures Toggle(Toggle(items, product), product) == items
  {
    var added := items + [product];
    assert Toggle(items, product) == added;
    assert added[|items|] == product;
    RemoveAppend(items, [product], product.id);
    RemoveAbsent(items, product.id);
    assert Remove([product], product.id) == [];
  }

  /** Toggling a listed product twice moves it to the end of the list. */
  lemma ToggleTwicePresent(items: seq<Product>, product: Product)
    requires IdsUnique(items) && Contains(items, product.id)
    ensures Toggle(Toggle(items, product), product) == Remove(items, product.id) + [product]
  {
    RemoveSpec(items, product.id);
  }

  /** Toggling flips whether the product is listed. */
  lemma ToggleFlips(items: seq<Product>, product: Product)
    requires IdsUnique(items)
    ensures Contains(Toggle(items, product), product.id) <==> !Contains(items, product.id)
    ensures IdsUnique(Toggle(items, product))
  {
    RemoveSpec(items, product.id);
    AddSpec(items, product);
  }

  class WishlistStore {
    var items: seq<Product>

    predicate Valid()
      reads this
    {
      IdsUnique(items)
    }

    constructor ()
      ensures items == [] && Valid()
    {
      items := [];
    }

    /** `isInWishlist`. */
    predicate IsIn(id: string)
      reads this
    {
      Contains(items, id)
    }

    function ItemCount(): (n: nat)
      reads this
      ensures n == |items|
    {
      |items|
    }

    method AddToWishlist(product: Product)
      requires Valid()
      modifies this
      ensures Valid() && IsIn(product.id)
      ensures items == Add(old(items), product)
    {
      AddSpec(items, product);
      items := Add(items, product);
    }

    method RemoveFromWishlist(id: string)
      requires Valid()
      modifies this
      ensures Valid() && !IsIn(id)
      ensures items == Remove(old(items), id)
    {
      RemoveSpec(items, id);
      items := Remove(items, id);
    }

    method ToggleWishlist(product: Product)
      requires Valid()
      modifies this
      ensures Valid() && (IsIn(product.id) <==> !old(IsIn(product.id)))
      ensures items == Toggle(old(items), product)
    {
      ToggleFlips(items, product);
      if IsIn(product.id) {
        RemoveFromWishlist(product.id);
      } else {
        AddToWishlist(product);
      }
    }

    method ClearWishlist()
      modifies this
      ensures Valid() && items == [] && ItemCount() == 0
    {
      items := [];
    }
  }
}
