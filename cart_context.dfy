/** The client cart: lines keyed by product id and size, the operations
    the cart context hands to the pages, the two totals, and the provider
    that holds the cart and mirrors it into browser storage. */
module CartContext {
  import opened Wrappers
  import opened Records
  import Seqs

  datatype CartItem = CartItem(
    id: Id,
    name: string,
    price: int,
    image: string,
    size: string,
    quantity: int)

  type Cart = seq<CartItem>

  /** `item._id === id && item.size === size` */
  predicate Matches(item: CartItem, id: Id, size: string) {
    item.id == id && item.size == size
  }

  predicate HasLine(cart: Cart, id: Id, size: string) {
    exists i :: 0 <= i < |cart| && Matches(cart[i], id, size)
  }

  /** No two lines share an id and a size. */
  predicate UniqueLines(cart: Cart) {
    forall i, j :: 0 <= i < j < |cart| ==> !Matches(cart[j], cart[i].id, cart[i].size)
  }

  /** `addToCart(newItem)`: one more of a line already in the cart, or the
      item appended with quantity 1 whatever quantity it came with. */
  function AddToCart(cart: Cart, newItem: CartItem): (r: Cart)
    ensures |r| == if HasLine(cart, newItem.id, newItem.size) then |cart| else |cart| + 1
    ensures forall i :: 0 <= i < |cart| ==>
      r[i] == if Matches(cart[i], newItem.id, newItem.size) then cart[i].(quantity := cart[i].quantity + 1) else cart[i]
    ensures !HasLine(cart, newItem.id, newItem.size) ==> r[|cart|] == newItem.(quantity := 1)
  {
    if HasLine(cart, newItem.id, newItem.size) then
      seq(|cart|, i requires 0 <= i < |cart| =>
        if Matches(cart[i], newItem.id, newItem.size) then cart[i].(quantity := cart[i].quantity + 1) else cart[i])
    else cart + [newItem.(quantity := 1)]
  }

  /** `updateQuantity(id, size, delta)`: the matching line's quantity
      becomes `max(1, quantity + delta)`. */
  function UpdateQuantity(cart: Cart, id: Id, size: string, delta: int): (r: Cart)
    ensures |r| == |cart|
    ensures forall i :: 0 <= i < |cart| && !Matches(cart[i], id, size) ==> r[i] == cart[i]
    ensures forall i :: 0 <= i < |cart| && Matches(cart[i], id, size) ==>
      r[i] == cart[i].(quantity := if cart[i].quantity + delta >= 1 then cart[i].quantity + delta else 1)
    ensures forall i :: 0 <= i < |r| ==> Matches(r[i], id, size) ==> r[i].quantity >= 1
  {
    seq(|cart|, i requires 0 <= i < |cart| =>
      if Matches(cart[i], id, size) then cart[i].(quantity := Max(1, cart[i].quantity + delta)) else cart[i])
  }

  function Max(a: int, b: int): int { if a < b then b else a }

  /** `removeFromCart(id, size)`: the lines that do not match, in order. */
  function RemoveFromCart(cart: Cart, id: Id, size: string): (r: Cart)
    ensures !HasLine(r, id, size)
    ensures Seqs.IsSubsequence(r, cart)
    ensures forall i :: 0 <= i < |cart| && !Matches(cart[i], id, size) ==> cart[i] in r
    ensures forall x :: multiset(r)[x] == if Matches(x, id, size) then 0 else multiset(cart)[x]
  {
    var r := Seqs.Filter(cart, (item: CartItem) => !Matches(item, id, size));
    Seqs.FilterMultiset(cart, (item: CartItem) => !Matches(item, id, size));
    Seqs.FilterMembers(cart, (item: CartItem) => !Matches(item, id, size));
    Seqs.FilterIsSubsequence(cart, (item: CartItem) => !Matches(item, id, size));
    r
  }

  /** `clearCart()`: empty once the user confirms, unchanged otherwise. */
  function ClearCart(cart: Cart, confirmed: bool): (r: Cart)
    ensures confirmed ==> r == []
    ensures !confirmed ==> r == cart
  {
    if confirmed then [] else cart
  }

  function LineTotal(item: CartItem): int { item.price * item.quantity }
  function LineCount(item: CartItem): int { item.quantity }

  /** `cart.reduce((t, item) => t + item.price * item.quantity, 0)` */
  function CartTotal(cart: Cart): int { Seqs.Sum(cart, LineTotal) }

  /** `cart.reduce((t, item) => t + item.quantity, 0)` */
  function CartCount(cart: Cart): int { Seqs.Sum(cart, LineCount) }

  /** ---------------------------------------------------------------------
      Properties of the operations.
      --------------------------------------------------------------------- */

  /** Adding keeps the lines unique by id and size. */
  lemma AddKeepsUnique(cart: Cart, newItem: CartItem)
    requires UniqueLines(cart)
    ensures UniqueLines(AddToCart(cart, newItem))
  {
    var r := AddToCart(cart, newItem);
    forall i, j | 0 <= i < j < |r| ensures !Matches(r[j], r[i].id, r[i].size) {
      if j == |cart| {
        assert !HasLine(cart, newItem.id, newItem.size);
        assert !Matches(cart[i], newItem.id, newItem.size);
      }
    }
  }

  /** The index of the line with this id and size in a cart whose lines are
      unique. */
  lemma LineIndex(cart: Cart, id: Id, size: string) returns (k: nat)
    requires UniqueLines(cart) && HasLine(cart, id, size)
    ensures k < |cart| && Matches(cart[k], id, size)
    ensures forall i :: 0 <= i < |cart| && i != k ==> !Matches(cart[i], id, size)
  {
    k :| 0 <= k < |cart| && Matches(cart[k], id, size);
    forall i | 0 <= i < |cart| && i != k ensures !Matches(cart[i], id, size) {
      if i < k {
        assert !Matches(cart[k], cart[i].id, cart[i].size);
      } else {
        assert !Matches(cart[i], cart[k].id, cart[k].size);
      }
    }
  }

  /** Adding an item whose line exists raises the count by one and the
      total by the price stored on that line (not the price of the item
      being added), and adds no line. */
  lemma AddExistingTotals(cart: Cart, newItem: CartItem) returns (k: nat)
    requires UniqueLines(cart) && HasLine(cart, newItem.id, newItem.size)
    ensures k < |cart| && Matches(cart[k], newItem.id, newItem.size)
    ensures |AddToCart(cart, newItem)| == |cart|
    ensures CartCount(AddToCart(cart, newItem)) == CartCount(cart) + 1
    ensures CartTotal(AddToCart(cart, newItem)) == CartTotal(cart) + cart[k].price
  {
    k := LineIndex(cart, newItem.id, newItem.size);
    var r := AddToCart(cart, newItem);
    var line := cart[k].(quantity := cart[k].quantity + 1);
    assert r == cart[k := line];
    Seqs.SumUpdate(cart, k, line, LineCount);
    Seqs.SumUpdate(cart, k, line, LineTotal);
  }

  /** Adding a new item appends one line of quantity 1: the count rises by
      one and the total by the item's price. */
  lemma AddNewTotals(cart: Cart, newItem: CartItem)
    requires !HasLine(cart, newItem.id, newItem.size)
    ensures AddToCart(cart, newItem) == cart + [newItem.(quantity := 1)]
    ensures CartCount(AddToCart(cart, newItem)) == CartCount(cart) + 1
    ensures CartTotal(AddToCart(cart, newItem)) == CartTotal(cart) + newItem.price
  {
    var line := newItem.(quantity := 1);
    Seqs.SumAppend(cart, [line], LineCount);
    Seqs.SumAppend(cart, [line], LineTotal);
  }

  /** Removing what was just added as a new line gives back the cart. */
  lemma {:induction false} RemoveUndoesAdd(cart: Cart, newItem: CartItem)
    requires !HasLine(cart, newItem.id, newItem.size)
    ensures RemoveFromCart(AddToCart(cart, newItem), newItem.id, newItem.size) == cart
  {
    var keep := (item: CartItem) => !Matches(item, newItem.id, newItem.size);
    var line := newItem.(quantity := 1);
    Seqs.FilterAppend(cart, [line], keep);
    forall i | 0 <= i < |cart| ensures keep(cart[i]) {
      assert !Matches(cart[i], newItem.id, newItem.size);
    }
    Seqs.FilterAll(cart, keep);
    assert Seqs.Filter([line], keep) == [];
  }

  /** Updating keeps the lines unique and changes the count by the change
      in the one matching line's quantity. */
  lemma UpdateTotals(cart: Cart, id: Id, size: string, delta: int) returns (k: nat)
    requires UniqueLines(cart) && HasLine(cart, id, size)
    ensures k < |cart| && Matches(cart[k], id, size)
    ensures UniqueLines(UpdateQuantity(cart, id, size, delta))
    ensures CartCount(UpdateQuantity(cart, id, size, delta))
         == CartCount(cart) - cart[k].quantity + Max(1, cart[k].quantity + delta)
  {
    k := LineIndex(cart, id, size);
    var r := UpdateQuantity(cart, id, size, delta);
    var line := cart[k].(quantity := Max(1, cart[k].quantity + delta));
    assert r == cart[k := line];
    Seqs.SumUpdate(cart, k, line, LineCount);
  }

  /** Updating a line that is not in the cart changes nothing. */
  lemma UpdateAbsent(cart: Cart, id: Id, size: string, delta: int)
    requires !HasLine(cart, id, size)
    ensures UpdateQuantity(cart, id, size, delta) == cart
  {
  }

  /** Both totals are 0 for an empty cart and non-negative when every price
      and quantity is. */
  lemma TotalsNonNegative(cart: Cart)
    requires forall i :: 0 <= i < |cart| ==> cart[i].price >= 0 && cart[i].quantity >= 0
    ensures CartTotal(cart) >= 0 && CartCount(cart) >= 0
    ensures cart == [] ==> CartTotal(cart) == 0 && CartCount(cart) == 0
  {
    Seqs.SumNonNegative(cart, LineTotal);
    Seqs.SumNonNegative(cart, LineCount);
  }

  /** ---------------------------------------------------------------------
      The provider: the state cell and its mirror in browser storage.
      --------------------------------------------------------------------- */

  /** What `localStorage.getItem('kickstreet_cart')` holds, as far as the
      provider can tell: nothing (or ''), text that does not parse, a
      parsed value that is not an array, or an array of lines. */
  datatype Stored = Missing | Unparsable | NotAnArray | AnArray(lines: Cart)

  class CartProvider {
    var cart: Cart
    var isInitialized: bool
    var storage: Stored

    constructor (storage: Stored)
      ensures cart == [] && !isInitialized && this.storage == storage
    {
      cart := [];
      isInitialized := false;
      this.storage := storage;
    }

    /** The mount effect: a stored array becomes the cart; unparsable text
        is removed from storage; anything else leaves the empty cart. */
    method Load()
      modifies this
      ensures isInitialized
      ensures old(storage).AnArray? ==> cart == old(storage).lines && storage == old(storage)
      ensures old(storage).Unparsable? ==> cart == old(cart) && storage == Missing
      ensures (old(storage).Missing? || old(storage).NotAnArray?) ==> cart == old(cart) && storage == old(storage)
    {
      match storage {
        case AnArray(lines) => cart := lines;
        case Unparsable => storage := Missing;
        case _ =>
      }
      isInitialized := true;
    }

    /** The persistence effect: once initialised, the cart is written back. */
    method Persist()
      modifies this`storage
      ensures storage == if isInitialized then AnArray(cart) else old(storage)
    {
      if isInitialized {
        storage := AnArray(cart);
      }
    }

    method Add(item: CartItem)
      modifies this`cart
      ensures cart == AddToCart(old(cart), item)
    {
      cart := AddToCart(cart, item);
    }

    method Update(id: Id, size: string, delta: int)
      modifies this`cart
      ensures cart == UpdateQuantity(old(cart), id, size, delta)
    {
      cart := UpdateQuantity(cart, id, size, delta);
    }

    method Remove(id: Id, size: string)
      modifies this`cart
      ensures cart == RemoveFromCart(old(cart), id, size)
    {
      cart := RemoveFromCart(cart, id, size);
    }

    /** `confirmed` is the answer to the confirmation dialog. */
    method Clear(confirmed: bool)
      modifies this`cart
      ensures cart == ClearCart(old(cart), confirmed)
    {
      cart := ClearCart(cart, confirmed);
    }
  }
}
