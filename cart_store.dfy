/**
 * The cart screen's local store: an ordered list of lines kept in the
 * screen's state and saved to the device's key-value storage under
 * "@cart_items" once the first load has finished. Removals and the clear
 * ask for confirmation first; the order button shows a notice whose OK
 * empties the cart.
 */
module CartStore {
  import opened Options

  datatype SizeChoice = SizeChoice(id: string, name: string, extraPrice: int)
  datatype Customizations = Customizations(
    size: Option<SizeChoice>, sugar: Option<string>, ice: Option<string>,
    milk: Option<string>, toppings: Option<seq<string>>)
  datatype CartItem = CartItem(
    id: string, name: string, price: int, image: string, quantity: int,
    customizations: Option<Customizations>)

  /** The alert on screen, if any, and what its confirming button will do. */
  datatype Prompt = NoPrompt | ConfirmRemove(id: string) | ConfirmClear | OrderPlaced

  /** `cartItems.reduce((sum, item) => sum + item.price * item.quantity, 0)`, folded from the left. */
  function TotalPrice(items: seq<CartItem>): int {
    if items == [] then 0
    else TotalPrice(items[..|items| - 1]) + items[|items| - 1].price * items[|items| - 1].quantity
  }

  /** Every line holds at least one unit. */
  predicate QuantitiesPositive(items: seq<CartItem>) {
    forall i :: 0 <= i < |items| ==> items[i].quantity >= 1
  }

  predicate HasId(items: seq<CartItem>, id: string) {
    exists i :: 0 <= i < |items| && items[i].id == id
  }

  /**
   * `cartItems.map(item => item.id === id ? {...item, quantity} : item)`:
   * same length and order, the quantity replaced on every line with that id
   * and nothing else touched.
   */
  function WithQuantity(items: seq<CartItem>, id: string, quantity: int): (r: seq<CartItem>)
    ensures |r| == |items|
    ensures forall i :: 0 <= i < |r| ==>
      if items[i].id == id then r[i] == items[i].(quantity := quantity) else r[i] == items[i]
  {
    if items == [] then []
    else
      [if items[0].id == id then items[0].(quantity := quantity) else items[0]]
      + WithQuantity(items[1..], id, quantity)
  }

  /** `cartItems.filter(item => item.id !== id)`: no line with that id is left. */
  function WithoutId(items: seq<CartItem>, id: string): (r: seq<CartItem>)
    ensures |r| <= |items|
    ensures forall i :: 0 <= i < |r| ==> r[i].id != id
  {
    if items == [] then []
    else
      var rest := WithoutId(items[1..], id);
      if items[0].id == id then rest else [items[0]] + rest
  }

  /** Every line with another id is kept, as often as it occurred; the lines with the id are all gone. */
  lemma {:induction false} WithoutIdKeepsOthers(items: seq<CartItem>, id: string, x: CartItem)
    ensures multiset(WithoutId(items, id))[x] == if x.id == id then 0 else multiset(items)[x]
  {
    if items != [] {
      WithoutIdKeepsOthers(items[1..], id, x);
      assert items == [items[0]] + items[1..];
    }
  }

  /** Filtering distributes over concatenation, so the lines that stay keep their relative order. */
  lemma {:induction false} WithoutIdAppend(a: seq<CartItem>, b: seq<CartItem>, id: string)
    ensures WithoutId(a + b, id) == WithoutId(a, id) + WithoutId(b, id)
  {
    if a == [] {
      assert a + b == b;
    } else {
      var ab := a + b;
      assert ab[0] == a[0] && ab[1..] == a[1..] + b;
      WithoutIdAppend(a[1..], b, id);
      var rest, restA := WithoutId(ab[1..], id), WithoutId(a[1..], id);
      assert rest == restA + WithoutId(b, id);
      if a[0].id != id {
        assert WithoutId(ab, id) == [a[0]] + rest;
        assert WithoutId(a, id) == [a[0]] + restA;
        assert [a[0]] + (restA + WithoutId(b, id)) == ([a[0]] + restA) + WithoutId(b, id);
      }
    }
  }

  /** Removing an id that is not in the cart changes nothing. */
  lemma {:induction false} WithoutAbsentId(items: seq<CartItem>, id: string)
    requires !HasId(items, id)
    ensures WithoutId(items, id) == items
  {
    if items != [] {
      assert !HasId(items[1..], id) by {
        forall i | 0 <= i < |items[1..]| ensures items[1..][i].id != id {
          assert items[1..][i] == items[i + 1];
        }
      }
      WithoutAbsentId(items[1..], id);
      assert items[0].id != id;
    }
  }

  /** Removal is idempotent: a second removal of the same id finds nothing left to remove. */
  lemma WithoutIdIdempotent(items: seq<CartItem>, id: string)
    ensures WithoutId(WithoutId(items, id), id) == WithoutId(items, id)
  {
    WithoutAbsentId(WithoutId(items, id), id);
  }

  /** Setting a quantity on an id that is not in the cart changes nothing. */
  lemma WithQuantityAbsentId(items: seq<CartItem>, id: string, quantity: int)
    requires !HasId(items, id)
    ensures WithQuantity(items, id, quantity) == items
  {
  }

  /** A removal keeps positive quantities positive. */
  lemma {:induction false} WithoutIdKeepsPositive(items: seq<CartItem>, id: string)
    requires QuantitiesPositive(items)
    ensures QuantitiesPositive(WithoutId(items, id))
  {
    if items != [] {
      WithoutIdKeepsPositive(items[1..], id);
    }
  }

  /** The total of two runs of lines is the sum of their totals. */
  lemma {:induction false} TotalPriceAppend(a: seq<CartItem>, b: seq<CartItem>)
    ensures TotalPrice(a + b) == TotalPrice(a) + TotalPrice(b)
  {
    if b == [] {
      assert a + b == a;
    } else {
      TotalPriceAppend(a, b[..|b| - 1]);
      assert (a + b)[..|a + b| - 1] == a + b[..|b| - 1];
      assert (a + b)[|a + b| - 1] == b[|b| - 1];
    }
  }

  /** The lines with a given id, in cart order. */
  function OnlyId(items: seq<CartItem>, id: string): seq<CartItem> {
    if items == [] then []
    else (if items[0].id == id then [items[0]] else []) + OnlyId(items[1..], id)
  }

  /** Removing an id takes exactly that id's lines off the total. */
  lemma {:induction false} TotalPriceAfterRemoval(items: seq<CartItem>, id: string)
    ensures TotalPrice(WithoutId(items, id)) == TotalPrice(items) - TotalPrice(OnlyId(items, id))
  {
    if items != [] {
      TotalPriceAfterRemoval(items[1..], id);
      var head := [items[0]];
      assert items == head + items[1..];
      TotalPriceAppend(head, items[1..]);
      if items[0].id == id {
        TotalPriceAppend(head, OnlyId(items[1..], id));
      } else {
        TotalPriceAppend(head, WithoutId(items[1..], id));
        assert OnlyId(items, id) == OnlyId(items[1..], id);
      }
    }
  }

  class Cart {
    var cartItems: seq<CartItem>
    var loading: bool
    var storage: Stored<seq<CartItem>>
    var prompt: Prompt

    /** Once the load has finished, the storage holds exactly the lines on screen. */
    ghost predicate Valid()
      reads this
    {
      !loading ==> storage == Present(cartItems)
    }

    /** The screen mounts empty and loading, over whatever the storage holds. */
    constructor (stored: Stored<seq<CartItem>>)
      ensures Valid()
      ensures cartItems == [] && loading && storage == stored && prompt == NoPrompt
    {
      cartItems := [];
      loading := true;
      storage := stored;
      prompt := NoPrompt;
    }

    /** The save effect: it writes the lines to storage only once `loading` is false. */
    method SaveEffect()
      modifies this`storage
      ensures storage == if loading then old(storage) else Present(cartItems)
    {
      if !loading {
        storage := Present(cartItems);
      }
    }

    /**
     * The focus effect: parsed stored lines replace the state, a missing or
     * unparsable value leaves it; either way loading ends and the save
     * effect then writes the state back.
     */
    method Load()
      requires Valid()
      modifies this`cartItems, this`loading, this`storage
      ensures Valid() && !loading
      ensures cartItems == if old(storage).Present? then old(storage).value else old(cartItems)
      ensures !old(loading) ==> cartItems == old(cartItems)
    {
      if storage.Present? {
        cartItems := storage.value;
      }
      loading := false;
      SaveEffect();
    }

    /**
     * `updateQuantity(id, q)`: below 1 it only asks to confirm a removal;
     * otherwise it sets the quantity of the lines with that id.
     */
    method UpdateQuantity(id: string, quantity: int)
      requires Valid()
      modifies this`cartItems, this`storage, this`prompt
      ensures Valid() && loading == old(loading)
      ensures quantity < 1 ==> cartItems == old(cartItems) && storage == old(storage) && prompt == ConfirmRemove(id)
      ensures quantity >= 1 ==> cartItems == WithQuantity(old(cartItems), id, quantity) && prompt == old(prompt)
      ensures old(loading) ==> storage == old(storage)
      ensures QuantitiesPositive(old(cartItems)) ==> QuantitiesPositive(cartItems)
      ensures |cartItems| == old(|cartItems|)
    {
      if quantity < 1 {
        prompt := ConfirmRemove(id);
      } else {
        cartItems := WithQuantity(cartItems, id, quantity);
        SaveEffect();
      }
    }

    /** The "-" button of line `k`: one unit less, or a removal prompt at one unit. */
    method Decrease(k: nat)
      requires Valid() && k < |cartItems|
      modifies this`cartItems, this`storage, this`prompt
      ensures Valid()
      ensures old(cartItems[k].quantity) - 1 < 1 ==>
        cartItems == old(cartItems) && storage == old(storage) && prompt == ConfirmRemove(old(cartItems[k].id))
      ensures old(cartItems[k].quantity) - 1 >= 1 ==>
        cartItems == WithQuantity(old(cartItems), old(cartItems[k].id), old(cartItems[k].quantity) - 1)
        && prompt == old(prompt)
      ensures old(loading) ==> storage == old(storage)
      ensures QuantitiesPositive(old(cartItems)) ==> QuantitiesPositive(cartItems)
    {
      UpdateQuantity(cartItems[k].id, cartItems[k].quantity - 1);
    }

    /** The "+" button of line `k`: one unit more on the lines with its id. */
    method Increase(k: nat)
      requires Valid() && k < |cartItems|
      modifies this`cartItems, this`storage, this`prompt
      ensures Valid()
      ensures old(cartItems[k].quantity) + 1 < 1 ==>
        cartItems == old(cartItems) && storage == old(storage) && prompt == ConfirmRemove(old(cartItems[k].id))
      ensures old(cartItems[k].quantity) + 1 >= 1 ==>
        cartItems == WithQuantity(old(cartItems), old(cartItems[k].id), old(cartItems[k].quantity) + 1)
        && prompt == old(prompt)
      ensures old(loading) ==> storage == old(storage)
      ensures |cartItems| == old(|cartItems|)
      ensures cartItems[k].quantity == old(cartItems[k].quantity) + 1 || old(cartItems[k].quantity) + 1 < 1
      ensures QuantitiesPositive(old(cartItems)) ==> QuantitiesPositive(cartItems)
    {
      UpdateQuantity(cartItems[k].id, cartItems[k].quantity + 1);
    }

    /** `removeItem(id)`: asks to confirm; the lines stay until then. */
    method RemoveItem(id: string)
      modifies this`prompt
      ensures prompt == ConfirmRemove(id)
    {
      prompt := ConfirmRemove(id);
    }

    /** `clearCart()`: nothing on an empty cart, otherwise a prompt to confirm. */
    method ClearCart()
      modifies this`prompt
      ensures prompt == if cartItems == [] then old(prompt) else ConfirmClear
    {
      if |cartItems| == 0 {
        return;
      }
      prompt := ConfirmClear;
    }

    /** `handleCheckout()`: the order-placed notice, whose only button empties the cart. */
    method Checkout()
      modifies this`prompt
      ensures prompt == OrderPlaced
    {
      prompt := OrderPlaced;
    }

    /** The confirming button of the alert on screen. */
    method Confirm()
      requires Valid()
      modifies this`cartItems, this`storage, this`prompt
      ensures Valid() && prompt == NoPrompt
      ensures match old(prompt)
        case NoPrompt => cartItems == old(cartItems)
        case ConfirmRemove(id) => cartItems == WithoutId(old(cartItems), id)
        case ConfirmClear => cartItems == []
        case OrderPlaced => cartItems == []
      ensures old(loading) ==> storage == old(storage)
      ensures QuantitiesPositive(old(cartItems)) ==> QuantitiesPositive(cartItems)
      ensures old(prompt).ConfirmRemove? ==>
        Total() == old(Total()) - TotalPrice(OnlyId(old(cartItems), old(prompt).id))
      ensures old(prompt) == ConfirmClear || old(prompt) == OrderPlaced ==> Total() == 0
    {
      match prompt {
        case NoPrompt =>
        case ConfirmRemove(id) =>
          if QuantitiesPositive(cartItems) {
            WithoutIdKeepsPositive(cartItems, id);
          }
          TotalPriceAfterRemoval(cartItems, id);
          cartItems := WithoutId(cartItems, id);
          SaveEffect();
        case ConfirmClear =>
          cartItems := [];
          SaveEffect();
        case OrderPlaced =>
          cartItems := [];
          SaveEffect();
      }
      prompt := NoPrompt;
    }

    /** The cancel button of a removal or clear prompt; the order notice has none. */
    method Cancel()
      modifies this`prompt
      ensures old(prompt) == OrderPlaced ==> prompt == OrderPlaced
      ensures old(prompt) != OrderPlaced ==> prompt == NoPrompt
    {
      if prompt != OrderPlaced {
        prompt := NoPrompt;
      }
    }

    /** `totalPrice`, derived on every render. */
    function Total(): int
      reads this
    {
      TotalPrice(cartItems)
    }
  }

  /**
   * A removal confirmed twice leaves the same cart as one confirmed once,
   * and the total drops by exactly the removed lines.
   */
  method RemoveTwiceScenario(items: seq<CartItem>, id: string) returns (once: seq<CartItem>, twice: seq<CartItem>)
    ensures once == twice == WithoutId(items, id)
    ensures TotalPrice(once) == TotalPrice(items) - TotalPrice(OnlyId(items, id))
  {
    var cart := new Cart(Present(items));
    cart.Load();
    cart.RemoveItem(id);
    cart.Confirm();
    once := cart.cartItems;
    cart.RemoveItem(id);
    cart.Confirm();
    twice := cart.cartItems;
    WithoutIdIdempotent(items, id);
    TotalPriceAfterRemoval(items, id);
  }
}
