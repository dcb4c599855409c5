/**
 * The product card (src/components/restaurant/ProductCard.jsx): a quantity
 * selector in a modal and the button that adds the chosen quantity to the cart.
 * The notes field is commented out in the source, so notes stay empty.
 */
module ProductCard {
  import opened ProductsService
  import opened CartContext
  import CartLines

  /** The card's local state, the product it shows, and the context it adds to. */
  class SelectorState {
    const store: CartStore
    const product: Product
    var modalVisible: bool
    var quantity: int
    var notes: string

    /** The selector never shows fewer than one unit, and nothing can write the notes. */
    ghost predicate Valid()
      reads this
    {
      quantity >= 1 && notes == ""
    }

    constructor (store: CartStore, product: Product)
      ensures Valid()
      ensures this.store == store && this.product == product
      ensures !modalVisible && quantity == 1 && notes == ""
    {
      this.store := store;
      this.product := product;
      modalVisible := false;
      quantity := 1;
      notes := "";
    }

    /** `priceValue`: the unit price shown on the card. */
    function PriceValue(): (c: nat)
    {
      UnitPrice(product)
    }

    /** The amount written on the add button: unit price times the selected quantity. */
    function AddButtonAmount(): (c: int)
      reads this
      requires Valid()
      ensures c >= PriceValue()
      ensures c == PriceValue() * quantity
    {
      PriceValue() * quantity
    }

    /** Tapping the card opens the modal. */
    method Open()
      requires Valid()
      modifies this
      ensures Valid() && modalVisible && quantity == old(quantity)
    {
      modalVisible := true;
    }

    /** The close button, the overlay and the back gesture close the modal. */
    method Close()
      requires Valid()
      modifies this
      ensures Valid() && !modalVisible && quantity == old(quantity)
    {
      modalVisible := false;
    }

    /** The minus button: `Math.max(1, quantity - 1)`. */
    method Decrement()
      requires Valid()
      modifies this
      ensures Valid()
      ensures quantity == (if old(quantity) > 1 then old(quantity) - 1 else 1)
      ensures modalVisible == old(modalVisible)
    {
      quantity := if 1 > quantity - 1 then 1 else quantity - 1;
    }

    /** The plus button. */
    method Increment()
      requires Valid()
      modifies this
      ensures Valid()
      ensures quantity == old(quantity) + 1
      ensures modalVisible == old(modalVisible)
    {
      quantity := quantity + 1;
    }

    /**
     * `handleAddToCart`: adds the product with the selected quantity and empty
     * notes, then closes the modal and resets the selector.
     */
    method HandleAddToCart()
      requires Valid() && store.Valid()
      modifies this, store
      ensures Valid() && store.Valid()
      ensures store.cartItems == CartLines.AddToCart(old(store.cartItems), product, old(quantity), "")
      ensures CartLines.TotalItems(store.cartItems) == CartLines.TotalItems(old(store.cartItems)) + old(quantity)
      ensures CartLines.AllPositive(old(store.cartItems)) ==> CartLines.AllPositive(store.cartItems)
      ensures store.pin == old(store.pin) && store.tableId == old(store.tableId)
      ensures store.restaurantData == old(store.restaurantData)
      ensures !modalVisible && quantity == 1 && notes == ""
    {
      if CartLines.AllPositive(store.cartItems) {
        CartLines.AddToCartKeepsPositive(store.cartItems, product, quantity, notes);
      }
      store.AddToCart(product, quantity, notes);
      modalVisible := false;
      quantity := 1;
      notes := "";
    }
  }
}
