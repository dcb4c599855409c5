/**
 * The cart and session context (src/context/CartContext.jsx): the cart lines,
 * the table PIN, the assigned table and the scanned restaurant, the operations
 * that change them, and one tick of the session check that runs while a PIN is set.
 */
module CartContext {
  import opened Wrappers
  import opened Js
  import opened ProductsService
  import CartLines

  /** `restaurantData`: the restaurant bound by the QR scan. */
  datatype RestaurantData = RestaurantData(restaurantId: nat, name: string)

  /** The value `restaurantData` starts with and is reset to. */
  const NoRestaurant := RestaurantData(0, "")

  /** `if (pin)`: a PIN is set when present and not empty. */
  predicate PinSet(pin: Option<string>)
  {
    Truthy(pin)
  }

  /** A snapshot of the four pieces of state the context holds. */
  datatype Session = Session(
    cart: seq<CartLines.CartLine>,
    restaurant: RestaurantData,
    pin: Option<string>,
    tableId: nat)

  /** The state after `exitSession`; it is also the state the provider starts in. */
  const Guest := Session([], NoRestaurant, None, 0)

  /** `exitSession`: every field goes back to its initial value, whatever it held. */
  function Exited(s: Session): (r: Session)
    ensures r.cart == [] && r.pin == None && r.tableId == 0 && r.restaurant == NoRestaurant
    ensures !PinSet(r.pin)
  {
    Guest
  }

  /** The answer of `verificar-sesion`: a failure (network or parse) or the decoded `valida` field. */
  datatype SessionCheck = CheckFailed | Checked(valida: Option<bool>)

  /**
   * One tick of the session check. It only runs while a PIN is set; only an
   * answer whose `valida` is literally `false` ends the session.
   */
  function Tick(s: Session, check: SessionCheck): (r: Session)
    ensures PinSet(s.pin) && check == Checked(Some(false)) ==> r == Exited(s)
    ensures !(PinSet(s.pin) && check == Checked(Some(false))) ==> r == s
  {
    if PinSet(s.pin) && check.Checked? && check.valida == Some(false) then Exited(s) else s
  }

  /**
   * The invalidation path calls `exitSession` twice (once directly, once when
   * the notice is dismissed): a second reset, and any later tick, change nothing.
   */
  lemma ResetIsIdempotent(s: Session, check: SessionCheck)
    ensures Exited(Exited(s)) == Exited(s)
    ensures Tick(Exited(s), check) == Exited(s)
  {
  }

  /** Answers `valida: true`, a network failure and `valida: false` leave the state, leave it, then reset it once. */
  lemma TickScenario(s: Session)
    requires PinSet(s.pin)
    ensures Tick(s, Checked(Some(true))) == s
    ensures Tick(Tick(s, Checked(Some(true))), CheckFailed) == s
    ensures Tick(Tick(Tick(s, Checked(Some(true))), CheckFailed), Checked(Some(false))) == Guest
  {
  }

  /** The notice the session check raises when the waiter has closed the table. */
  const TableClosedAlert := Alert("Mesa Cerrada", "El mesero ha cerrado la cuenta. ¡Gracias por su visita!")

  /** The provider: the four state fields of the context, updated in place by its operations. */
  class CartStore {
    var cartItems: seq<CartLines.CartLine>
    var restaurantData: RestaurantData
    var pin: Option<string>
    var tableId: nat

    /** Lines are only created by `addToCart`, so no two lines share a key. */
    ghost predicate Valid()
      reads this
    {
      CartLines.UniqueKeys(cartItems)
    }

    function State(): Session
      reads this
    {
      Session(cartItems, restaurantData, pin, tableId)
    }

    constructor ()
      ensures Valid() && State() == Guest
    {
      cartItems := [];
      restaurantData := NoRestaurant;
      pin := None;
      tableId := 0;
    }

    method AddToCart(product: Product, quantity: int, notes: string)
      requires Valid()
      modifies this
      ensures Valid()
      ensures cartItems == CartLines.AddToCart(old(cartItems), product, quantity, notes)
      ensures CartLines.TotalItems(cartItems) == CartLines.TotalItems(old(cartItems)) + quantity
      ensures restaurantData == old(restaurantData) && pin == old(pin) && tableId == old(tableId)
    {
      CartLines.AddToCartKeepsKeysUnique(cartItems, product, quantity, notes);
      CartLines.AddToCartTotals(cartItems, product, quantity, notes);
      cartItems := CartLines.AddToCart(cartItems, product, quantity, notes);
    }

    method UpdateQuantity(productId: nat, change: int, notes: string)
      requires Valid()
      modifies this
      ensures Valid()
      ensures cartItems == CartLines.UpdateQuantity(old(cartItems), productId, change, notes)
      ensures CartLines.AllPositive(old(cartItems)) ==> CartLines.AllPositive(cartItems)
      ensures restaurantData == old(restaurantData) && pin == old(pin) && tableId == old(tableId)
    {
      CartLines.UpdateKeepsKeysUnique(cartItems, productId, change, notes);
      cartItems := CartLines.UpdateQuantity(cartItems, productId, change, notes);
    }

    method RemoveFromCart(productId: nat, notes: string)
      requires Valid()
      modifies this
      ensures Valid()
      ensures cartItems == CartLines.RemoveFromCart(old(cartItems), productId, notes)
      ensures restaurantData == old(restaurantData) && pin == old(pin) && tableId == old(tableId)
    {
      CartLines.RemoveKeepsKeysUnique(cartItems, productId, notes);
      cartItems := CartLines.RemoveFromCart(cartItems, productId, notes);
    }

    /** `clearCart` empties the cart and touches nothing else. */
    method ClearCart()
      modifies this
      ensures Valid()
      ensures State() == old(State()).(cart := [])
    {
      cartItems := [];
    }

    /** `exitSession`: the single full reset. */
    method ExitSession()
      modifies this
      ensures Valid()
      ensures State() == Exited(old(State()))
    {
      cartItems := [];
      pin := None;
      tableId := 0;
      restaurantData := NoRestaurant;
    }

    /** The `setPin` the context exposes. */
    method SetPin(p: Option<string>)
      modifies this
      ensures State() == old(State()).(pin := p)
    {
      pin := p;
    }

    /** The `setTableId` the context exposes. */
    method SetTableId(t: nat)
      modifies this
      ensures State() == old(State()).(tableId := t)
    {
      tableId := t;
    }

    /** The `setRestaurantData` the context exposes. */
    method SetRestaurantData(d: RestaurantData)
      modifies this
      ensures State() == old(State()).(restaurant := d)
    {
      restaurantData := d;
    }

    /**
     * The body of the interval callback, given the outcome of the request it
     * makes; it returns the "Mesa Cerrada" notice when it ends the session.
     */
    method SessionTick(check: SessionCheck) returns (alert: Option<Alert>)
      requires Valid()
      modifies this
      ensures Valid()
      ensures State() == Tick(old(State()), check)
      ensures alert.Some? <==> PinSet(old(pin)) && check == Checked(Some(false))
      ensures alert.Some? ==> alert.value == TableClosedAlert
    {
      alert := None;
      if PinSet(pin) {
        match check {
          case Checked(valida) =>
            if valida == Some(false) {
              alert := Some(TableClosedAlert);
              ExitSession();
            }
          case CheckFailed =>
        }
      }
    }
  }
}
