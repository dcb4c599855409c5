/**
 * The cart screen (src/screens/CartScreen.jsx): the checkout button, the PIN
 * prompt, and the submission of the cart as an order, with the state changes
 * each answer of the order endpoint causes.
 */
module CartScreen {
  import opened Wrappers
  import opened Js
  import opened CartContext
  import CartLines
  import AppNavigator

  /** One entry of the order payload: `{id_producto, cantidad}`; notes are not sent. */
  datatype OrderItem = OrderItem(idProducto: nat, cantidad: int)

  /** The body posted to the order endpoint. */
  datatype OrderPayload = OrderPayload(pin: string, items: seq<OrderItem>)

  /**
   * How the order request ended: an `ok` response with its `mesa` field (0 when
   * absent), a non-`ok` response with its status and `message` ("" when absent),
   * or a failure of the request or of decoding its body.
   */
  datatype OrderResponse = Accepted(mesa: nat) | Rejected(status: int, message: string) | TransportFailure

  /** The payload: one entry per cart line, in cart order. */
  function BuildPayload(pinCode: string, lines: seq<CartLines.CartLine>): (p: OrderPayload)
    ensures p.pin == pinCode && |p.items| == |lines|
    ensures forall i :: 0 <= i < |lines| ==> p.items[i] == OrderItem(lines[i].idProducto, lines[i].quantity)
  {
    OrderPayload(pinCode, seq(|lines|, i requires 0 <= i < |lines| => OrderItem(lines[i].idProducto, lines[i].quantity)))
  }

  /** The number of units an order asks for. */
  function Units(items: seq<OrderItem>): int
  {
    if items == [] then 0 else items[0].cantidad + Units(items[1..])
  }

  /** The payload asks for exactly the units the cart shows as `totalItems`. */
  lemma {:induction false} PayloadCarriesEveryUnit(pinCode: string, lines: seq<CartLines.CartLine>)
    ensures Units(BuildPayload(pinCode, lines).items) == CartLines.TotalItems(lines)
  {
    if lines != [] {
      PayloadCarriesEveryUnit(pinCode, lines[1..]);
      assert BuildPayload(pinCode, lines).items[1..] == BuildPayload(pinCode, lines[1..]).items;
    }
  }

  /**
   * The context after the order request: success records a truthy `mesa` and
   * empties the cart; a 401 clears only the PIN; any other rejection and a
   * transport failure change nothing.
   */
  function Submitted(s: Session, response: OrderResponse): (r: Session)
    ensures response.Accepted? ==>
      && r.cart == [] && r.pin == s.pin && r.restaurant == s.restaurant
      && r.tableId == (if response.mesa != 0 then response.mesa else s.tableId)
    ensures response.Rejected? && response.status == 401 ==> r == s.(pin := None)
    ensures response.Rejected? && response.status != 401 ==> r == s
    ensures response.TransportFailure? ==> r == s
  {
    match response
    case Accepted(mesa) => s.(tableId := OrNat(mesa, s.tableId), cart := [])
    case Rejected(status, _) => if status == 401 then s.(pin := None) else s
    case TransportFailure => s
  }

  /**
   * A 401 clears the PIN but keeps the table the session was given: the state
   * "table assigned, no PIN" is reachable.
   */
  lemma TableOutlivesRejectedPin(s: Session, message: string)
    requires PinSet(s.pin) && s.tableId != 0
    ensures var r := Submitted(s, Rejected(401, message));
      !PinSet(r.pin) && r.tableId == s.tableId && r.cart == s.cart
  {
  }

  const EmptyCartAlert := Alert("Carrito vacío", "Agrega algo primero.")
  const PinTooShortAlert := Alert("Error", "PIN muy corto.")
  const ConnectionAlert := Alert("Error", "Fallo de conexión.")

  /** The rejected order's dialog falls back to this text when the server sends no message. */
  const RejectionFallback := "No se pudo enviar."

  /**
   * The dialog and the navigation an answer of the order endpoint leads to:
   * success navigates to the tracking screen without a dialog; a refusal or a
   * failure raises a dialog and stays.
   */
  function Outcome(response: OrderResponse): (r: (Option<Alert>, Option<AppNavigator.Screen>))
    ensures r.0.None? <==> response.Accepted?
    ensures r.1.Some? <==> response.Accepted?
    ensures r.1.Some? ==> r.1.value == AppNavigator.OrderDetails
    ensures response.Rejected? ==> r.0 == Some(ServerErrorAlert(response.message, RejectionFallback))
    ensures response.TransportFailure? ==> r.0 == Some(ConnectionAlert)
  {
    match response
    case Accepted(_) => (None, Some(AppNavigator.OrderDetails))
    case Rejected(_, message) => (Some(ServerErrorAlert(message, RejectionFallback)), None)
    case TransportFailure => (Some(ConnectionAlert), None)
  }

  /**
   * The prompt accepts a PIN when it is neither empty nor shorter than 3 UTF-16
   * code units (`inputPin.length`); three characters always suffice, and two
   * characters outside the Basic Multilingual Plane do too.
   */
  predicate PinLongEnough(input: string)
    ensures PinLongEnough(input) <==> Utf16Length(input) >= 3
    ensures |input| >= 3 ==> PinLongEnough(input)
    ensures |input| < 2 ==> !PinLongEnough(input)
  {
    !(input == "" || Utf16Length(input) < 3)
  }

  /** Two emoji make a PIN of length 4, which the prompt accepts; two digits do not. */
  lemma EmojiPinIsLongEnough()
    ensures PinLongEnough("\U{1F600}\U{1F600}")
    ensures !PinLongEnough("12")
  {
    assert Utf16Length("\U{1F600}\U{1F600}"[1..]) == 2;
  }

  /** The screen's local state, and the context it reads and updates. */
  class CheckoutState {
    const store: CartStore
    var modalVisible: bool
    var inputPin: string
    var loading: bool

    constructor (store: CartStore)
      ensures this.store == store
      ensures !modalVisible && inputPin == "" && !loading
    {
      this.store := store;
      modalVisible := false;
      inputPin := "";
      loading := false;
    }

    /** The PIN field's `onChangeText`. */
    method SetInputPin(text: string)
      modifies this
      ensures inputPin == text && modalVisible == old(modalVisible) && loading == old(loading)
    {
      inputPin := text;
    }

    /** The prompt's cancel button. */
    method CancelPin()
      modifies this
      ensures !modalVisible && inputPin == old(inputPin) && loading == old(loading)
    {
      modalVisible := false;
    }

    /** `sendOrderToBackend(pinCode)`, given how the request ends. */
    method SendOrderToBackend(pinCode: string, response: OrderResponse)
      returns (sent: OrderPayload, alert: Option<Alert>, nav: Option<AppNavigator.Screen>)
      requires store.Valid()
      modifies this, store
      ensures store.Valid()
      ensures sent == BuildPayload(pinCode, old(store.cartItems))
      ensures store.State() == Submitted(old(store.State()), response)
      ensures !loading && modalVisible == old(modalVisible) && inputPin == old(inputPin)
      ensures response.Accepted? ==> alert == None && nav == Some(AppNavigator.OrderDetails)
      ensures response.Rejected? ==> alert == Some(ServerErrorAlert(response.message, RejectionFallback)) && nav == None
      ensures response.TransportFailure? ==> alert == Some(ConnectionAlert) && nav == None
      ensures (alert, nav) == Outcome(response)
    {
      loading := true;
      sent := BuildPayload(pinCode, store.cartItems);
      alert, nav := None, None;
      match response {
        case Accepted(mesa) =>
          if mesa != 0 {
            store.SetTableId(mesa);
          }
          store.ClearCart();
          nav := Some(AppNavigator.OrderDetails);
        case Rejected(status, message) =>
          alert := Some(ServerErrorAlert(message, RejectionFallback));
          if status == 401 {
            store.SetPin(None);
          }
        case TransportFailure =>
          alert := Some(ConnectionAlert);
      }
      loading := false;
    }

    /**
     * `handleCheckout`: an empty cart only raises a notice; with a PIN the
     * order is sent with it; without one only the PIN prompt opens. The button
     * is only rendered while no request is loading.
     */
    method HandleCheckout(response: OrderResponse)
      returns (sent: Option<OrderPayload>, alert: Option<Alert>, nav: Option<AppNavigator.Screen>)
      requires store.Valid() && !loading
      modifies this, store
      ensures store.Valid()
      ensures !loading && inputPin == old(inputPin)
      ensures old(store.cartItems) == [] ==>
        && sent == None && alert == Some(EmptyCartAlert) && nav == None
        && store.State() == old(store.State()) && modalVisible == old(modalVisible)
      ensures old(store.cartItems) != [] && PinSet(old(store.pin)) ==>
        && sent == Some(BuildPayload(old(store.pin).value, old(store.cartItems)))
        && store.State() == Submitted(old(store.State()), response)
        && (alert, nav) == Outcome(response) && modalVisible == old(modalVisible)
      ensures old(store.cartItems) != [] && !PinSet(old(store.pin)) ==>
        && sent == None && alert == None && nav == None
        && store.State() == old(store.State()) && modalVisible
      ensures nav.Some? ==> nav.value in AppNavigator.Reachable(store.pin)
    {
      sent, alert, nav := None, None, None;
      if |store.cartItems| == 0 {
        alert := Some(EmptyCartAlert);
        return;
      }
      if PinSet(store.pin) {
        var payload;
        payload, alert, nav := SendOrderToBackend(store.pin.value, response);
        sent := Some(payload);
      } else {
        modalVisible := true;
      }
    }

    /**
     * `confirmPin`: a PIN shorter than 3 characters is refused with nothing set
     * or sent; otherwise it becomes the session PIN and the order is sent with it.
     */
    method ConfirmPin(response: OrderResponse)
      returns (sent: Option<OrderPayload>, alert: Option<Alert>, nav: Option<AppNavigator.Screen>)
      requires store.Valid()
      modifies this, store
      ensures store.Valid()
      ensures inputPin == old(inputPin)
      ensures !PinLongEnough(old(inputPin)) ==>
        && sent == None && alert == Some(PinTooShortAlert) && nav == None
        && store.State() == old(store.State()) && modalVisible == old(modalVisible)
        && loading == old(loading)
      ensures PinLongEnough(old(inputPin)) ==>
        && !loading && sent == Some(BuildPayload(old(inputPin), old(store.cartItems)))
        && store.State() == Submitted(old(store.State()).(pin := Some(old(inputPin))), response)
        && (alert, nav) == Outcome(response) && !modalVisible
      ensures nav.Some? ==> nav.value in AppNavigator.Reachable(store.pin)
    {
      sent, alert, nav := None, None, None;
      if !PinLongEnough(inputPin) {
        alert := Some(PinTooShortAlert);
        return;
      }
      store.SetPin(Some(inputPin));
      modalVisible := false;
      var payload;
      payload, alert, nav := SendOrderToBackend(inputPin, response);
      sent := Some(payload);
    }
  }
}
