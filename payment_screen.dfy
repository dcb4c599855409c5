/**
 * The payment screen (src/screens/PaymentScreen.jsx): the diner picks card or
 * cash and asks for the bill. The screen never changes the cart or the session.
 */
module PaymentScreen {
  import opened Wrappers
  import opened Js
  import opened CartContext
  import AppNavigator

  /** The two method cards. */
  datatype PaymentMethod = Tarjeta | Efectivo

  /** The `metodo_pago` string sent for a method. */
  function Wire(m: PaymentMethod): (w: string)
    ensures w == "tarjeta" || w == "efectivo"
    ensures m == Tarjeta <==> w == "tarjeta"
  {
    match m
    case Tarjeta => "tarjeta"
    case Efectivo => "efectivo"
  }

  /** The body posted to the bill endpoint: `{pin, metodo_pago}`. */
  datatype BillRequest = BillRequest(pin: Option<string>, metodoPago: string)

  /** How the bill request ended: `ok`, a non-`ok` response with its `message` ("" when absent), or a failure. */
  datatype BillResponse = BillAccepted | BillRejected(message: string) | BillTransportFailure

  const MissingMethodAlert := Alert("Falta información", "Por favor selecciona cómo vas a pagar.")
  const BillRequestedAlert := Alert("¡Mesero Notificado! 🔔",
    "Tu cuenta ha sido solicitada. El mesero vendrá en breve con la terminal o el cambio.")
  const BillConnectionAlert := Alert("Error de conexión", "Revisa tu internet.")

  /** The refused bill request's dialog falls back to this text when the server sends no message. */
  const BillRejectionFallback := "No se pudo solicitar la cuenta."

  /** The screen's local state and the context it reads. */
  class PaymentState {
    const store: CartStore
    var loading: bool
    var selectedMethod: Option<PaymentMethod>

    constructor (store: CartStore)
      ensures this.store == store && !loading && selectedMethod == None
    {
      this.store := store;
      loading := false;
      selectedMethod := None;
    }

    /**
     * `disabled={!selectedMethod || loading}` on the request button: a tap can
     * only reach `handleRequestBill` with a method chosen and no request running.
     */
    predicate ButtonDisabled()
      reads this
      ensures !ButtonDisabled() <==> selectedMethod.Some? && !loading
    {
      selectedMethod.None? || loading
    }

    /** Tapping a method card. */
    method SelectMethod(m: PaymentMethod)
      modifies this
      ensures selectedMethod == Some(m) && loading == old(loading)
      ensures !ButtonDisabled() <==> !loading
    {
      selectedMethod := Some(m);
    }

    /**
     * `handleRequestBill`: with no method chosen it only asks for one; otherwise
     * it posts `{pin, metodo_pago}` and reports the answer. The success notice's
     * button leads back to the tracking screen. No path changes the context.
     */
    method HandleRequestBill(response: BillResponse)
      returns (sent: Option<BillRequest>, alert: Alert, nav: Option<AppNavigator.Screen>)
      modifies this
      ensures selectedMethod == old(selectedMethod)
      ensures store.State() == old(store.State())
      ensures old(selectedMethod).None? ==>
        sent == None && alert == MissingMethodAlert && nav == None && loading == old(loading)
      ensures old(selectedMethod).Some? ==>
        && sent == Some(BillRequest(store.pin, Wire(old(selectedMethod).value)))
        && !loading
      ensures old(selectedMethod).Some? && response.BillAccepted? ==>
        alert == BillRequestedAlert && nav == Some(AppNavigator.OrderDetails)
      ensures old(selectedMethod).Some? && response.BillRejected? ==>
        alert == ServerErrorAlert(response.message, BillRejectionFallback) && nav == None
      ensures old(selectedMethod).Some? && response.BillTransportFailure? ==>
        alert == BillConnectionAlert && nav == None
    {
      sent, nav := None, None;
      if selectedMethod.None? {
        alert := MissingMethodAlert;
        return;
      }
      loading := true;
      sent := Some(BillRequest(store.pin, Wire(selectedMethod.value)));
      match response {
        case BillAccepted =>
          alert := BillRequestedAlert;
          nav := Some(AppNavigator.OrderDetails);
        case BillRejected(message) =>
          alert := ServerErrorAlert(message, BillRejectionFallback);
        case BillTransportFailure =>
          alert := BillConnectionAlert;
      }
      loading := false;
    }
  }
}
