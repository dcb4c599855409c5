/**
 * The QR scanner screen (src/screens/QRScannerScreen.jsx): a scan is handled at
 * most once until the diner retries or the screen regains focus, and only a
 * payload carrying a restaurant identifier binds the restaurant.
 */
module QrScannerScreen {
  import opened Wrappers
  import opened Js
  import opened CartContext
  import AppNavigator

  /**
   * The fields read from the decoded QR text: `id_restaurante` (0 when absent
   * or falsy) and `nombre` ("" when absent).
   */
  datatype QrPayload = QrPayload(idRestaurante: nat, nombre: string)

  /** What one scan event did. */
  datatype ScanResult = Ignored | Recognized(restaurant: RestaurantData) | Unrecognized

  const UnrecognizedAlert := Alert("QR No Reconocido", "Escanea el código QR del restaurante.")

  /**
   * The restaurant a scanned payload binds, if any; `None` stands for text that
   * does not parse as JSON.
   */
  function Recognize(payload: Option<QrPayload>): (r: Option<RestaurantData>)
    ensures r.Some? <==> payload.Some? && payload.value.idRestaurante != 0
    ensures r.Some? ==> r.value.restaurantId == payload.value.idRestaurante
    ensures r.Some? ==> r.value.name == OrStr(payload.value.nombre, "Restaurante")
    ensures r.Some? ==> r.value.restaurantId != 0 && r.value.name != ""
  {
    match payload
    case Some(p) =>
      if p.idRestaurante != 0 then Some(RestaurantData(p.idRestaurante, OrStr(p.nombre, "Restaurante")))
      else None
    case None => None
  }

  /** The screen's `scanned` state, the `lockRef` flag, and the context it writes. */
  class ScannerState {
    const store: CartStore
    var scanned: bool
    var locked: bool

    /** Every handler sets or clears the two flags together. */
    ghost predicate Valid()
      reads this
    {
      scanned == locked
    }

    constructor (store: CartStore)
      ensures Valid()
      ensures this.store == store && !scanned && !locked
    {
      this.store := store;
      scanned := false;
      locked := false;
    }

    /**
     * `handleBarCodeScanned`: ignored while scanned or locked; otherwise both
     * flags are set before the data is looked at, and a recognised payload sets
     * `restaurantData` and leads to the menu. Only `restaurantData` can change.
     */
    method HandleBarCodeScanned(payload: Option<QrPayload>)
      returns (result: ScanResult, alert: Option<Alert>, nav: Option<AppNavigator.Screen>)
      requires Valid()
      modifies this, store
      ensures Valid()
      ensures (old(scanned) || old(locked)) ==>
        && result == Ignored && alert == None && nav == None
        && scanned == old(scanned) && locked == old(locked) && store.State() == old(store.State())
      ensures !(old(scanned) || old(locked)) ==> scanned && locked
      ensures !(old(scanned) || old(locked)) && Recognize(payload).Some? ==>
        && result == Recognized(Recognize(payload).value) && alert == None
        && nav == Some(AppNavigator.Menu)
        && store.State() == old(store.State()).(restaurant := Recognize(payload).value)
      ensures !(old(scanned) || old(locked)) && Recognize(payload).None? ==>
        && result == Unrecognized && alert == Some(UnrecognizedAlert) && nav == None
        && store.State() == old(store.State())
      ensures store.cartItems == old(store.cartItems) && store.pin == old(store.pin)
      ensures store.tableId == old(store.tableId)
    {
      result, alert, nav := Ignored, None, None;
      if scanned || locked {
        return;
      }
      locked := true;
      scanned := true;
      var recognized := Recognize(payload);
      if recognized.Some? {
        store.SetRestaurantData(recognized.value);
        result := Recognized(recognized.value);
        nav := Some(AppNavigator.Menu);
      } else {
        result := Unrecognized;
        alert := Some(UnrecognizedAlert);
      }
    }

    /** The alert's "Reintentar" button. */
    method Retry()
      modifies this
      ensures Valid()
      ensures !scanned && !locked
    {
      scanned := false;
      locked := false;
    }

    /** The navigation `focus` listener. */
    method Focus()
      modifies this
      ensures Valid()
      ensures !scanned && !locked
    {
      scanned := false;
      locked := false;
    }
  }
}
