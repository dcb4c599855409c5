/**
 * The order tracking screen (src/screens/OrderDetailsScreen.jsx): fetching the
 * ticket of the current PIN, the "awaiting the bill" classification and the
 * actions it offers, the table shown, and the guard of the receipt PDF.
 */
module OrderDetailsScreen {
  import opened Wrappers
  import opened Js
  import opened CartContext

  /** One line of the server's ticket. */
  datatype TicketItem = TicketItem(cantidad: int, nombre: string, subtotal: int, estadoProducto: string)

  /** The server's ticket: restaurant name, table (0 when absent), items and total. */
  datatype Ticket = Ticket(restaurante: string, mesa: nat, items: seq<TicketItem>, total: int)

  /** The tracking answer: whether an order is active, its `estado`, and its ticket. */
  datatype OrderData = OrderData(activo: bool, estado: string, ticket: Option<Ticket>)

  /** How the tracking request ended: a decoded body, or a failure of the request or of decoding. */
  datatype TrackingResponse = Tracking(data: OrderData) | TrackingFailure

  /** `esPorPagar`: the diner has already asked for the bill. */
  predicate EsPorPagar(d: OrderData)
    ensures EsPorPagar(d) <==> d.estado == "por_pagar"
  {
    d.estado == "por_pagar"
  }

  /** The buttons under the ticket. */
  datatype Action = DownloadPdf | OrderMore | Pay

  /** Awaiting the bill offers only the PDF; otherwise "order more" and "pay". */
  function Actions(d: OrderData): (r: set<Action>)
    ensures DownloadPdf in r <==> EsPorPagar(d)
    ensures OrderMore in r <==> !EsPorPagar(d)
    ensures Pay in r <==> !EsPorPagar(d)
    ensures r != {}
  {
    if EsPorPagar(d) then {DownloadPdf} else {OrderMore, Pay}
  }

  /** `tableId || ticket.mesa`: the table assigned at checkout wins over the ticket's. */
  function TableShown(tableId: nat, ticket: Ticket): (t: nat)
    ensures tableId != 0 ==> t == tableId
    ensures tableId == 0 ==> t == ticket.mesa
  {
    OrNat(tableId, ticket.mesa)
  }

  /** What the PDF receipt prints. */
  datatype Receipt = Receipt(restaurante: string, mesa: nat, items: seq<TicketItem>, total: int)

  const NoTicketAlert := Alert("Error", "No hay datos para el ticket")

  /** `generatePdf` up to printing: without a ticket it stops with a notice before anything is printed. */
  function PdfReceipt(orderData: Option<OrderData>, tableId: nat): (r: Result<Receipt, Alert>)
    ensures r.Failure? <==> orderData.None? || orderData.value.ticket.None?
    ensures r.Failure? ==> r.error == NoTicketAlert
    ensures r.Success? ==>
      var t := orderData.value.ticket.value;
      r.value == Receipt(t.restaurante, TableShown(tableId, t), t.items, t.total)
  {
    if orderData.None? || orderData.value.ticket.None? then Failure(NoTicketAlert)
    else
      var t := orderData.value.ticket.value;
      Success(Receipt(t.restaurante, TableShown(tableId, t), t.items, t.total))
  }

  /**
   * What the screen renders: a spinner, the "no active orders" notice, the
   * ticket with its table, items, total and actions, or a render that throws
   * because an active order came without a ticket (`orderData.ticket.items`).
   */
  datatype View =
    | Spinner
    | NoActiveOrders
    | TicketView(awaitingBill: bool, table: nat, items: seq<TicketItem>, total: int, actions: set<Action>)
    | RenderCrash

  /** The screen's local state and the context it reads. */
  class TrackingState {
    const store: CartStore
    var orderData: Option<OrderData>
    var loading: bool
    var refreshing: bool

    /** Only an active order is ever kept. */
    ghost predicate Valid()
      reads this
    {
      orderData.Some? ==> orderData.value.activo
    }

    constructor (store: CartStore)
      ensures Valid()
      ensures this.store == store && orderData == None && loading && !refreshing
    {
      this.store := store;
      orderData := None;
      loading := true;
      refreshing := false;
    }

    /** The render. */
    function Shown(): (v: View)
      reads this, store
      requires Valid()
      ensures loading ==> v == Spinner
      ensures !loading && orderData.None? ==> v == NoActiveOrders
      ensures !loading && orderData.Some? && orderData.value.ticket.None? ==> v == RenderCrash
      ensures !loading && orderData.Some? && orderData.value.ticket.Some? ==> v.TicketView?
      ensures v.TicketView? ==>
        var d := orderData.value;
        var t := d.ticket.value;
        && d.ticket.Some?
        && (v.awaitingBill <==> EsPorPagar(d))
        && v.table == TableShown(store.tableId, t)
        && v.items == t.items && v.total == t.total
        && v.actions == Actions(d)
    {
      if loading then Spinner
      else if orderData.None? then NoActiveOrders
      else
        var d := orderData.value;
        match d.ticket
        case None => RenderCrash
        case Some(t) => TicketView(EsPorPagar(d), TableShown(store.tableId, t), t.items, t.total, Actions(d))
    }

    /**
     * `fetchOrderData`: without a PIN nothing is fetched; an active order is
     * stored, an inactive answer clears it, a failure keeps it. The `finally`
     * block also runs on the early return, so both spinners stop on every path.
     */
    method FetchOrderData(response: TrackingResponse)
      requires Valid()
      modifies this
      ensures Valid()
      ensures !PinSet(store.pin) ==> orderData == old(orderData)
      ensures PinSet(store.pin) && response.Tracking? ==>
        orderData == (if response.data.activo then Some(response.data) else None)
      ensures response.TrackingFailure? ==> orderData == old(orderData)
      ensures !loading && !refreshing
    {
      if PinSet(store.pin) {
        match response {
          case Tracking(data) =>
            orderData := if data.activo then Some(data) else None;
          case TrackingFailure =>
        }
      }
      loading := false;
      refreshing := false;
    }

    /** Pull to refresh: the refresh spinner turns on, then the fetch runs. */
    method Refresh(response: TrackingResponse)
      requires Valid()
      modifies this
      ensures Valid()
      ensures !PinSet(store.pin) || response.TrackingFailure? ==> orderData == old(orderData)
      ensures PinSet(store.pin) && response.Tracking? ==>
        orderData == (if response.data.activo then Some(response.data) else None)
      ensures !loading && !refreshing
    {
      refreshing := true;
      FetchOrderData(response);
    }
  }

  /**
   * Whenever the ticket is on screen, the PDF receipt can be made and prints
   * the same table, items and total the screen shows.
   */
  lemma ShownTicketMatchesReceipt(screen: TrackingState)
    requires screen.Valid()
    ensures var v := screen.Shown();
      v.TicketView? ==>
        var r := PdfReceipt(screen.orderData, screen.store.tableId);
        r.Success? && r.value.mesa == v.table && r.value.items == v.items && r.value.total == v.total
  {
  }
}
