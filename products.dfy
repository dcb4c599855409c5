/**
 * Menu products as the screens read them, and the record adapter of the
 * product service (src/services/products.js), which turns each raw backend item
 * into the shape the screens expect.
 */
module ProductsService {
  import opened Wrappers
  import opened Js

  /**
   * A product as the menu screen, the product card and the cart receive it.
   * Prices are integer cents; a price of 0 is falsy, like a missing one.
   */
  datatype Product = Product(
    idProducto: nat,
    id: nat,
    nombre: string,
    descripcion: Option<string>,
    precioVenta: nat,
    precio: nat,
    imagen: Option<string>,
    categoria: Option<string>)

  /** The identifier the cart keys a product by: `id_producto || id`. */
  function ProductKey(p: Product): (k: nat)
    ensures p.idProducto != 0 ==> k == p.idProducto
    ensures p.idProducto == 0 ==> k == p.id
    ensures k == 0 <==> p.idProducto == 0 && p.id == 0
  {
    OrNat(p.idProducto, p.id)
  }

  /** The unit price: `precio_venta || precio || 0`. */
  function UnitPrice(p: Product): (c: nat)
    ensures p.precioVenta != 0 ==> c == p.precioVenta
    ensures p.precioVenta == 0 ==> c == p.precio
  {
    if p.precioVenta != 0 then p.precioVenta else if p.precio != 0 then p.precio else 0
  }

  /** One item of the backend's product list, before adaptation. */
  datatype RawItem = RawItem(
    idProducto: nat,
    nombre: string,
    descripcion: Option<string>,
    precioVenta: nat,
    imagen: Option<string>,
    categoria: Option<string>,
    nombreCategoria: Option<string>)

  /** `categoria || nombre_categoria || 'General'`. */
  function AdaptedCategory(item: RawItem): (c: string)
    ensures c != ""
    ensures Truthy(item.categoria) ==> c == item.categoria.value
    ensures !Truthy(item.categoria) && Truthy(item.nombreCategoria) ==> c == item.nombreCategoria.value
    ensures !Truthy(item.categoria) && !Truthy(item.nombreCategoria) ==> c == "General"
  {
    if Truthy(item.categoria) then item.categoria.value
    else if Truthy(item.nombreCategoria) then item.nombreCategoria.value
    else "General"
  }

  /** The record built for one raw item; it carries no `id_producto` and no `precio_venta`. */
  function Adapt(item: RawItem): (p: Product)
  {
    Product(0, item.idProducto, item.nombre, item.descripcion, 0, item.precioVenta, item.imagen,
            Some(AdaptedCategory(item)))
  }

  /** The `map` over the raw list. */
  function AdaptAll(items: seq<RawItem>): (ps: seq<Product>)
    ensures |ps| == |items|
    ensures forall i :: 0 <= i < |items| ==> ps[i] == Adapt(items[i])
  {
    seq(|items|, i requires 0 <= i < |items| => Adapt(items[i]))
  }

  /**
   * `getProducts`: the request's outcome is given; a failed request is rethrown
   * with the same error, a successful one is adapted item by item.
   */
  function GetProducts<E>(response: Result<seq<RawItem>, E>): (r: Result<seq<Product>, E>)
    ensures response.Failure? <==> r.Failure?
    ensures response.Failure? ==> r.error == response.error
    ensures response.Success? ==> r.value == AdaptAll(response.value)
    ensures response.Success? ==> |r.value| == |response.value|
  {
    match response
    case Failure(e) => Failure(e)
    case Success(items) => Success(AdaptAll(items))
  }

  /**
   * Each adapted product is keyed by the raw `id_producto`, keeps name,
   * description and image, is priced by the raw `precio_venta`, and always
   * carries a non-empty category.
   */
  lemma AdaptedFields(items: seq<RawItem>, i: nat)
    requires i < |items|
    ensures var p := AdaptAll(items)[i];
      && ProductKey(p) == items[i].idProducto
      && p.id == items[i].idProducto
      && p.nombre == items[i].nombre
      && p.descripcion == items[i].descripcion
      && p.imagen == items[i].imagen
      && UnitPrice(p) == items[i].precioVenta
      && Truthy(p.categoria)
      && p.categoria.value == AdaptedCategory(items[i])
  {
  }
}
