/** `productoReducer`: the transition function of the company's product list. */
module ProductoReducer {
  import opened Productos
  import Collection

  datatype Action =
    | LoadingProductos(list: seq<Product>)
    | AddProducto(producto: Product)
    | UpdateProducto(producto: Product)
    | RemoveProducto(id: int)
    | Unknown(actionType: string)

  /** Loading replaces the list, add appends, update rewrites every entry with the
      payload's id, remove drops every entry with that id, anything else is a no-op. */
  function Reduce(state: seq<Product>, action: Action): (r: seq<Product>)
    ensures action.LoadingProductos? ==> r == action.list
    ensures action.AddProducto? ==>
      |r| == |state| + 1 && r[..|state|] == state && r[|state|] == action.producto
    ensures action.UpdateProducto? ==> |r| == |state| && forall i :: 0 <= i < |state| ==>
      r[i] == if state[i].id == action.producto.id then action.producto else state[i]
    ensures action.RemoveProducto? ==>
      |r| == |state| - Collection.CountKey(state, ProductId, action.id)
      && forall i :: 0 <= i < |r| ==> r[i].id != action.id
    ensures action.Unknown? ==> r == state
  {
    match action
    case LoadingProductos(list) => list
    case AddProducto(producto) => state + [producto]
    case UpdateProducto(producto) => Collection.MapKey(state, ProductId, producto.id, _ => producto)
    case RemoveProducto(id) => Collection.RemoveKey(state, ProductId, id)
    case Unknown(_) => state
  }

  /** Removal drops exactly the entries with that id: every entry left was in the
      list, every entry with another id is still there, and removing again
      changes nothing. */
  lemma RemoveExact(state: seq<Product>, id: int)
    ensures var r := Reduce(state, RemoveProducto(id));
      && (forall i :: 0 <= i < |r| ==> r[i] in state)
      && (forall i :: 0 <= i < |state| && state[i].id != id ==> state[i] in r)
      && Reduce(r, RemoveProducto(id)) == r
  {
    Collection.RemoveKeyMembers(state, ProductId, id);
    Collection.RemoveKeyIdempotent(state, ProductId, id);
  }
}
