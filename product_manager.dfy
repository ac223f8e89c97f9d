/** The product hook `useProductos`: the company's product list held through
    `productoReducer`, the product being edited, form visibility and the error
    map. The product service is remote: each call is recorded as a request and
    its reply is an input of the operation. */
module ProductManager {
  import opened Common
  import opened Productos
  import ProductoReducer

  /** A call to the product service. */
  datatype Request =
    | FindByEmpresa(empresaId: int)
    | Save(empresaId: int, producto: Product)
    | Update(empresaId: int, producto: Product)
    | Remove(empresaId: int, id: int)

  /** The outcome of a service call: its data, or the error it was rejected with. */
  datatype Reply<T> = Ok(data: T) | Failed(error: string)

  const FetchError := "Error al obtener productos:"
  const SaveFailed := Notice("Error", "No se pudo guardar el producto", "error")
  const RemoveFailed := Notice("Error", "No se pudo eliminar el producto", "error")
  const Removed := Notice("Eliminado", "El producto fue eliminado", "success")

  /** The service call a complete product is sent with: `save` for a new one
      (id 0), `update` for any other. */
  function Route(empresaId: int, producto: Product): (q: Request)
    ensures q.Save? <==> producto.id == 0
    ensures q.Save? || q.Update?
    ensures q.empresaId == empresaId && q.producto == producto
  {
    if producto.id == 0 then Save(empresaId, producto) else Update(empresaId, producto)
  }

  /** The action dispatched with the stored product the service sends back. */
  function Stored(producto: Product, data: Product): (a: ProductoReducer.Action)
    ensures a.AddProducto? <==> producto.id == 0
    ensures a.AddProducto? || a.UpdateProducto?
    ensures a.producto == data
  {
    if producto.id == 0 then ProductoReducer.AddProducto(data) else ProductoReducer.UpdateProducto(data)
  }

  /** The notice of a successful save. */
  function SavedNotice(producto: Product): Notice
  {
    if producto.id == 0 then Notice("Producto creado", "El producto fue registrado con éxito", "success")
    else Notice("Producto actualizado", "El producto fue actualizado con éxito", "info")
  }

  /** The product list after `handlerAddProducto`: a product with a falsy required
      field and a rejected call leave it as it was; otherwise the stored product
      is appended (new) or written over its id (existing). */
  function AfterAdd(ps: seq<Product>, producto: Product, reply: Reply<Product>): seq<Product>
  {
    if Complete(producto) && reply.Ok? then ProductoReducer.Reduce(ps, Stored(producto, reply.data)) else ps
  }

  /** Saving a new product appends the stored product and keeps every earlier one. */
  lemma AddAppends(ps: seq<Product>, producto: Product, data: Product)
    requires Complete(producto) && producto.id == 0
    ensures AfterAdd(ps, producto, Ok(data)) == ps + [data]
  {
    var r := AfterAdd(ps, producto, Ok(data));
    assert r[..|ps|] == ps;
  }

  /** Saving an existing product keeps the list's length; the stored product
      replaces the entries with its id and the others stay. */
  lemma UpdateReplaces(ps: seq<Product>, producto: Product, data: Product)
    requires Complete(producto) && producto.id != 0
    ensures var r := AfterAdd(ps, producto, Ok(data));
      |r| == |ps| && forall i :: 0 <= i < |ps| ==> r[i] == if ps[i].id == data.id then data else ps[i]
  {
  }

  /** An incomplete product or a failed call never changes the list. */
  lemma AddRejectedUnchanged(ps: seq<Product>, producto: Product, reply: Reply<Product>)
    requires !Complete(producto) || reply.Failed?
    ensures AfterAdd(ps, producto, reply) == ps
  {
  }

  class Manager {
    var productos: seq<Product>
    var productoSelected: Product
    var visibleForm: bool
    var errors: map<string, string>
    /** Calls made to the product service, in order. */
    var requests: seq<Request>
    /** Alerts shown, in order. */
    var notices: seq<Notice>
    /** Messages written to the console error log, in order. */
    var errorLog: seq<string>

    /** The hook's initial state. */
    constructor ()
      ensures productos == [] && productoSelected == InitialProductoForm
      ensures !visibleForm && errors == map[]
      ensures requests == [] && notices == [] && errorLog == []
    {
      productos := [];
      productoSelected := InitialProductoForm;
      visibleForm := false;
      errors := map[];
      requests := [];
      notices := [];
      errorLog := [];
    }

    /** `getProductos`: nothing for a falsy company id; otherwise asks the service
        and loads its answer, or logs the error and keeps the list. */
    method GetProductos(empresaId: int, reply: Reply<seq<Product>>)
      modifies this`productos, this`requests, this`errorLog
      ensures empresaId == 0 ==>
        productos == old(productos) && requests == old(requests) && errorLog == old(errorLog)
      ensures empresaId != 0 ==> requests == old(requests) + [FindByEmpresa(empresaId)]
      ensures empresaId != 0 && reply.Ok? ==> productos == reply.data && errorLog == old(errorLog)
      ensures empresaId != 0 && reply.Failed? ==>
        productos == old(productos) && errorLog == old(errorLog) + [FetchError + " " + reply.error]
    {
      if empresaId == 0 {
        return;
      }
      requests := requests + [FindByEmpresa(empresaId)];
      match reply
      case Ok(data) =>
        productos := ProductoReducer.Reduce(productos, ProductoReducer.LoadingProductos(data));
      case Failed(error) =>
        errorLog := errorLog + [FetchError + " " + error];
    }

    /** `handlerAddProducto`: an incomplete product only sets the error map and no
        call is made; a complete one is saved or updated, and on success the
        stored product enters the list, a notice is shown, the form is closed and
        the errors are cleared; a failed call is logged and reported, and the form
        stays as it was. */
    method AddProducto(empresaId: int, producto: Product, reply: Reply<Product>)
      modifies this`productos, this`productoSelected, this`visibleForm, this`errors
      modifies this`requests, this`notices, this`errorLog
      ensures productos == AfterAdd(old(productos), producto, reply)
      ensures !Complete(producto) ==>
        && errors == ProductErrors(producto)
        && requests == old(requests) && notices == old(notices) && errorLog == old(errorLog)
        && productoSelected == old(productoSelected) && visibleForm == old(visibleForm)
      ensures Complete(producto) ==> requests == old(requests) + [Route(empresaId, producto)]
      ensures Complete(producto) && reply.Ok? ==>
        && notices == old(notices) + [SavedNotice(producto)] && errorLog == old(errorLog)
        && !visibleForm && productoSelected == InitialProductoForm && errors == map[]
      ensures Complete(producto) && reply.Failed? ==>
        && notices == old(notices) + [SaveFailed] && errorLog == old(errorLog) + [reply.error]
        && productoSelected == old(productoSelected) && visibleForm == old(visibleForm)
        && errors == old(errors)
    {
      if !Complete(producto) {
        errors := ProductErrors(producto);
        return;
      }
      requests := requests + [Route(empresaId, producto)];
      match reply
      case Ok(data) =>
        productos := ProductoReducer.Reduce(productos, Stored(producto, data));
        notices := notices + [SavedNotice(producto)];
        CloseForm();
        errors := map[];
      case Failed(error) =>
        errorLog := errorLog + [error];
        notices := notices + [SaveFailed];
    }

    /** `handlerRemoveProducto`: a declined confirmation changes nothing; a
        confirmed one calls the service and, when it succeeds, drops the product
        from the list and shows a notice, otherwise logs and reports the error. */
    method RemoveProducto(empresaId: int, id: int, confirmed: bool, reply: Reply<()>)
      modifies this`productos, this`requests, this`notices, this`errorLog
      ensures !confirmed ==>
        productos == old(productos) && requests == old(requests)
        && notices == old(notices) && errorLog == old(errorLog)
      ensures confirmed ==> requests == old(requests) + [Remove(empresaId, id)]
      ensures confirmed && reply.Ok? ==>
        && productos == ProductoReducer.Reduce(old(productos), ProductoReducer.RemoveProducto(id))
        && notices == old(notices) + [Removed] && errorLog == old(errorLog)
      ensures confirmed && reply.Failed? ==>
        && productos == old(productos)
        && notices == old(notices) + [RemoveFailed] && errorLog == old(errorLog) + [reply.error]
    {
      if confirmed {
        requests := requests + [Remove(empresaId, id)];
        match reply
        case Ok(_) =>
          productos := ProductoReducer.Reduce(productos, ProductoReducer.RemoveProducto(id));
          notices := notices + [Removed];
        case Failed(error) =>
          errorLog := errorLog + [error];
          notices := notices + [RemoveFailed];
      }
    }

    /** `handlerOpenForm`: shows the form and keeps the selected product. */
    method OpenForm()
      modifies this`visibleForm
      ensures visibleForm
    {
      visibleForm := true;
    }

    /** `handlerCloseForm`: hides the form and resets the selection; the error map
        is kept. */
    method CloseForm()
      modifies this`visibleForm, this`productoSelected
      ensures !visibleForm && productoSelected == InitialProductoForm
    {
      visibleForm := false;
      productoSelected := InitialProductoForm;
    }

    /** `handlerProductoSelectedForm`: the given product becomes the selection, form shown. */
    method SelectForm(producto: Product)
      modifies this`productoSelected, this`visibleForm
      ensures productoSelected == producto && visibleForm
    {
      productoSelected := producto;
      visibleForm := true;
    }
  }
}
