/** The line-item list of the receipt form: adding a product, setting a
    quantity, removing a line and the running total. Every operation is a pure
    transformation of the current list. */
module LineItems {
  import opened Receipts
  import Collection

  /** A product of the read-only catalog, price already parsed to cents. */
  datatype CatalogProduct = CatalogProduct(id: int, nombre: string, valorUnitario: int)

  function ProductoId(it: LineItem): int { it.productoId }

  /** The line's subtotal matches its quantity and unit price. */
  predicate Consistent(it: LineItem) { it.subtotal == it.cantidad * it.valorUnitario }

  /** The list invariants: one line per product, every line consistent, every quantity at least 1. */
  predicate WellFormed(items: seq<LineItem>)
  {
    && Collection.UniqueKeys(items, ProductoId)
    && (forall i :: 0 <= i < |items| ==> Consistent(items[i]) && items[i].cantidad >= 1)
  }

  predicate Present(items: seq<LineItem>, productoId: int)
  {
    Collection.HasKey(items, ProductoId, productoId)
  }

  /** One more of the same product. */
  function Bumped(it: LineItem): LineItem
  {
    it.(cantidad := it.cantidad + 1, subtotal := (it.cantidad + 1) * it.valorUnitario)
  }

  /** The rewrite of a line whose quantity is set to `cantidad`. */
  function Requantify(cantidad: int): LineItem -> LineItem
  {
    (it: LineItem) => it.(cantidad := cantidad, subtotal := cantidad * it.valorUnitario)
  }

  /** The line of a product chosen for the first time. */
  function NewItem(p: CatalogProduct): LineItem
  {
    LineItem(p.id, p.nombre, p.valorUnitario, 1, p.valorUnitario)
  }

  /** `agregarProducto`: bumps the product's line if it has one, otherwise appends a new line. */
  function AgregarProducto(items: seq<LineItem>, p: CatalogProduct): (r: seq<LineItem>)
    ensures Present(items, p.id) ==> |r| == |items|
    ensures Present(items, p.id) ==> forall i :: 0 <= i < |items| ==>
      r[i] == if items[i].productoId == p.id then Bumped(items[i]) else items[i]
    ensures !Present(items, p.id) ==> |r| == |items| + 1 && r[..|items|] == items
    ensures !Present(items, p.id) ==>
      && r[|items|].productoId == p.id && r[|items|].nombre == p.nombre && r[|items|].cantidad == 1
      && r[|items|].subtotal == p.valorUnitario && r[|items|].valorUnitario == p.valorUnitario
  {
    if Present(items, p.id) then Collection.MapKey(items, ProductoId, p.id, Bumped)
    else items + [NewItem(p)]
  }

  /** `eliminarItem`: drops the product's lines and keeps every other line (in
      order, by `Collection.RemoveKeyAppend`). */
  function EliminarItem(items: seq<LineItem>, productoId: int): (r: seq<LineItem>)
    ensures |r| == |items| - Collection.CountKey(items, ProductoId, productoId)
    ensures forall i :: 0 <= i < |r| ==> r[i].productoId != productoId && r[i] in items
    ensures forall i :: 0 <= i < |items| && items[i].productoId != productoId ==> items[i] in r
  {
    Collection.RemoveKeyMembers(items, ProductoId, productoId);
    Collection.RemoveKey(items, ProductoId, productoId)
  }

  /** `actualizarCantidad` with the quantity already parsed: a quantity of zero or
      less removes the line, any other sets it and recomputes the subtotal. */
  function ActualizarCantidad(items: seq<LineItem>, productoId: int, cantidad: int): (r: seq<LineItem>)
    ensures cantidad <= 0 ==> r == EliminarItem(items, productoId)
    ensures cantidad > 0 ==> |r| == |items|
    ensures cantidad > 0 ==> forall i :: 0 <= i < |items| ==>
      r[i] == if items[i].productoId == productoId
              then items[i].(cantidad := cantidad, subtotal := cantidad * items[i].valorUnitario)
              else items[i]
  {
    if cantidad <= 0 then EliminarItem(items, productoId)
    else Collection.MapKey(items, ProductoId, productoId, Requantify(cantidad))
  }

  /** `calcularTotal`: the sum of the subtotals. */
  function Total(items: seq<LineItem>): int
  {
    if items == [] then 0 else items[0].subtotal + Total(items[1..])
  }

  /** Sum of quantity times unit price: the amount the list stands for. */
  function Amount(items: seq<LineItem>): int
  {
    if items == [] then 0 else items[0].cantidad * items[0].valorUnitario + Amount(items[1..])
  }

  // ---------------------------------------------------------------------------
  // Properties

  lemma UniqueTail(items: seq<LineItem>)
    requires items != [] && Collection.UniqueKeys(items, ProductoId)
    ensures Collection.UniqueKeys(items[1..], ProductoId)
    ensures !Present(items[1..], items[0].productoId)
  {
  }

  /** When every line is consistent the total is the amount of the list. */
  lemma {:induction false} TotalIsAmount(items: seq<LineItem>)
    requires forall i :: 0 <= i < |items| ==> Consistent(items[i])
    ensures Total(items) == Amount(items)
  {
    if items != [] {
      TotalIsAmount(items[1..]);
    }
  }

  /** The empty list totals 0, and appending a line adds its subtotal. */
  lemma {:induction false} TotalAppend(items: seq<LineItem>, it: LineItem)
    ensures Total([]) == 0
    ensures Total(items + [it]) == Total(items) + it.subtotal
  {
    if items != [] {
      assert (items + [it])[1..] == items[1..] + [it];
      TotalAppend(items[1..], it);
    }
  }

  /** Rewriting the one line of a product changes the total by the change in that line's subtotal. */
  lemma {:induction false} TotalMapOne(items: seq<LineItem>, k: nat, f: LineItem -> LineItem)
    requires k < |items| && Collection.UniqueKeys(items, ProductoId)
    ensures Total(Collection.MapKey(items, ProductoId, items[k].productoId, f))
      == Total(items) - items[k].subtotal + f(items[k]).subtotal
  {
    var id := items[k].productoId;
    UniqueTail(items);
    if k == 0 {
      Collection.MapKeyAbsent(items[1..], ProductoId, id, f);
    } else {
      TotalMapOne(items[1..], k - 1, f);
    }
  }

  /** Dropping the one line of a product lowers the total by that line's subtotal. */
  lemma {:induction false} TotalRemoveOne(items: seq<LineItem>, k: nat)
    requires k < |items| && Collection.UniqueKeys(items, ProductoId)
    ensures Total(EliminarItem(items, items[k].productoId)) == Total(items) - items[k].subtotal
  {
    var id := items[k].productoId;
    UniqueTail(items);
    var tail := EliminarItem(items[1..], id);
    assert EliminarItem(items, id) == (if items[0].productoId == id then [] else [items[0]]) + tail;
    if k == 0 {
      Collection.RemoveKeyAbsent(items[1..], ProductoId, id);
      assert EliminarItem(items, id) == items[1..];
    } else {
      TotalRemoveOne(items[1..], k - 1);
      assert ([items[0]] + tail)[1..] == tail;
    }
  }

  /** Rewriting lines without touching their product ids keeps one line per product. */
  lemma MapKeepsUnique(items: seq<LineItem>, productoId: int, f: LineItem -> LineItem)
    requires Collection.UniqueKeys(items, ProductoId)
    requires forall it :: f(it).productoId == it.productoId
    ensures Collection.UniqueKeys(Collection.MapKey(items, ProductoId, productoId, f), ProductoId)
  {
    var r := Collection.MapKey(items, ProductoId, productoId, f);
    assert forall i :: 0 <= i < |r| ==> r[i].productoId == items[i].productoId;
  }

  /** Adding a product keeps one line per product, consistent subtotals and
      quantities of at least 1. */
  lemma AgregarProductoPreserves(items: seq<LineItem>, p: CatalogProduct)
    requires WellFormed(items)
    ensures WellFormed(AgregarProducto(items, p))
  {
    if Present(items, p.id) {
      MapKeepsUnique(items, p.id, Bumped);
    } else {
      var r := AgregarProducto(items, p);
      assert forall i :: 0 <= i < |items| ==> r[i] == items[i];
    }
  }

  /** Adding a product raises the total by one unit price: the stored line's
      price when the product is already listed, the catalog price otherwise. */
  lemma AgregarProductoTotal(items: seq<LineItem>, p: CatalogProduct, k: nat)
    requires Collection.UniqueKeys(items, ProductoId)
    requires k < |items| && items[k].productoId == p.id && Consistent(items[k])
    ensures Total(AgregarProducto(items, p)) == Total(items) + items[k].valorUnitario
  {
    AgregarExistenteIsBump(items, p, k);
    TotalMapOne(items, k, Bumped);
    BumpedSubtotal(items[k]);
  }

  lemma AgregarExistenteIsBump(items: seq<LineItem>, p: CatalogProduct, k: nat)
    requires k < |items| && items[k].productoId == p.id
    ensures AgregarProducto(items, p) == Collection.MapKey(items, ProductoId, p.id, Bumped)
  {
    assert Present(items, p.id);
  }

  lemma BumpedSubtotal(it: LineItem)
    requires Consistent(it)
    ensures Bumped(it).subtotal == it.subtotal + it.valorUnitario
  {
    assert (it.cantidad + 1) * it.valorUnitario == it.cantidad * it.valorUnitario + it.valorUnitario;
  }

  lemma AgregarNuevoTotal(items: seq<LineItem>, p: CatalogProduct)
    requires !Present(items, p.id)
    ensures Total(AgregarProducto(items, p)) == Total(items) + p.valorUnitario
  {
    TotalAppend(items, NewItem(p));
  }

  /** Setting a quantity keeps the list invariants. */
  lemma ActualizarCantidadPreserves(items: seq<LineItem>, productoId: int, cantidad: int)
    requires WellFormed(items)
    ensures WellFormed(ActualizarCantidad(items, productoId, cantidad))
  {
    if cantidad > 0 {
      MapKeepsUnique(items, productoId, Requantify(cantidad));
    } else {
      EliminarItemPreserves(items, productoId);
    }
  }

  /** Setting a positive quantity replaces that line's subtotal in the total by
      the new quantity times its unit price. */
  lemma ActualizarCantidadTotal(items: seq<LineItem>, productoId: int, cantidad: int, k: nat)
    requires Collection.UniqueKeys(items, ProductoId)
    requires cantidad > 0 && k < |items| && items[k].productoId == productoId
    ensures Total(ActualizarCantidad(items, productoId, cantidad))
      == Total(items) - items[k].subtotal + cantidad * items[k].valorUnitario
  {
    TotalMapOne(items, k, Requantify(cantidad));
  }

  /** Removing a line keeps the list invariants, leaves no line for that product,
      and a second removal changes nothing. */
  lemma EliminarItemPreserves(items: seq<LineItem>, productoId: int)
    requires WellFormed(items)
    ensures WellFormed(EliminarItem(items, productoId))
    ensures !Present(EliminarItem(items, productoId), productoId)
    ensures EliminarItem(EliminarItem(items, productoId), productoId) == EliminarItem(items, productoId)
  {
    var r := EliminarItem(items, productoId);
    RemovePreservesUnique(items, productoId);
    Collection.RemoveKeyMembers(items, ProductoId, productoId);
    assert forall i :: 0 <= i < |r| ==> Consistent(r[i]) && r[i].cantidad >= 1 by {
      forall i | 0 <= i < |r| ensures Consistent(r[i]) && r[i].cantidad >= 1 {
        assert r[i] in items;
      }
    }
    Collection.RemoveKeyIdempotent(items, ProductoId, productoId);
  }

  lemma {:induction false} RemovePreservesUnique(items: seq<LineItem>, productoId: int)
    requires Collection.UniqueKeys(items, ProductoId)
    ensures Collection.UniqueKeys(EliminarItem(items, productoId), ProductoId)
  {
    if items != [] {
      UniqueTail(items);
      RemovePreservesUnique(items[1..], productoId);
      var rest := EliminarItem(items[1..], productoId);
      Collection.RemoveKeyMembers(items[1..], ProductoId, productoId);
      assert forall i :: 0 <= i < |rest| ==> rest[i].productoId != items[0].productoId;
    }
  }
}
