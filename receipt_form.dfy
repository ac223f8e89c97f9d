/** The receipt form component `ComprobanteModalForm`: a local copy of the
    selected draft and of its line items, edited by the item operations and
    handed, with the computed total, to the receipt hook on submit. */
module ReceiptForm {
  import opened Receipts
  import LineItems
  import ReceiptManager
  import Collection

  /** The receipt `onSubmit` hands over: the edited draft with the selected
      lines as its items and their sum as its total. */
  function Submission(form: Receipt, items: seq<LineItem>): (r: Receipt)
    ensures r.items == items && r.total == LineItems.Total(items)
    ensures r.id == form.id && r.tipo == form.tipo && r.fecha == form.fecha
    ensures r.clienteNombre == form.clienteNombre && r.clienteDocumento == form.clienteDocumento
    ensures r.numeroComprobante == form.numeroComprobante && r.empresaId == form.empresaId
    ensures LineItems.WellFormed(items) ==> r.total == LineItems.Amount(items)
  {
    var r := form.(items := items, total := LineItems.Total(items));
    if LineItems.WellFormed(items) then LineItems.TotalIsAmount(items); r else r
  }

  /** The submission passes validation exactly when the form names a client,
      gives a document and at least one line is selected; the lines already
      held by the draft play no part. */
  lemma SubmissionPasses(form: Receipt, items: seq<LineItem>)
    ensures Passes(Submission(form, items)) <==>
      form.clienteNombre != "" && form.clienteDocumento != "" && items != []
  {
  }

  /** A new receipt created from the form stores the selected lines and, when
      they are well formed, the sum of quantity times unit price as its total. */
  lemma SubmittedReceiptTotal(cs: seq<Receipt>, empresaId: int, form: Receipt, items: seq<LineItem>, newId: int, today: string)
    requires LineItems.WellFormed(items) && items != []
    requires form.clienteNombre != "" && form.clienteDocumento != "" && form.id == 0
    ensures var r := ReceiptManager.AfterSubmit(cs, empresaId, Submission(form, items), newId, today);
      |r| == |cs| + 1 && r[|cs|].items == items && r[|cs|].total == LineItems.Amount(items)
  {
    ReceiptManager.SubmitCreates(cs, empresaId, Submission(form, items), newId, today);
  }

  class Form {
    /** `comprobanteForm`: the draft being edited. */
    var comprobanteForm: Receipt
    /** `itemsSeleccionados`: the lines chosen so far. */
    var itemsSeleccionados: seq<LineItem>

    /** Mounting the component with the hook's selected draft. */
    constructor (selected: Receipt)
      ensures comprobanteForm == selected && itemsSeleccionados == selected.items
    {
      comprobanteForm := selected;
      itemsSeleccionados := selected.items;
    }

    /** The effect that copies a newly selected draft and its lines. */
    method Sync(selected: Receipt)
      modifies this
      ensures comprobanteForm == selected && itemsSeleccionados == selected.items
    {
      comprobanteForm := selected;
      itemsSeleccionados := selected.items;
    }

    /** `agregarProducto`. */
    method AgregarProducto(p: LineItems.CatalogProduct)
      modifies this`itemsSeleccionados
      ensures itemsSeleccionados == LineItems.AgregarProducto(old(itemsSeleccionados), p)
      ensures old(LineItems.WellFormed(itemsSeleccionados)) ==> LineItems.WellFormed(itemsSeleccionados)
    {
      if LineItems.WellFormed(itemsSeleccionados) {
        LineItems.AgregarProductoPreserves(itemsSeleccionados, p);
      }
      itemsSeleccionados := LineItems.AgregarProducto(itemsSeleccionados, p);
    }

    /** `actualizarCantidad`: a quantity of zero or less removes the line. */
    method ActualizarCantidad(productoId: int, cantidad: int)
      modifies this`itemsSeleccionados
      ensures itemsSeleccionados == LineItems.ActualizarCantidad(old(itemsSeleccionados), productoId, cantidad)
      ensures old(LineItems.WellFormed(itemsSeleccionados)) ==> LineItems.WellFormed(itemsSeleccionados)
    {
      if LineItems.WellFormed(itemsSeleccionados) {
        LineItems.ActualizarCantidadPreserves(itemsSeleccionados, productoId, cantidad);
      }
      if cantidad <= 0 {
        EliminarItem(productoId);
        return;
      }
      itemsSeleccionados := Collection.MapKey(itemsSeleccionados, LineItems.ProductoId, productoId, LineItems.Requantify(cantidad));
    }

    /** `eliminarItem`. */
    method EliminarItem(productoId: int)
      modifies this`itemsSeleccionados
      ensures itemsSeleccionados == LineItems.EliminarItem(old(itemsSeleccionados), productoId)
      ensures !LineItems.Present(itemsSeleccionados, productoId)
      ensures old(LineItems.WellFormed(itemsSeleccionados)) ==> LineItems.WellFormed(itemsSeleccionados)
    {
      if LineItems.WellFormed(itemsSeleccionados) {
        LineItems.EliminarItemPreserves(itemsSeleccionados, productoId);
      }
      Collection.RemoveKeyMembers(itemsSeleccionados, LineItems.ProductoId, productoId);
      itemsSeleccionados := LineItems.EliminarItem(itemsSeleccionados, productoId);
    }

    /** `calcularTotal`: the sum of the subtotals of whatever lines are held; for
        well-formed lines, the sum of quantity times unit price. */
    function CalcularTotal(): (total: int)
      reads this`itemsSeleccionados
      ensures total == LineItems.Total(itemsSeleccionados)
      ensures LineItems.WellFormed(itemsSeleccionados) ==> total == LineItems.Amount(itemsSeleccionados)
      ensures itemsSeleccionados == [] ==> total == 0
    {
      var items := itemsSeleccionados;
      if LineItems.WellFormed(items) then LineItems.TotalIsAmount(items); LineItems.Total(items)
      else LineItems.Total(items)
    }

    /** `onSubmit`: hands the completed draft to the receipt hook; the form's own
        state is left for the hook's close and the resync effect. */
    method OnSubmit(m: ReceiptManager.Manager, newId: int, today: string, writeFails: bool)
      modifies m`comprobantes, m`comprobanteSelected, m`visibleForm, m`errors
      modifies m`storage, m`notices, m`errorLog
      ensures m.comprobantes == ReceiptManager.AfterSubmit(old(m.comprobantes), m.empresaId,
        Submission(comprobanteForm, itemsSeleccionados), newId, today)
      ensures var c := Submission(comprobanteForm, itemsSeleccionados);
        !Passes(c) ==>
          && m.errors == ValidationErrors(c)
          && m.storage == old(m.storage) && m.notices == old(m.notices) && m.errorLog == old(m.errorLog)
          && m.comprobanteSelected == old(m.comprobanteSelected) && m.visibleForm == old(m.visibleForm)
      ensures var c := Submission(comprobanteForm, itemsSeleccionados);
        Passes(c) ==>
          && m.storage == (if writeFails then old(m.storage) else old(m.storage)[m.Key() := m.comprobantes])
          && m.errorLog == (if writeFails then old(m.errorLog) + [ReceiptManager.SaveError] else old(m.errorLog))
          && m.notices == old(m.notices) + [ReceiptManager.SubmitNotice(c, NumeroComprobante(old(m.comprobantes), c.tipo))]
          && !m.visibleForm && m.comprobanteSelected == m.InitialComprobanteForm() && m.errors == map[]
    {
      var comprobanteCompleto := Submission(comprobanteForm, itemsSeleccionados);
      m.AddComprobante(comprobanteCompleto, newId, today, writeFails);
    }
  }
}
