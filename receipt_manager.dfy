/** The receipt hook `useComprobantes`: one company's receipt collection, the
    draft being edited, form visibility and the error map, mirrored into a
    key-value store with one entry per company. The clock, the confirmation
    dialog and store failures are inputs of the operations. */
module ReceiptManager {
  import opened Common
  import opened Receipts
  import opened ComprobanteReducer
  import Collection
  import Decimal

  const LoadError := "Error al cargar comprobantes:"
  const SaveError := "Error al guardar en localStorage:"

  /** The receipt a successful creation appends: the draft with the fresh id, the
      generated number, the company stamp and, when the draft has none, today's date. */
  function Created(cs: seq<Receipt>, empresaId: int, c: Receipt, newId: int, today: string): Receipt
  {
    c.(id := newId,
       numeroComprobante := NumeroComprobante(cs, c.tipo),
       empresaId := Some(empresaId),
       fecha := if c.fecha == "" then today else c.fecha)
  }

  /** The collection after `handlerAddComprobante(c)`: unchanged when validation
      fails, the created receipt appended for a draft with id 0, and the stamped
      draft written over its id otherwise. */
  function AfterSubmit(cs: seq<Receipt>, empresaId: int, c: Receipt, newId: int, today: string): seq<Receipt>
  {
    if !Passes(c) then cs
    else if c.id == 0 then Reduce(cs, AddComprobante(Created(cs, empresaId, c, newId, today)))
    else Reduce(cs, UpdateComprobante(c.(empresaId := Some(empresaId))))
  }

  /** The notice shown after a successful submission. */
  function SubmitNotice(c: Receipt, numero: string): Notice
  {
    if c.id == 0 then Notice("Comprobante creado", c.tipo + " " + numero + " creada con éxito", "success")
    else Notice("Comprobante actualizado", "El comprobante fue actualizado con éxito", "info")
  }

  // ---------------------------------------------------------------------------
  // Properties of a submission

  /** A rejected draft leaves the collection as it was. */
  lemma SubmitRejected(cs: seq<Receipt>, empresaId: int, c: Receipt, newId: int, today: string)
    requires !Passes(c)
    ensures AfterSubmit(cs, empresaId, c, newId, today) == cs
  {
  }

  /** Creating appends exactly one receipt and keeps the earlier ones: the new one
      carries the fresh id, the company, the draft's date or today's, the draft's
      client, items and total, and a number made of the type prefix and one more
      than the count of receipts of its type. */
  lemma SubmitCreates(cs: seq<Receipt>, empresaId: int, c: Receipt, newId: int, today: string)
    requires Passes(c) && c.id == 0
    ensures var r := AfterSubmit(cs, empresaId, c, newId, today);
      && |r| == |cs| + 1 && r[..|cs|] == cs
      && r[|cs|].id == newId && r[|cs|].empresaId == Some(empresaId)
      && r[|cs|].fecha == (if c.fecha == "" then today else c.fecha)
      && r[|cs|].tipo == c.tipo && r[|cs|].clienteNombre == c.clienteNombre
      && r[|cs|].clienteDocumento == c.clienteDocumento
      && r[|cs|].items == c.items && r[|cs|].total == c.total
      && |r[|cs|].numeroComprobante| >= 10
      && r[|cs|].numeroComprobante[..5] == (if c.tipo == "BOLETA" then "B001-" else "F001-")
      && Decimal.AllDigits(r[|cs|].numeroComprobante[5..])
      && Decimal.ParseDecimal(r[|cs|].numeroComprobante[5..]) == CountTipo(cs, c.tipo) + 1
  {
    NumeroFormat(cs, c.tipo);
  }

  /** Updating keeps the length, writes the stamped draft over every entry with its
      id and leaves the other entries untouched. */
  lemma SubmitUpdates(cs: seq<Receipt>, empresaId: int, c: Receipt, newId: int, today: string)
    requires Passes(c) && c.id != 0
    ensures var r := AfterSubmit(cs, empresaId, c, newId, today);
      && |r| == |cs|
      && forall i :: 0 <= i < |cs| ==>
           r[i] == if cs[i].id == c.id then c.(empresaId := Some(empresaId)) else cs[i]
  {
  }

  /** Submitting an unchanged stored receipt again reproduces the collection: its
      number and every other receipt stay as they were. */
  lemma ResubmitUnchanged(cs: seq<Receipt>, empresaId: int, k: nat, newId: int, today: string)
    requires Collection.UniqueKeys(cs, ReceiptId)
    requires k < |cs| && cs[k].id != 0 && Passes(cs[k]) && cs[k].empresaId == Some(empresaId)
    ensures AfterSubmit(cs, empresaId, cs[k], newId, today) == cs
  {
    var r := AfterSubmit(cs, empresaId, cs[k], newId, today);
    assert cs[k].(empresaId := Some(empresaId)) == cs[k];
    forall i | 0 <= i < |cs| ensures r[i] == cs[i] {
      if i < k {
        assert ReceiptId(cs[i]) != ReceiptId(cs[k]);
      } else if i > k {
        assert ReceiptId(cs[k]) != ReceiptId(cs[i]);
      }
    }
  }

  /** A submission never adds a receipt without items: every entry of the result
      was already in the collection or has at least one item. */
  lemma SubmitNeverAddsEmpty(cs: seq<Receipt>, empresaId: int, c: Receipt, newId: int, today: string)
    ensures var r := AfterSubmit(cs, empresaId, c, newId, today);
      forall i :: 0 <= i < |r| ==> r[i] in cs || r[i].items != []
  {
    var r := AfterSubmit(cs, empresaId, c, newId, today);
    if Passes(c) && c.id != 0 {
      forall i | 0 <= i < |r| ensures r[i] in cs || r[i].items != [] {
        assert r[i] == if cs[i].id == c.id then c.(empresaId := Some(empresaId)) else cs[i];
      }
    } else if Passes(c) {
      forall i | 0 <= i < |r| ensures r[i] in cs || r[i].items != [] {
        if i < |cs| { assert r[i] == r[..|cs|][i]; }
      }
    }
  }

  /** One creation, as a step: the created receipt is appended and the count of
      its type goes up by one while the other types' counts stay. */
  lemma CreateStep(cs: seq<Receipt>, empresaId: int, c: Receipt, newId: int, today: string, tipo: string)
    requires Passes(c) && c.id == 0
    ensures var r := AfterSubmit(cs, empresaId, c, newId, today);
      && r == cs + [Created(cs, empresaId, c, newId, today)]
      && CountTipo(r, tipo) == CountTipo(cs, tipo) + (if c.tipo == tipo then 1 else 0)
  {
    CountTipoAppend(cs, Created(cs, empresaId, c, newId, today), tipo);
  }

  /** Two BOLETAs created in a row are numbered B001-00001 and B001-00002. */
  lemma TwoBoletas(b1: Receipt, b2: Receipt, empresaId: int, t1: int, t2: int, today: string)
    requires Passes(b1) && Passes(b2) && b1.id == 0 && b2.id == 0
    requires b1.tipo == "BOLETA" && b2.tipo == "BOLETA"
    ensures var s1 := AfterSubmit([], empresaId, b1, t1, today);
      var s2 := AfterSubmit(s1, empresaId, b2, t2, today);
      && s2 == [Created([], empresaId, b1, t1, today), Created(s1, empresaId, b2, t2, today)]
      && s2[0].numeroComprobante == "B001-00001" && s2[1].numeroComprobante == "B001-00002"
      && s2[0].id == t1 && s2[1].id == t2
      && CountTipo(s2, "FACTURA") == 0
  {
    var s1 := AfterSubmit([], empresaId, b1, t1, today);
    CreateStep([], empresaId, b1, t1, today, "BOLETA");
    CreateStep([], empresaId, b1, t1, today, "FACTURA");
    CreateStep(s1, empresaId, b2, t2, today, "FACTURA");
    FirstBoleta([]);
    SecondBoleta(s1);
  }

  /** Two BOLETAs created in a row are numbered B001-00001 and B001-00002, and a
      FACTURA created next starts its own count at F001-00001. */
  lemma ConsecutiveNumbers(b1: Receipt, b2: Receipt, f: Receipt, empresaId: int, t1: int, t2: int, t3: int, today: string)
    requires Passes(b1) && Passes(b2) && Passes(f) && b1.id == 0 && b2.id == 0 && f.id == 0
    requires b1.tipo == "BOLETA" && b2.tipo == "BOLETA" && f.tipo == "FACTURA"
    ensures var s1 := AfterSubmit([], empresaId, b1, t1, today);
      var s2 := AfterSubmit(s1, empresaId, b2, t2, today);
      var s3 := AfterSubmit(s2, empresaId, f, t3, today);
      && |s3| == 3
      && s3[0].numeroComprobante == "B001-00001"
      && s3[1].numeroComprobante == "B001-00002"
      && s3[2].numeroComprobante == "F001-00001"
  {
    var s1 := AfterSubmit([], empresaId, b1, t1, today);
    var s2 := AfterSubmit(s1, empresaId, b2, t2, today);
    TwoBoletas(b1, b2, empresaId, t1, t2, today);
    SubmitCreates(s2, empresaId, f, t3, today);
    FirstFactura(s2);
  }

  /** Removing the id of the first of two receipts keeps only the second. */
  lemma DropFirst(x: Receipt, y: Receipt)
    requires x.id != y.id
    ensures Reduce([x, y], RemoveComprobante(x.id)) == [y]
  {
    assert [x, y] == [x] + [y];
    Collection.RemoveKeyAppend([x], [y], ReceiptId, x.id);
  }

  /** A BOLETA created while a single BOLETA is held gets B001-00002, whatever
      that receipt's own number is. */
  lemma CreateAfterOne(cs: seq<Receipt>, empresaId: int, c: Receipt, newId: int, today: string)
    requires |cs| == 1 && cs[0].tipo == "BOLETA"
    requires Passes(c) && c.id == 0 && c.tipo == "BOLETA"
    ensures var r := AfterSubmit(cs, empresaId, c, newId, today);
      |r| == 2 && r[0] == cs[0] && r[1].id == newId && r[1].numeroComprobante == "B001-00002"
  {
    assert CountTipo(cs, "BOLETA") == 1;
    SecondBoleta(cs);
  }

  /** Numbers count the receipts currently held, so removing a receipt and
      creating another can issue a number that is already in use. */
  lemma NumberReusedAfterRemoval(b1: Receipt, b2: Receipt, empresaId: int, today: string)
    requires Passes(b1) && Passes(b2) && b1.id == 0 && b2.id == 0
    requires b1.tipo == "BOLETA" && b2.tipo == "BOLETA"
    ensures var s1 := AfterSubmit([], empresaId, b1, 1, today);
      var s2 := AfterSubmit(s1, empresaId, b2, 2, today);
      var s3 := Reduce(s2, RemoveComprobante(1));
      var s4 := AfterSubmit(s3, empresaId, b1, 3, today);
      && |s4| == 2 && s4[0].id == 2 && s4[1].id == 3
      && s4[0].numeroComprobante == s4[1].numeroComprobante == "B001-00002"
  {
    var s1 := AfterSubmit([], empresaId, b1, 1, today);
    var s2 := AfterSubmit(s1, empresaId, b2, 2, today);
    var s3 := Reduce(s2, RemoveComprobante(1));
    TwoBoletas(b1, b2, empresaId, 1, 2, today);
    DropFirst(s2[0], s2[1]);
    CreateAfterOne(s3, empresaId, b1, 3, today);
  }

  // ---------------------------------------------------------------------------
  // The hook's state

  class Manager {
    /** The company whose receipts are shown (0 stands for any falsy id). */
    var empresaId: int
    /** The date `initialComprobanteForm` got when the module was loaded. */
    const loadDate: string
    var comprobantes: seq<Receipt>
    var comprobanteSelected: Receipt
    var visibleForm: bool
    var errors: map<string, string>
    /** The browser's key-value store, already parsed. */
    var storage: map<string, seq<Receipt>>
    /** Toasts and dialogs shown, in order. */
    var notices: seq<Notice>
    /** Messages written to the console error log, in order. */
    var errorLog: seq<string>

    /** `initialComprobanteForm`. */
    function InitialComprobanteForm(): Receipt
    {
      InitialForm(loadDate)
    }

    /** `STORAGE_KEY`. */
    function Key(): string
      reads this`empresaId
    {
      StorageKey(empresaId)
    }

    /** Mounting the hook: the initial state, then the effect that loads the
        company's receipts when its id is truthy. */
    constructor (empresaId: int, storage: map<string, seq<Receipt>>, loadDate: string, parseFails: bool)
      ensures this.empresaId == empresaId && this.storage == storage
      ensures this.loadDate == loadDate && comprobanteSelected == InitialForm(loadDate)
      ensures !visibleForm && errors == map[] && notices == []
      ensures var key := StorageKey(empresaId);
        && comprobantes == (if empresaId != 0 && key in storage && !parseFails then storage[key] else [])
        && errorLog == (if empresaId != 0 && key in storage && parseFails then [LoadError] else [])
    {
      this.empresaId := empresaId;
      this.storage := storage;
      this.loadDate := loadDate;
      comprobantes := [];
      comprobanteSelected := InitialForm(loadDate);
      visibleForm := false;
      errors := map[];
      notices := [];
      errorLog := [];
      new;
      if empresaId != 0 {
        GetComprobantes(parseFails);
      }
    }

    /** `getComprobantes`: a missing entry loads the empty list; an entry that does
        not parse is logged and the collection is left as it was. */
    method GetComprobantes(parseFails: bool)
      modifies this`comprobantes, this`errorLog
      ensures Key() !in storage ==> comprobantes == [] && errorLog == old(errorLog)
      ensures Key() in storage && !parseFails ==> comprobantes == storage[Key()] && errorLog == old(errorLog)
      ensures Key() in storage && parseFails ==>
        comprobantes == old(comprobantes) && errorLog == old(errorLog) + [LoadError]
    {
      if Key() in storage && parseFails {
        errorLog := errorLog + [LoadError];
      } else {
        var data := if Key() in storage then storage[Key()] else [];
        comprobantes := Reduce(comprobantes, LoadingComprobantes(data));
      }
    }

    /** A re-render with company `id`: the key follows the id, and the effect
        reloads only when the id changed and is truthy. An entry that does not
        parse is logged and the previous company's receipts stay in memory, so a
        later save writes them under the new company's key. */
    method SetEmpresa(id: int, parseFails: bool)
      modifies this`empresaId, this`comprobantes, this`errorLog
      ensures empresaId == id
      ensures id == old(empresaId) || id == 0 ==>
        comprobantes == old(comprobantes) && errorLog == old(errorLog)
      ensures id != old(empresaId) && id != 0 && StorageKey(id) !in storage ==>
        comprobantes == [] && errorLog == old(errorLog)
      ensures id != old(empresaId) && id != 0 && StorageKey(id) in storage && !parseFails ==>
        comprobantes == storage[StorageKey(id)] && errorLog == old(errorLog)
      ensures id != old(empresaId) && id != 0 && StorageKey(id) in storage && parseFails ==>
        comprobantes == old(comprobantes) && errorLog == old(errorLog) + [LoadError]
    {
      var changed := id != empresaId;
      empresaId := id;
      if changed && id != 0 {
        GetComprobantes(parseFails);
      }
    }

    /** `saveToLocalStorage`: overwrites the company's entry; a failed write is
        logged and the store keeps its previous contents. */
    method SaveToLocalStorage(data: seq<Receipt>, writeFails: bool)
      modifies this`storage, this`errorLog
      ensures storage == if writeFails then old(storage) else old(storage)[Key() := data]
      ensures errorLog == if writeFails then old(errorLog) + [SaveError] else old(errorLog)
    {
      if writeFails {
        errorLog := errorLog + [SaveError];
      } else {
        storage := storage[Key() := data];
      }
    }

    /** `handlerAddComprobante`: a draft that fails validation only sets the error
        map; otherwise the receipt is created or updated, the whole new collection
        is written to the company's entry (a failed write still keeps the new
        collection in memory), a notice is shown and the form is closed. */
    method AddComprobante(c: Receipt, newId: int, today: string, writeFails: bool)
      modifies this`comprobantes, this`comprobanteSelected, this`visibleForm, this`errors
      modifies this`storage, this`notices, this`errorLog
      ensures comprobantes == AfterSubmit(old(comprobantes), empresaId, c, newId, today)
      ensures !Passes(c) ==>
        && errors == ValidationErrors(c)
        && storage == old(storage) && notices == old(notices) && errorLog == old(errorLog)
        && comprobanteSelected == old(comprobanteSelected) && visibleForm == old(visibleForm)
      ensures Passes(c) ==> storage == if writeFails then old(storage) else old(storage)[Key() := comprobantes]
      ensures Passes(c) ==> errorLog == if writeFails then old(errorLog) + [SaveError] else old(errorLog)
      ensures Passes(c) ==> notices == old(notices) + [SubmitNotice(c, NumeroComprobante(old(comprobantes), c.tipo))]
      ensures Passes(c) ==> !visibleForm && comprobanteSelected == InitialComprobanteForm() && errors == map[]
    {
      if !Passes(c) {
        errors := ValidationErrors(c);
        SubmitRejected(comprobantes, empresaId, c, newId, today);
      } else {
        Commit(c, newId, today, writeFails);
      }
    }

    /** What `handlerAddComprobante` does with a draft that passed validation. */
    method Commit(c: Receipt, newId: int, today: string, writeFails: bool)
      requires Passes(c)
      modifies this`comprobantes, this`comprobanteSelected, this`visibleForm, this`errors
      modifies this`storage, this`notices, this`errorLog
      ensures comprobantes == AfterSubmit(old(comprobantes), empresaId, c, newId, today)
      ensures storage == if writeFails then old(storage) else old(storage)[Key() := comprobantes]
      ensures errorLog == if writeFails then old(errorLog) + [SaveError] else old(errorLog)
      ensures notices == old(notices) + [SubmitNotice(c, NumeroComprobante(old(comprobantes), c.tipo))]
      ensures !visibleForm && comprobanteSelected == InitialComprobanteForm() && errors == map[]
    {
      var nuevosComprobantes := Dispatch(c, newId, today);
      Finish(nuevosComprobantes, writeFails);
    }

    /** The end of a successful submission: the new collection is written to the
        company's entry and the form is closed with no errors. */
    method Finish(nuevosComprobantes: seq<Receipt>, writeFails: bool)
      modifies this`comprobanteSelected, this`visibleForm, this`errors, this`storage, this`errorLog
      ensures storage == if writeFails then old(storage) else old(storage)[Key() := nuevosComprobantes]
      ensures errorLog == if writeFails then old(errorLog) + [SaveError] else old(errorLog)
      ensures !visibleForm && comprobanteSelected == InitialComprobanteForm() && errors == map[]
    {
      SaveToLocalStorage(nuevosComprobantes, writeFails);
      CloseForm();
    }

    /** The part of `handlerAddComprobante` after validation: dispatches the create
        or update to the reducer, computes the same new collection locally for the
        store, and shows the notice. */
    method Dispatch(c: Receipt, newId: int, today: string) returns (nuevosComprobantes: seq<Receipt>)
      requires Passes(c)
      modifies this`comprobantes, this`notices
      ensures comprobantes == nuevosComprobantes == AfterSubmit(old(comprobantes), empresaId, c, newId, today)
      ensures notices == old(notices) + [SubmitNotice(c, NumeroComprobante(old(comprobantes), c.tipo))]
    {
      var before := comprobantes;
      if c.id == 0 {
        var nuevo := Created(before, empresaId, c, newId, today);
        comprobantes := Reduce(comprobantes, ComprobanteReducer.AddComprobante(nuevo));
        nuevosComprobantes := before + [nuevo];
        notices := notices + [SubmitNotice(c, nuevo.numeroComprobante)];
      } else {
        var nuevo := c.(empresaId := Some(empresaId));
        comprobantes := Reduce(comprobantes, ComprobanteReducer.UpdateComprobante(nuevo));
        nuevosComprobantes := Collection.MapKey(before, ReceiptId, nuevo.id, Overwrite(nuevo));
        notices := notices + [SubmitNotice(c, NumeroComprobante(before, c.tipo))];
      }
    }

    /** `handlerRemoveComprobante`: only a confirmed removal drops the receipts with
        that id, rewrites the company's entry and shows a notice; a declined one
        changes nothing. */
    method RemoveComprobante(id: int, confirmed: bool, writeFails: bool)
      modifies this`comprobantes, this`storage, this`notices, this`errorLog
      ensures !confirmed ==>
        comprobantes == old(comprobantes) && storage == old(storage)
        && notices == old(notices) && errorLog == old(errorLog)
      ensures confirmed ==>
        && comprobantes == Reduce(old(comprobantes), ComprobanteReducer.RemoveComprobante(id))
        && storage == (if writeFails then old(storage) else old(storage)[Key() := comprobantes])
        && errorLog == (if writeFails then old(errorLog) + [SaveError] else old(errorLog))
        && notices == old(notices) + [Notice("Eliminado", "El comprobante fue eliminado", "success")]
    {
      if confirmed {
        var before := comprobantes;
        comprobantes := Reduce(comprobantes, ComprobanteReducer.RemoveComprobante(id));
        var nuevosComprobantes := Collection.RemoveKey(before, ReceiptId, id);
        SaveToLocalStorage(nuevosComprobantes, writeFails);
        notices := notices + [Notice("Eliminado", "El comprobante fue eliminado", "success")];
      }
    }

    /** `handlerOpenForm`: a blank draft dated today, form shown. */
    method OpenForm(today: string)
      modifies this`comprobanteSelected, this`visibleForm
      ensures comprobanteSelected == InitialForm(today) && visibleForm
    {
      comprobanteSelected := InitialComprobanteForm().(fecha := today);
      visibleForm := true;
    }

    /** `handlerCloseForm`: form hidden, draft back to the initial form, no errors. */
    method CloseForm()
      modifies this`comprobanteSelected, this`visibleForm, this`errors
      ensures !visibleForm && comprobanteSelected == InitialComprobanteForm() && errors == map[]
      ensures comprobanteSelected.id == 0 && comprobanteSelected.tipo == "BOLETA"
      ensures comprobanteSelected.items == [] && comprobanteSelected.total == 0
    {
      visibleForm := false;
      comprobanteSelected := InitialComprobanteForm();
      errors := map[];
    }

    /** `handlerComprobanteSelectedForm`: the given receipt becomes the draft as it is, form shown. */
    method SelectForm(c: Receipt)
      modifies this`comprobanteSelected, this`visibleForm
      ensures comprobanteSelected == c && visibleForm
    {
      comprobanteSelected := c;
      visibleForm := true;
    }
  }
}
