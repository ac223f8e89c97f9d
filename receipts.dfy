/** Receipts ("comprobantes") and their line items as plain values, with the
    pure parts of the receipt hook: the initial draft, the validator, the
    numbering policy and the per-company store key. */
module Receipts {
  import opened Common
  import opened Decimal

  /** One product line of a receipt. Money is in integer cents. */
  datatype LineItem = LineItem(
    productoId: int,
    nombre: string,
    valorUnitario: int,
    cantidad: int,
    subtotal: int)

  /** A receipt, saved or still a draft (`id == 0`). `tipo` is the text of the
      type selector ("BOLETA" or "FACTURA"); `empresaId` is absent until the
      manager stamps it. */
  datatype Receipt = Receipt(
    id: int,
    tipo: string,
    numeroComprobante: string,
    fecha: string,
    clienteNombre: string,
    clienteDocumento: string,
    items: seq<LineItem>,
    total: int,
    empresaId: Option<int>)

  function ReceiptId(r: Receipt): int { r.id }

  /** The blank draft `initialComprobanteForm`, dated `fecha`. */
  function InitialForm(fecha: string): (r: Receipt)
    ensures r.id == 0 && r.tipo == "BOLETA" && r.fecha == fecha
    ensures r.clienteNombre == "" && r.clienteDocumento == "" && r.items == [] && r.total == 0
  {
    Receipt(0, "BOLETA", "", fecha, "", "", [], 0, None)
  }

  // ---------------------------------------------------------------------------
  // Validation

  const NombreMissing := "El nombre del cliente es obligatorio"
  const DocumentoMissing := "El documento del cliente es obligatorio"
  const ItemsMissing := "Debe agregar al menos un producto"

  /** The three checks of a submission: client name, client document, at least one item. */
  predicate Passes(c: Receipt)
  {
    c.clienteNombre != "" && c.clienteDocumento != "" && |c.items| > 0
  }

  /** The error map of a rejected submission: every check has its key, a failing
      one carries its message and a passing one the empty string. */
  function ValidationErrors(c: Receipt): (e: map<string, string>)
    ensures e.Keys == {"clienteNombre", "clienteDocumento", "items"}
    ensures e["clienteNombre"] != "" <==> c.clienteNombre == ""
    ensures e["clienteDocumento"] != "" <==> c.clienteDocumento == ""
    ensures e["items"] != "" <==> c.items == []
  {
    map[
      "clienteNombre" := if c.clienteNombre == "" then NombreMissing else "",
      "clienteDocumento" := if c.clienteDocumento == "" then DocumentoMissing else "",
      "items" := if |c.items| == 0 then ItemsMissing else ""]
  }

  /** The error map holds no message exactly when the draft passes; the all-failing
      draft gets all three messages. */
  lemma ValidationErrorsEmptyIffPasses(c: Receipt)
    ensures (forall k :: k in ValidationErrors(c) ==> ValidationErrors(c)[k] == "") <==> Passes(c)
    ensures c.clienteNombre == "" && c.clienteDocumento == "" && c.items == [] ==>
      ValidationErrors(c) == map["clienteNombre" := NombreMissing, "clienteDocumento" := DocumentoMissing, "items" := ItemsMissing]
  {
    var e := ValidationErrors(c);
    if !Passes(c) {
      if c.clienteNombre == "" { assert e["clienteNombre"] != ""; }
      else if c.clienteDocumento == "" { assert e["clienteDocumento"] != ""; }
      else { assert e["items"] != ""; }
    }
  }

  // ---------------------------------------------------------------------------
  // Numbering

  /** "B001" for a BOLETA, "F001" for every other type. */
  function TipoPrefix(tipo: string): string
  {
    if tipo == "BOLETA" then "B001" else "F001"
  }

  /** Number of receipts of type `tipo` in the collection. */
  function CountTipo(cs: seq<Receipt>, tipo: string): nat
  {
    if cs == [] then 0 else (if cs[0].tipo == tipo then 1 else 0) + CountTipo(cs[1..], tipo)
  }

  /** `generateNumeroComprobante`: the type prefix, a dash and one more than the
      number of receipts of that type, zero-padded to five digits. */
  function NumeroComprobante(cs: seq<Receipt>, tipo: string): string
  {
    TipoPrefix(tipo) + "-" + PadStart(NatToDecimal(CountTipo(cs, tipo) + 1), 5, '0')
  }

  /** A generated number is at least ten characters: "B001-" for a BOLETA or
      "F001-" for any other type, then digits that read back as one more than
      the count of receipts of that type; while that next count has at most five
      digits, the number is exactly ten characters (five zero-padded digits). */
  lemma NumeroFormat(cs: seq<Receipt>, tipo: string)
    ensures var r := NumeroComprobante(cs, tipo);
      && |r| >= 10
      && (CountTipo(cs, tipo) + 1 < 100000 ==> |r| == 10)
      && r[..5] == (if tipo == "BOLETA" then "B001-" else "F001-")
      && AllDigits(r[5..]) && ParseDecimal(r[5..]) == CountTipo(cs, tipo) + 1
  {
    var digits := NatToDecimal(CountTipo(cs, tipo) + 1);
    var padded := PadStart(digits, 5, '0');
    var r := NumeroComprobante(cs, tipo);
    assert r[5..] == padded;
    assert padded == padded[..|padded| - |digits|] + digits;
    ParseLeadingZeros(padded[..|padded| - |digits|], digits);
    ParseNatToDecimal(CountTipo(cs, tipo) + 1);
    if CountTipo(cs, tipo) + 1 < 100000 {
      PaddedToFive(CountTipo(cs, tipo) + 1);
    }
  }

  /** Appending a receipt raises the count of its own type by one and leaves the
      other types' counts alone. */
  lemma {:induction false} CountTipoAppend(cs: seq<Receipt>, r: Receipt, tipo: string)
    ensures CountTipo(cs + [r], tipo) == CountTipo(cs, tipo) + (if r.tipo == tipo then 1 else 0)
  {
    if cs != [] {
      assert (cs + [r])[1..] == cs[1..] + [r];
      CountTipoAppend(cs[1..], r, tipo);
    }
  }

  /** Consecutive creations of one type get consecutive numbers, and a receipt of
      another type does not move that type's counter. */
  lemma NumeroAfterAppend(cs: seq<Receipt>, r: Receipt, tipo: string)
    ensures var before, after := NumeroComprobante(cs, tipo), NumeroComprobante(cs + [r], tipo);
      && |before| >= 5 && |after| >= 5 && AllDigits(before[5..]) && AllDigits(after[5..])
      && ParseDecimal(after[5..]) == ParseDecimal(before[5..]) + (if r.tipo == tipo then 1 else 0)
  {
    CountTipoAppend(cs, r, tipo);
    NumeroFormat(cs, tipo);
    NumeroFormat(cs + [r], tipo);
  }

  /** While fewer than nine receipts of a type are held, the next number is the
      prefix, a dash, four zeros and the single digit of the next count. */
  lemma NumeroSingleDigit(cs: seq<Receipt>, tipo: string)
    requires CountTipo(cs, tipo) < 9
    ensures NumeroComprobante(cs, tipo) == TipoPrefix(tipo) + "-0000" + [DigitChar(CountTipo(cs, tipo) + 1)]
  {
    assert NatToDecimal(CountTipo(cs, tipo) + 1) == [DigitChar(CountTipo(cs, tipo) + 1)];
    assert seq(4, _ => '0') == "0000";
  }

  /** The first BOLETA is numbered B001-00001. */
  lemma FirstBoleta(cs: seq<Receipt>)
    requires CountTipo(cs, "BOLETA") == 0
    ensures NumeroComprobante(cs, "BOLETA") == "B001-00001"
  {
    NumeroSingleDigit(cs, "BOLETA");
    assert DigitChar(1) == '1';
  }

  /** The second BOLETA is numbered B001-00002. */
  lemma SecondBoleta(cs: seq<Receipt>)
    requires CountTipo(cs, "BOLETA") == 1
    ensures NumeroComprobante(cs, "BOLETA") == "B001-00002"
  {
    NumeroSingleDigit(cs, "BOLETA");
    assert DigitChar(2) == '2';
  }

  /** The first FACTURA is numbered F001-00001. */
  lemma FirstFactura(cs: seq<Receipt>)
    requires CountTipo(cs, "FACTURA") == 0
    ensures NumeroComprobante(cs, "FACTURA") == "F001-00001"
  {
    NumeroSingleDigit(cs, "FACTURA");
    assert DigitChar(1) == '1';
  }

  // ---------------------------------------------------------------------------
  // Store key

  /** `comprobantes_empresa_${empresaId}`. */
  function StorageKey(empresaId: int): string
  {
    "comprobantes_empresa_" + IntToDecimal(empresaId)
  }

  /** Each company has its own entry: different companies never share a key. */
  lemma StorageKeyInjective(a: int, b: int)
    requires StorageKey(a) == StorageKey(b)
    ensures a == b
  {
    var n := |"comprobantes_empresa_"|;
    assert StorageKey(a)[n..] == IntToDecimal(a);
    assert StorageKey(b)[n..] == IntToDecimal(b);
    IntToDecimalInjective(a, b);
  }
}
