/** Products as the product form edits them, and the required-field check of
    `handlerAddProducto`. */
module Productos {

  /** A JavaScript form value that is either text (typed into an input) or a
      number (as loaded from the server). */
  datatype FieldValue = Text(text: string) | Number(n: int)

  /** JavaScript truthiness: the empty string and 0 are falsy. */
  predicate Truthy(v: FieldValue)
  {
    match v
    case Text(t) => t != ""
    case Number(n) => n != 0
  }

  datatype Product = Product(
    id: int,
    nombre: string,
    descripcion: string,
    valorUnitario: FieldValue,
    unidadMedida: string)

  function ProductId(p: Product): int { p.id }

  /** `initialProductoForm`. */
  const InitialProductoForm := Product(0, "", "", Text(""), "")

  const NombreMissing := "El nombre es obligatorio"
  const DescripcionMissing := "La descripción es obligatoria"
  const ValorMissing := "El valor unitario es obligatorio"
  const UnidadMissing := "La unidad de medida es obligatoria"

  /** All four required fields are truthy. */
  predicate Complete(p: Product)
  {
    p.nombre != "" && p.descripcion != "" && Truthy(p.valorUnitario) && p.unidadMedida != ""
  }

  /** The error map of a rejected product: all four keys, a message for each
      falsy field and the empty string for the others. A unit price of 0 or ""
      is reported as missing. */
  function ProductErrors(p: Product): (e: map<string, string>)
    ensures e.Keys == {"nombre", "descripcion", "valorUnitario", "unidadMedida"}
    ensures e["nombre"] != "" <==> p.nombre == ""
    ensures e["descripcion"] != "" <==> p.descripcion == ""
    ensures e["valorUnitario"] != "" <==> p.valorUnitario in {Text(""), Number(0)}
    ensures e["unidadMedida"] != "" <==> p.unidadMedida == ""
  {
    map[
      "nombre" := if p.nombre == "" then NombreMissing else "",
      "descripcion" := if p.descripcion == "" then DescripcionMissing else "",
      "valorUnitario" := if !Truthy(p.valorUnitario) then ValorMissing else "",
      "unidadMedida" := if p.unidadMedida == "" then UnidadMissing else ""]
  }

  /** The error map holds no message exactly when the product is complete. */
  lemma ProductErrorsEmptyIffComplete(p: Product)
    ensures (forall k :: k in ProductErrors(p) ==> ProductErrors(p)[k] == "") <==> Complete(p)
  {
    var e := ProductErrors(p);
    if !Complete(p) {
      if p.nombre == "" { assert e["nombre"] != ""; }
      else if p.descripcion == "" { assert e["descripcion"] != ""; }
      else if !Truthy(p.valorUnitario) { assert e["valorUnitario"] != ""; }
      else { assert e["unidadMedida"] != ""; }
    }
  }
}
