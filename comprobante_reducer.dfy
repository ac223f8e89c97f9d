/** `comprobanteReducer`: the transition function of the in-memory receipt collection. */
module ComprobanteReducer {
  import opened Receipts
  import Collection

  datatype Action =
    | LoadingComprobantes(list: seq<Receipt>)
    | AddComprobante(receipt: Receipt)
    | UpdateComprobante(receipt: Receipt)
    | RemoveComprobante(id: int)
    | Unknown(actionType: string)

  /** The rewrite `_ => receipt`. */
  function Overwrite(receipt: Receipt): Receipt -> Receipt
  {
    _ => receipt
  }

  /** Loading replaces the collection, add appends, update rewrites every entry with
      the payload's id, remove drops every entry with that id, anything else is a no-op. */
  function Reduce(state: seq<Receipt>, action: Action): (r: seq<Receipt>)
    ensures action.LoadingComprobantes? ==> r == action.list
    ensures action.AddComprobante? ==>
      |r| == |state| + 1 && r[..|state|] == state && r[|state|] == action.receipt
    ensures action.UpdateComprobante? ==> |r| == |state| && forall i :: 0 <= i < |state| ==>
      r[i] == if state[i].id == action.receipt.id then action.receipt else state[i]
    ensures action.RemoveComprobante? ==>
      |r| == |state| - Collection.CountKey(state, ReceiptId, action.id)
      && forall i :: 0 <= i < |r| ==> r[i].id != action.id
    ensures action.Unknown? ==> r == state
  {
    match action
    case LoadingComprobantes(list) => list
    case AddComprobante(receipt) => state + [receipt]
    case UpdateComprobante(receipt) => Collection.MapKey(state, ReceiptId, receipt.id, Overwrite(receipt))
    case RemoveComprobante(id) => Collection.RemoveKey(state, ReceiptId, id)
    case Unknown(_) => state
  }

  /** Removal drops exactly the entries with that id: every entry left was in the
      list, every entry with another id is still there, and removing again
      changes nothing. */
  lemma RemoveExact(state: seq<Receipt>, id: int)
    ensures var r := Reduce(state, RemoveComprobante(id));
      && (forall i :: 0 <= i < |r| ==> r[i] in state)
      && (forall i :: 0 <= i < |state| && state[i].id != id ==> state[i] in r)
      && Reduce(r, RemoveComprobante(id)) == r
  {
    Collection.RemoveKeyMembers(state, ReceiptId, id);
    Collection.RemoveKeyIdempotent(state, ReceiptId, id);
  }
}
