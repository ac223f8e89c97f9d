/** `empresasReducer`: the transition function of the company list. */
module EmpresasReducer {
  import Collection

  /** A company as the company form edits it. */
  datatype Empresa = Empresa(id: int, razonSocial: string, ruc: string, email: string, direccion: string)

  function EmpresaId(e: Empresa): int { e.id }

  datatype Action =
    | AddEmpresa(empresa: Empresa)
    | RemoveEmpresa(id: int)
    | UpdateEmpresa(empresa: Empresa)
    | LoadingEmpresas(list: seq<Empresa>)
    | Unknown(actionType: string)

  /** Add appends, remove drops every entry with that id, update rewrites every
      entry with the payload's id, loading replaces the list, anything else is a no-op. */
  function Reduce(state: seq<Empresa>, action: Action): (r: seq<Empresa>)
    ensures action.AddEmpresa? ==>
      |r| == |state| + 1 && r[..|state|] == state && r[|state|] == action.empresa
    ensures action.RemoveEmpresa? ==>
      |r| == |state| - Collection.CountKey(state, EmpresaId, action.id)
      && forall i :: 0 <= i < |r| ==> r[i].id != action.id
    ensures action.UpdateEmpresa? ==> |r| == |state| && forall i :: 0 <= i < |state| ==>
      r[i] == if state[i].id == action.empresa.id then action.empresa else state[i]
    ensures action.LoadingEmpresas? ==> r == action.list
    ensures action.Unknown? ==> r == state
  {
    match action
    case AddEmpresa(empresa) => state + [empresa]
    case RemoveEmpresa(id) => Collection.RemoveKey(state, EmpresaId, id)
    case UpdateEmpresa(empresa) => Collection.MapKey(state, EmpresaId, empresa.id, _ => empresa)
    case LoadingEmpresas(list) => list
    case Unknown(_) => state
  }

  /** Removal drops exactly the entries with that id: every entry left was in the
      list, every entry with another id is still there, and removing again
      changes nothing. */
  lemma RemoveExact(state: seq<Empresa>, id: int)
    ensures var r := Reduce(state, RemoveEmpresa(id));
      && (forall i :: 0 <= i < |r| ==> r[i] in state)
      && (forall i :: 0 <= i < |state| && state[i].id != id ==> state[i] in r)
      && Reduce(r, RemoveEmpresa(id)) == r
  {
    Collection.RemoveKeyMembers(state, EmpresaId, id);
    Collection.RemoveKeyIdempotent(state, EmpresaId, id);
  }
}
