/** The local batch registration page: a form of text fields, and a save that
    writes the form under its code into a browser-local map of batches, whose
    number of keys is the dashboard's batch total. */
module CadastroLote {
  import opened Strings

  /** The form, field name to typed text. */
  type Form = map<string, string>

  /** The locally registered batches, keyed by code. */
  type Store = map<string, Form>

  /** The field that keys the store. */
  const CodigoLote := "codigoLote"

  /** The field the save stamps with the current time. */
  const DataCadastro := "dataCadastro"

  /** The eight fields the form starts with. */
  const Campos: set<string> :=
    {CodigoLote, "gramatura", "fio", "largura", "cor", "artigo", "tecelagem", "numeroMaquinaTear"}

  /** Every field of the form empty. */
  function FormularioVazio(): (f: Form)
    ensures f.Keys == Campos
    ensures forall k :: k in f ==> f[k] == ""
  {
    map k | k in Campos :: ""
  }

  /** The form may be saved: its code is not blank once trimmed. */
  predicate PodeSalvar(f: Form)
    requires CodigoLote in f
  {
    Trim(f[CodigoLote]) != ""
  }

  /** The store after registering `f` at time `now`: the form plus its
      timestamp, under the code exactly as typed. */
  function Registrar(store: Store, f: Form, now: string): (r: Store)
    requires CodigoLote in f
    ensures r.Keys == store.Keys + {f[CodigoLote]}
    ensures f[CodigoLote] in r && r[f[CodigoLote]] == f[DataCadastro := now]
    ensures forall k :: k in store && k != f[CodigoLote] ==> r[k] == store[k]
  {
    store[f[CodigoLote] := f[DataCadastro := now]]
  }

  /** The dashboard total: how many codes the store holds. */
  function TotalLotes(store: Store): nat {
    |store.Keys|
  }

  /** Registering an existing code overwrites it and keeps the total; a new
      code adds one. */
  lemma RegistrarTotal(store: Store, f: Form, now: string)
    requires CodigoLote in f
    ensures TotalLotes(Registrar(store, f, now)) ==
      if f[CodigoLote] in store then TotalLotes(store) else TotalLotes(store) + 1
  {
  }

  /** The page's state, with the browser's local store as a field. */
  class CadastroLotePage {
    var formData: Form
    var store: Store

    /** The form still has every one of its starting fields. */
    predicate Valid()
      reads this
    {
      Campos <= formData.Keys
    }

    constructor (store: Store)
      ensures Valid()
      ensures formData == FormularioVazio() && this.store == store
    {
      formData := FormularioVazio();
      this.store := store;
    }

    /** `handleInputChange`: the named field takes the value; every other
        field keeps its own. */
    method HandleInputChange(field: string, value: string)
      requires Valid()
      modifies this`formData
      ensures Valid()
      ensures formData == old(formData)[field := value]
      ensures formData.Keys == old(formData).Keys + {field}
      ensures forall k :: k in old(formData) && k != field ==> formData[k] == old(formData)[k]
    {
      formData := formData[field := value];
    }

    /** `handleSave`: a blank code changes nothing; otherwise the form is
        written under its untrimmed code, overwriting any entry there, and the
        form is cleared. */
    method HandleSave(now: string) returns (saved: bool)
      requires Valid()
      modifies this
      ensures Valid()
      ensures saved <==> PodeSalvar(old(formData))
      ensures !saved ==> formData == old(formData) && store == old(store)
      ensures saved ==> store == Registrar(old(store), old(formData), now)
      ensures saved ==> formData == FormularioVazio()
      ensures saved && old(formData)[CodigoLote] in old(store) ==> TotalLotes(store) == TotalLotes(old(store))
      ensures saved && old(formData)[CodigoLote] !in old(store) ==> TotalLotes(store) == TotalLotes(old(store)) + 1
    {
      if Trim(formData[CodigoLote]) == "" {
        return false;
      }
      RegistrarTotal(store, formData, now);
      var existing := store;
      existing := existing[formData[CodigoLote] := formData[DataCadastro := now]];
      store := existing;
      formData := FormularioVazio();
      saved := true;
    }
  }
}
