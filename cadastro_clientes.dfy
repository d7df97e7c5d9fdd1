/** The customer form page: in edit mode it fills itself from the cached
    customer with the route's id; saving checks the two required fields and
    then either creates a customer (and clears the form) or updates the one
    being edited (and goes back to the listing). */
module CadastroClientes {
  import opened Results
  import opened Strings
  import opened Clientes

  /** The form, field name to typed text. */
  type Form = map<string, string>

  /** The three fields the form starts with. */
  const Campos: set<string> := {"nome", "codigo", "observacao"}

  /** Where a successful edit goes. */
  const ListaClientes := "/clientes"

  /** Every field of the form empty. */
  function FormularioVazio(): (f: Form)
    ensures f.Keys == Campos
    ensures forall k :: k in f ==> f[k] == ""
  {
    map["nome" := "", "codigo" := "", "observacao" := ""]
  }

  /** `isEditing = !!id`: the route carries a non-empty id. */
  predicate IsEditing(id: Option<string>) {
    id.Some? && id.value != ""
  }

  /** The save guard: the name or the code is empty once trimmed, that is,
      made of white space only. */
  function MissingRequired(f: Form): (r: bool)
    requires Campos <= f.Keys
    ensures r <==> IsBlank(f["nome"]) || IsBlank(f["codigo"])
  {
    TrimEmptyIffBlank(f["nome"]);
    TrimEmptyIffBlank(f["codigo"]);
    Trim(f["nome"]) == "" || Trim(f["codigo"]) == ""
  }

  /** The save button is disabled while a call is pending or under the very
      condition the save itself refuses. */
  function SaveDisabled(loading: bool, f: Form): (r: bool)
    requires Campos <= f.Keys
    ensures loading ==> r
    ensures !loading ==> (r <==> MissingRequired(f))
  {
    loading || Trim(f["nome"]) == "" || Trim(f["codigo"]) == ""
  }

  /** What the form sends to the hook. */
  function Draft(f: Form): ClienteDraft
    requires Campos <= f.Keys
  {
    ClienteDraft(f["nome"], f["codigo"], Some(f["observacao"]))
  }

  /** The form filled from a cached customer: its name and code, and its note
      or `''` when it has none. */
  function PrefillForm(c: Cliente): (f: Form)
    ensures f.Keys == Campos
    ensures f["nome"] == c.nome && f["codigo"] == c.codigo
    ensures Truthy(c.observacao) ==> f["observacao"] == c.observacao.value
    ensures !Truthy(c.observacao) ==> f["observacao"] == ""
  {
    map["nome" := c.nome, "codigo" := c.codigo, "observacao" := OrElse(c.observacao, "")]
  }

  /** Which hook operation a save invoked. */
  datatype Action = Nothing | Created(draft: ClienteDraft) | Updated(id: string, patch: ClienteDraft)

  /** The page's state; it reads and writes through its own `useClientes`. */
  class CadastroClientesPage {
    const id: Option<string>
    const cache: ClienteCache
    var formData: Form
    var navigatedTo: Option<string>

    /** The form still has every one of its starting fields. */
    predicate Valid()
      reads this
    {
      Campos <= formData.Keys
    }

    constructor (id: Option<string>, cache: ClienteCache)
      ensures Valid()
      ensures this.id == id && this.cache == cache
      ensures formData == FormularioVazio() && navigatedTo == None
    {
      this.id := id;
      this.cache := cache;
      formData := FormularioVazio();
      navigatedTo := None;
    }

    /** The prefill effect: in edit mode, with customers cached, the form takes
        the first customer whose id is the route's; otherwise it is kept. */
    method PrefillEffect()
      requires Valid()
      modifies this`formData
      ensures Valid()
      ensures IsEditing(id) && |cache.clientes| > 0 && FindById(cache.clientes, id).Some? ==>
        formData == PrefillForm(FindById(cache.clientes, id).value)
      ensures !(IsEditing(id) && |cache.clientes| > 0 && FindById(cache.clientes, id).Some?) ==>
        formData == old(formData)
    {
      if IsEditing(id) && |cache.clientes| > 0 {
        var cliente := FindById(cache.clientes, id);
        if cliente.Some? {
          formData := PrefillForm(cliente.value);
        }
      }
    }

    /** `handleInputChange`: the named field takes the value; every other
        field keeps its own. */
    method HandleInputChange(field: string, value: string)
      requires Valid()
      modifies this`formData
      ensures Valid()
      ensures formData == old(formData)[field := value]
      ensures forall k :: k in old(formData) && k != field ==> formData[k] == old(formData)[k]
    {
      formData := formData[field := value];
    }

    /** `handleSave`: a blank name or code does nothing; otherwise it updates
        the edited customer or creates a new one. A create that succeeds
        clears the form, an update that succeeds goes back to the listing,
        and a failure (no identity, or the store refusing) changes neither. */
    method HandleSave(user: Option<User>, profile: Option<Profile>, resp: Remote<Cliente>)
      returns (action: Action, outcome: Option<Result<Cliente>>)
      requires Valid()
      modifies this`formData, this`navigatedTo, cache
      ensures Valid()
      ensures MissingRequired(old(formData)) ==>
        && action == Nothing && outcome == None
        && formData == old(formData) && navigatedTo == old(navigatedTo)
        && cache.clientes == old(cache.clientes) && cache.loading == old(cache.loading)
      ensures !MissingRequired(old(formData)) ==>
        && action == (if IsEditing(id) then Updated(id.value, Draft(old(formData))) else Created(Draft(old(formData))))
        && outcome.Some?
        && (outcome.value.Success? <==> Authenticated(user, profile) && resp.Ok?)
        && !cache.loading
      ensures outcome.Some? && outcome.value.Success? && !IsEditing(id) ==>
        && formData == FormularioVazio() && navigatedTo == old(navigatedTo)
        && cache.clientes == SortByNome(old(cache.clientes) + [resp.data])
      ensures outcome.Some? && outcome.value.Success? && IsEditing(id) ==>
        && formData == old(formData) && navigatedTo == Some(ListaClientes)
        && cache.clientes == SortByNome(ReplaceById(old(cache.clientes), id.value, resp.data))
      ensures outcome.Some? && outcome.value.Failure? ==>
        formData == old(formData) && navigatedTo == old(navigatedTo) && cache.clientes == old(cache.clientes)
    {
      if Trim(formData["nome"]) == "" || Trim(formData["codigo"]) == "" {
        return Nothing, None;
      }
      var draft := Draft(formData);
      var r: Result<Cliente>;
      if IsEditing(id) {
        action := Updated(id.value, draft);
        var _, res := cache.AtualizarCliente(id.value, draft, user, profile, resp);
        r := res;
      } else {
        action := Created(draft);
        var _, res := cache.SalvarCliente(draft, user, profile, resp);
        r := res;
        if r.Success? {
          formData := FormularioVazio();
        }
      }
      if r.Success? && IsEditing(id) {
        navigatedTo := Some(ListaClientes);
      }
      outcome := Some(r);
    }
  }
}
