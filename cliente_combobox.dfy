/** The customer picker: which customers it suggests for the typed term, which
    label it shows for the selected id, and what it reports when an item is
    picked. */
module ClienteCombobox {
  import opened Results
  import opened Seqs
  import opened Query
  import opened Clientes

  /** The arguments of `onValueChange(clienteId, clienteNome)`. */
  datatype Selecao = Selecao(id: Option<string>, nome: string)

  /** `onValueChange('', '')`: the selection is cleared. */
  const Limpa := Selecao(Some(""), "")

  /** The shortest term that goes to the store instead of the local list. */
  const MinRemoteTerm := 2

  /** How many cached customers a short term shows. */
  const LocalSuggestions := 10

  /** The trigger's text: the name of the first cached customer whose id is the
      selected value, or the placeholder when none has it. */
  function Rotulo(clientes: seq<Cliente>, value: Option<string>, placeholder: string): (r: string)
    ensures (exists k :: IsFirstWithId(clientes, value, k) && r == clientes[k].nome)
         || ((forall j :: 0 <= j < |clientes| ==> clientes[j].id != value) && r == placeholder)
  {
    match FindById(clientes, value)
    case Some(c) => c.nome
    case None => placeholder
  }

  /** What picking `item` reports: clearing when it is the selected one,
      otherwise its id and name. */
  function Escolha(item: Cliente, value: Option<string>): (r: Selecao)
    ensures r == Limpa <==> item.id == value || (item.id == Some("") && item.nome == "")
    ensures item.id != value ==> r.id == item.id && r.nome == item.nome
  {
    if item.id == value then Limpa else Selecao(item.id, item.nome)
  }

  /** Once the parent takes up a pick as its new value, picking the same
      customer again clears the selection. */
  lemma EscolhaAlterna(item: Cliente, value: Option<string>)
    requires item.id != value
    ensures Escolha(item, value) == Selecao(item.id, item.nome)
    ensures Escolha(item, Escolha(item, value).id) == Limpa
  {
  }

  /** The picker's state; `value` is the prop its parent passes in. */
  class Combobox {
    var open: bool
    var searchTerm: string
    var sugeridos: seq<Cliente>
    var value: Option<string>
    const placeholder: string
    const cache: ClienteCache

    constructor (cache: ClienteCache, value: Option<string>, placeholder: string)
      ensures this.cache == cache && this.value == value && this.placeholder == placeholder
      ensures !open && searchTerm == "" && sugeridos == []
    {
      this.cache := cache;
      this.value := value;
      this.placeholder := placeholder;
      open := false;
      searchTerm := "";
      sugeridos := [];
    }

    /** The suggestion effect: a term of two or more characters goes to the
        store and its (fail-soft) answer is shown; a shorter one shows the
        first ten cached customers in order, with no call. */
    method SuggestionEffect(resp: Remote<Option<seq<Cliente>>>) returns (q: Option<Select>)
      modifies this`sugeridos
      ensures |searchTerm| >= MinRemoteTerm ==>
        && q == Some(SearchQuery(searchTerm))
        && sugeridos == (if resp.Ok? then resp.data.GetOr([]) else [])
      ensures |searchTerm| < MinRemoteTerm ==>
        && q == None
        && sugeridos == Take(cache.clientes, LocalSuggestions)
    {
      if |searchTerm| >= MinRemoteTerm {
        var issued, found := cache.BuscarClientes(searchTerm, resp);
        q := Some(issued);
        sugeridos := found;
      } else {
        q := None;
        sugeridos := Take(cache.clientes, LocalSuggestions);
      }
    }

    /** `onSelect`: reports the pick to the parent and closes the popover. */
    method OnSelect(item: Cliente) returns (reported: Selecao)
      modifies this`open
      ensures reported == Escolha(item, value)
      ensures !open
    {
      if item.id == value {
        reported := Limpa;
      } else {
        reported := Selecao(item.id, item.nome);
      }
      open := false;
    }
  }
}
