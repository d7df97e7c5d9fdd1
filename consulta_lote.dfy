/** The batch lookup page: a code typed by the user, the lookup it triggers,
    and what the page then shows. */
module ConsultaLote {
  import opened Results
  import opened Strings
  import opened Query
  import opened Lotes

  /** The heading of the result card. */
  function Titulo(found: Option<Lote>): (r: string)
    ensures found.None? <==> r == "Lote não encontrado"
  {
    if found.Some? then "Informações do Lote" else "Lote não encontrado"
  }

  /** One attribute of a found batch: the value, or `Não informado`. */
  function Detalhe(o: Option<string>): (r: string)
    ensures r != ""
    ensures Truthy(o) ==> r == o.value
    ensures !Truthy(o) ==> r == "Não informado"
  {
    OrElse(o, "Não informado")
  }

  /** The page's state; it looks batches up through its own `useLotes`. */
  class ConsultaLotePage {
    var codigoBusca: string
    var loteEncontrado: Option<Lote>
    var buscaRealizada: bool
    const cache: LoteCache

    constructor (cache: LoteCache)
      ensures this.cache == cache
      ensures codigoBusca == "" && loteEncontrado == None && !buscaRealizada
    {
      this.cache := cache;
      codigoBusca := "";
      loteEncontrado := None;
      buscaRealizada := false;
    }

    /** `handleBuscar`: a blank code does nothing; otherwise the code, as typed,
        is looked up and the page records the result and that a search was done. */
    method HandleBuscar(resp: Remote<Option<Lote>>) returns (q: Option<Select>)
      modifies this`loteEncontrado, this`buscaRealizada, cache`loading
      ensures Trim(codigoBusca) == "" ==>
        && q == None
        && loteEncontrado == old(loteEncontrado)
        && buscaRealizada == old(buscaRealizada)
        && cache.loading == old(cache.loading)
      ensures Trim(codigoBusca) != "" ==>
        && q == Some(LookupQuery(codigoBusca))
        && loteEncontrado == (if resp.Ok? then resp.data else None)
        && buscaRealizada
        && !cache.loading
      ensures cache.lotes == old(cache.lotes)
    {
      q := None;
      if Trim(codigoBusca) == "" {
        return;
      }
      buscaRealizada := false;
      var issued, lote := cache.BuscarLotePorCodigo(codigoBusca, resp);
      q := Some(issued);
      loteEncontrado := lote;
      buscaRealizada := true;
    }
  }
}
