/** The customer listing page: two case-insensitive filters over the cached
    customers, applied one after the other, and a delete that only runs once
    the user confirms it. */
module ConsultaClientes {
  import opened Results
  import opened Strings
  import opened Seqs
  import opened Clientes

  /** The page's `filtros` state. */
  datatype Filtros = Filtros(nome: string, codigo: string)

  /** Both fields empty, as on load and after `limparFiltros`. */
  const SemFiltros := Filtros("", "")

  /** `cliente.nome.toLowerCase().includes(termo.toLowerCase())` */
  predicate NomeContem(c: Cliente, termo: string) {
    Contains(Lower(c.nome), Lower(termo))
  }

  /** `cliente.codigo.toLowerCase().includes(termo.toLowerCase())` */
  predicate CodigoContem(c: Cliente, termo: string) {
    Contains(Lower(c.codigo), Lower(termo))
  }

  /** The name filter step. */
  function PorNome(s: seq<Cliente>, termo: string): seq<Cliente> {
    Filter(s, (c: Cliente) => NomeContem(c, termo))
  }

  /** The code filter step. */
  function PorCodigo(s: seq<Cliente>, termo: string): seq<Cliente> {
    Filter(s, (c: Cliente) => CodigoContem(c, termo))
  }

  /** What `aplicarFiltros` computes: the name filter when it is filled in, then
      the code filter when it is filled in. */
  function Filtrar(s: seq<Cliente>, f: Filtros): seq<Cliente> {
    var porNome := if f.nome != "" then PorNome(s, f.nome) else s;
    if f.codigo != "" then PorCodigo(porNome, f.codigo) else porNome
  }

  /** A customer passes the filters when each filled-in field occurs in the
      matching attribute, ignoring case; an empty field asks nothing. */
  predicate Passa(c: Cliente, f: Filtros) {
    (f.nome == "" || NomeContem(c, f.nome)) && (f.codigo == "" || CodigoContem(c, f.codigo))
  }

  /** The two steps together keep exactly the customers that pass both filters. */
  lemma FiltrarIsOneFilter(s: seq<Cliente>, f: Filtros)
    ensures Filtrar(s, f) == Filter(s, (c: Cliente) => Passa(c, f))
  {
    var passa := (c: Cliente) => Passa(c, f);
    var nomeP := (c: Cliente) => NomeContem(c, f.nome);
    var codigoP := (c: Cliente) => CodigoContem(c, f.codigo);
    if f.nome == "" && f.codigo == "" {
      FilterKeepsAll(s, passa);
    } else if f.nome == "" {
      FilterCongruent(s, codigoP, passa);
    } else if f.codigo == "" {
      FilterCongruent(s, nomeP, passa);
    } else {
      FilterThenFilter(s, nomeP, codigoP, passa);
    }
  }

  /** The result is an order-preserving subsequence of the customers; a
      customer is in it exactly when it is cached and passes both filters. */
  lemma FiltrarMeaning(s: seq<Cliente>, f: Filtros)
    ensures IsSubsequence(Filtrar(s, f), s)
    ensures forall c :: c in Filtrar(s, f) <==> c in s && Passa(c, f)
  {
    FiltrarIsOneFilter(s, f);
    FilterIsSubsequence(s, (c: Cliente) => Passa(c, f));
  }

  /** Filtering the result again with the same filters changes nothing. */
  lemma FiltrarIdempotent(s: seq<Cliente>, f: Filtros)
    ensures Filtrar(Filtrar(s, f), f) == Filtrar(s, f)
  {
    var passa := (c: Cliente) => Passa(c, f);
    FiltrarIsOneFilter(s, f);
    FiltrarIsOneFilter(Filtrar(s, f), f);
    FilterIdempotent(s, passa);
  }

  /** With both fields empty the whole list is shown. */
  lemma FiltrarSemFiltros(s: seq<Cliente>)
    ensures Filtrar(s, SemFiltros) == s
  {
  }

  /** Two customers, Ana (code B) and Zeca (code A): the name filter `an`
      keeps Ana alone, whatever the case of the letters. */
  lemma FiltrarExemplo(ana: Cliente, zeca: Cliente)
    requires ana.nome == "Ana" && ana.codigo == "B"
    requires zeca.nome == "Zeca" && zeca.codigo == "A"
    ensures Filtrar([ana, zeca], Filtros("an", "")) == [ana]
  {
    assert Lower("Ana") == "ana";
    assert Lower("an") == "an";
    assert Lower("Zeca") == "zeca";
    assert IsPrefix("an", "ana");
    assert !Contains("zeca", "an") by {
      assert "zeca"[..2][0] == 'z' && "eca"[..2][0] == 'e' && "ca"[..2][0] == 'c';
      assert !IsPrefix("an", "zeca") && !IsPrefix("an", "eca") && !IsPrefix("an", "ca") && !IsPrefix("an", "a");
      assert "zeca"[1..] == "eca" && "eca"[1..] == "ca" && "ca"[1..] == "a" && "a"[1..] == "";
    }
    assert NomeContem(ana, "an") && !NomeContem(zeca, "an");
    var p := (c: Cliente) => NomeContem(c, "an");
    assert [ana, zeca][1..] == [zeca] && [zeca][1..] == [];
    assert Filter([zeca], p) == [];
    assert Filter([ana, zeca], p) == [ana];
  }

  /** The page's state; it reads and deletes through its own `useClientes`. */
  class ConsultaClientesPage {
    const cache: ClienteCache
    var filtros: Filtros
    var clientesFiltrados: seq<Cliente>

    constructor (cache: ClienteCache)
      ensures this.cache == cache && filtros == SemFiltros && clientesFiltrados == []
    {
      this.cache := cache;
      filtros := SemFiltros;
      clientesFiltrados := [];
    }

    /** `aplicarFiltros` (run by the effect whenever the list or the filters change). */
    method AplicarFiltros()
      modifies this`clientesFiltrados
      ensures clientesFiltrados == Filtrar(cache.clientes, filtros)
    {
      var resultado := cache.clientes;
      if filtros.nome != "" {
        resultado := PorNome(resultado, filtros.nome);
      }
      if filtros.codigo != "" {
        resultado := PorCodigo(resultado, filtros.codigo);
      }
      clientesFiltrados := resultado;
    }

    /** `limparFiltros`, followed by the effect: both fields empty, every
        cached customer shown. */
    method LimparFiltros()
      modifies this`filtros, this`clientesFiltrados
      ensures filtros == SemFiltros
      ensures clientesFiltrados == cache.clientes
    {
      filtros := SemFiltros;
      AplicarFiltros();
      FiltrarSemFiltros(cache.clientes);
    }

    /** `handleExcluir`: the delete is issued only when the user confirms; the
        effect then re-applies the filters to the new list. */
    method HandleExcluir(id: string, confirmado: bool, resp: Remote<()>) returns (r: Option<Result<()>>)
      modifies cache, this`clientesFiltrados
      ensures !confirmado ==>
        && r == None
        && cache.clientes == old(cache.clientes)
        && cache.loading == old(cache.loading)
        && clientesFiltrados == old(clientesFiltrados)
      ensures confirmado && resp.Ok? ==>
        r == Some(Success(())) && cache.clientes == RemoveById(old(cache.clientes), id)
      ensures confirmado && resp.Err? ==>
        r == Some(Failure(RemoteFailure(resp.cause))) && cache.clientes == old(cache.clientes)
      ensures confirmado ==> clientesFiltrados == Filtrar(cache.clientes, filtros)
      ensures confirmado ==> !cache.loading
    {
      r := None;
      if confirmado {
        var outcome := cache.ExcluirCliente(id, resp);
        r := Some(outcome);
        AplicarFiltros();
      }
    }
  }
}
