/** The batch-monitoring page: four filter fields that each add one constraint
    to the listing query when filled in, the listing itself, and how a batch is
    shown in its table. */
module Acompanhamento {
  import opened Results
  import opened Strings
  import opened Query
  import opened Lotes

  /** The page's `filtros` state. */
  datatype Filtros = Filtros(codigoLote: string, usuario: string, dataInicio: string, dataFim: string)

  /** Every field empty, as on load and after `limparFiltros`. */
  const SemFiltros := Filtros("", "", "", "")

  /** How many filter fields are filled in. */
  function Preenchidos(f: Filtros): nat {
    (if f.codigoLote != "" then 1 else 0) + (if f.usuario != "" then 1 else 0)
    + (if f.dataInicio != "" then 1 else 0) + (if f.dataFim != "" then 1 else 0)
  }

  /** `[c]` when the field is filled in, nothing otherwise. */
  function When(filled: bool, c: Constraint): seq<Constraint> {
    if filled then [c] else []
  }

  /** The query `carregarLotes` sends for the filters: always newest first,
      one constraint per filled-in field. */
  function MonitorQuery(f: Filtros): (q: Select)
    ensures q.table == "lotes" && q.order == Some(Order("created_at", false)) && q.limit == None
    ensures |q.constraints| == Preenchidos(f)
  {
    Select("lotes",
      When(f.codigoLote != "", Ilike("codigo_lote", Wildcards(f.codigoLote)))
      + When(f.usuario != "", Ilike("user_name", Wildcards(f.usuario)))
      + When(f.dataInicio != "", Gte("created_at", f.dataInicio + "T00:00:00"))
      + When(f.dataFim != "", Lte("created_at", f.dataFim + "T23:59:59")),
      Some(Order("created_at", false)), None)
  }

  /** What the filters ask of a row, field by field: the code and the user
      name contain the typed text ignoring case, and the creation time lies
      between `<start>T00:00:00` and `<end>T23:59:59`, both included,
      compared as strings. */
  predicate Admits(f: Filtros, row: Row) {
    && (f.codigoLote != "" ==> "codigo_lote" in row && Contains(Lower(row["codigo_lote"]), Lower(f.codigoLote)))
    && (f.usuario != "" ==> "user_name" in row && Contains(Lower(row["user_name"]), Lower(f.usuario)))
    && (f.dataInicio != "" ==> "created_at" in row && StrLe(f.dataInicio + "T00:00:00", row["created_at"]))
    && (f.dataFim != "" ==> "created_at" in row && StrLe(row["created_at"], f.dataFim + "T23:59:59"))
  }

  /** A row meets the query's constraints exactly when the filters admit it;
      with no field filled in the query has no constraint at all. */
  lemma MonitorQueryMeaning(f: Filtros, row: Row)
    ensures SatisfiesAll(row, MonitorQuery(f).constraints) <==> Admits(f, row)
    ensures f == SemFiltros ==> MonitorQuery(f).constraints == []
  {
    var cs := MonitorQuery(f).constraints;
    var c1 := When(f.codigoLote != "", Ilike("codigo_lote", Wildcards(f.codigoLote)));
    var c2 := When(f.usuario != "", Ilike("user_name", Wildcards(f.usuario)));
    var c3 := When(f.dataInicio != "", Gte("created_at", f.dataInicio + "T00:00:00"));
    var c4 := When(f.dataFim != "", Lte("created_at", f.dataFim + "T23:59:59"));
    assert cs == c1 + c2 + c3 + c4;
    SatisfiesAllConcat(row, c1, c2);
    SatisfiesAllConcat(row, c1 + c2, c3);
    SatisfiesAllConcat(row, c1 + c2 + c3, c4);
    if f.codigoLote != "" {
      SatisfiesAllSingle(row, Ilike("codigo_lote", Wildcards(f.codigoLote)));
      if "codigo_lote" in row {
        WildcardsMatch(row["codigo_lote"], f.codigoLote);
      }
    }
    if f.usuario != "" {
      SatisfiesAllSingle(row, Ilike("user_name", Wildcards(f.usuario)));
      if "user_name" in row {
        WildcardsMatch(row["user_name"], f.usuario);
      }
    }
    if f.dataInicio != "" {
      SatisfiesAllSingle(row, Gte("created_at", f.dataInicio + "T00:00:00"));
    }
    if f.dataFim != "" {
      SatisfiesAllSingle(row, Lte("created_at", f.dataFim + "T23:59:59"));
    }
    assert SatisfiesAll(row, c1) <==>
      (f.codigoLote != "" ==> "codigo_lote" in row && Contains(Lower(row["codigo_lote"]), Lower(f.codigoLote)));
    assert SatisfiesAll(row, c2) <==>
      (f.usuario != "" ==> "user_name" in row && Contains(Lower(row["user_name"]), Lower(f.usuario)));
    assert SatisfiesAll(row, c3) <==>
      (f.dataInicio != "" ==> "created_at" in row && StrLe(f.dataInicio + "T00:00:00", row["created_at"]));
    assert SatisfiesAll(row, c4) <==>
      (f.dataFim != "" ==> "created_at" in row && StrLe(row["created_at"], f.dataFim + "T23:59:59"));
  }

  /** `carregarLotes` rebinding `query` once per filled-in field. */
  method BuildMonitorQuery(f: Filtros) returns (q: Select)
    ensures q == MonitorQuery(f)
  {
    q := Select("lotes", [], Some(Order("created_at", false)), None);
    if f.codigoLote != "" {
      q := q.(constraints := q.constraints + [Ilike("codigo_lote", Wildcards(f.codigoLote))]);
    }
    if f.usuario != "" {
      q := q.(constraints := q.constraints + [Ilike("user_name", Wildcards(f.usuario))]);
    }
    if f.dataInicio != "" {
      q := q.(constraints := q.constraints + [Gte("created_at", f.dataInicio + "T00:00:00")]);
    }
    if f.dataFim != "" {
      q := q.(constraints := q.constraints + [Lte("created_at", f.dataFim + "T23:59:59")]);
    }
  }

  /** A table cell for a descriptive attribute: the value, or `-`. */
  function Celula(o: Option<string>): (r: string)
    ensures r != ""
    ensures Truthy(o) ==> r == o.value
    ensures !Truthy(o) ==> r == "-"
  {
    OrElse(o, "-")
  }

  /** The user column: the user's name, or `N/A`. */
  function CelulaUsuario(l: Lote): (r: string)
    ensures r != ""
    ensures Truthy(l.userName) ==> r == l.userName.value
    ensures !Truthy(l.userName) ==> r == "N/A"
  {
    OrElse(l.userName, "N/A")
  }

  /** The seven descriptive cells of a row, in column order. */
  function CelulasDetalhes(d: Detalhes): (r: seq<string>)
    ensures |r| == 7
    ensures forall i :: 0 <= i < |r| ==> r[i] != ""
  {
    [Celula(d.gramatura), Celula(d.fio), Celula(d.largura), Celula(d.cor),
     Celula(d.artigo), Celula(d.tecelagem), Celula(d.numeroMaquinaTear)]
  }

  /** The status badge is highlighted for active batches only. */
  predicate Destacado(l: Lote) {
    l.status == Some("ativo")
  }

  /** The page's state. */
  class AcompanhamentoPage {
    var lotes: seq<Lote>
    var loading: bool
    var filtros: Filtros

    constructor ()
      ensures lotes == [] && !loading && filtros == SemFiltros
    {
      lotes := [];
      loading := false;
      filtros := SemFiltros;
    }

    /** `carregarLotes` (also `handleFiltrar`): sends the query the filters
        call for; the list becomes the returned rows (`[]` for no data), or is
        kept when the load fails. */
    method CarregarLotes(resp: Remote<Option<seq<Lote>>>) returns (q: Select)
      modifies this`lotes, this`loading
      ensures q == MonitorQuery(filtros)
      ensures resp.Ok? ==> lotes == resp.data.GetOr([])
      ensures resp.Err? ==> lotes == old(lotes)
      ensures !loading
    {
      loading := true;
      q := BuildMonitorQuery(filtros);
      if resp.Ok? {
        lotes := resp.data.GetOr([]);
      }
      loading := false;
    }

    /** `limparFiltros`: every field back to empty. */
    method LimparFiltros()
      modifies this`filtros
      ensures filtros == SemFiltros
    {
      filtros := SemFiltros;
    }
  }
}
