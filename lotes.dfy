/** The batch cache of `useLotes`: the `lotes` list and the `loading` flag, the
    load that replaces the list, the save that prepends the stored row, and the
    lookup by code that leaves the list alone. */
module Lotes {
  import opened Results
  import opened Query

  /** The descriptive attributes of a batch, every one optional. */
  datatype Detalhes = Detalhes(
    gramatura: Option<string>,
    fio: Option<string>,
    largura: Option<string>,
    cor: Option<string>,
    artigo: Option<string>,
    tecelagem: Option<string>,
    numeroMaquinaTear: Option<string>)

  /** A `lotes` row. */
  datatype Lote = Lote(
    id: Option<string>,
    codigoLote: string,
    detalhes: Detalhes,
    status: Option<string>,
    userName: Option<string>,
    createdAt: Option<string>,
    updatedAt: Option<string>)

  /** What a caller passes to `salvarLote`: the row without id and timestamps. */
  datatype LoteDraft = LoteDraft(codigoLote: string, detalhes: Detalhes)

  /** The row the store holds for a batch, as its present columns. */
  function Columns(l: Lote): (row: Row)
    ensures "codigo_lote" in row && row["codigo_lote"] == l.codigoLote
    ensures l.userName.Some? ==> "user_name" in row && row["user_name"] == l.userName.value
    ensures l.createdAt.Some? ==> "created_at" in row && row["created_at"] == l.createdAt.value
  {
    var d := l.detalhes;
    var described :=
      WithColumn(WithColumn(WithColumn(WithColumn(WithColumn(WithColumn(WithColumn(map[],
        "gramatura", d.gramatura), "fio", d.fio), "largura", d.largura), "cor", d.cor),
        "artigo", d.artigo), "tecelagem", d.tecelagem), "numero_maquina_tear", d.numeroMaquinaTear);
    var stamped :=
      WithColumn(WithColumn(WithColumn(described, "id", l.id), "status", l.status), "updated_at", l.updatedAt);
    WithColumn(WithColumn(stamped, "user_name", l.userName), "created_at", l.createdAt)["codigo_lote" := l.codigoLote]
  }

  /** `.from('lotes').select('*').order('created_at', { ascending: false })` */
  function LoadQuery(): Select {
    Select("lotes", [], Some(Order("created_at", false)), None)
  }

  /** `.from('lotes').select('*').eq('codigo_lote', codigo)`; `maybeSingle`
      is the `Option` of the answer. */
  function LookupQuery(codigo: string): Select {
    Select("lotes", [Eq("codigo_lote", codigo)], None, None)
  }

  /** A row meets the lookup exactly when its code is the searched code,
      character for character. */
  lemma LookupMeaning(codigo: string, l: Lote)
    ensures Honours(LookupQuery(codigo), [Columns(l)]) <==> l.codigoLote == codigo
  {
    var q := LookupQuery(codigo);
    assert q.constraints == [Eq("codigo_lote", codigo)];
    if l.codigoLote == codigo {
      assert SatisfiesAll(Columns(l), q.constraints);
    }
    if Honours(q, [Columns(l)]) {
      assert SatisfiesAll([Columns(l)][0], q.constraints);
      assert Satisfies(Columns(l), Eq("codigo_lote", codigo));
    }
  }

  /** What `useLotes` keeps between renders. */
  class LoteCache {
    var lotes: seq<Lote>
    var loading: bool

    /** `useState<Lote[]>([])`, `useState(false)` */
    constructor ()
      ensures lotes == [] && !loading
    {
      lotes := [];
      loading := false;
    }

    /** `carregarLotes` (also run once on mount): the list becomes the returned
        rows (`[]` for no data); a failed load keeps the previous list. */
    method CarregarLotes(resp: Remote<Option<seq<Lote>>>) returns (q: Select)
      modifies this
      ensures q == LoadQuery()
      ensures resp.Ok? ==> lotes == resp.data.GetOr([])
      ensures resp.Err? ==> lotes == old(lotes)
      ensures !loading
    {
      loading := true;
      q := LoadQuery();
      if resp.Ok? {
        lotes := resp.data.GetOr([]);
      }
      loading := false;
    }

    /** `salvarLote`: inserts the draft as given, with no check and no status
        added, and, once the store confirms, puts the returned row in front of
        the list; a failure is re-thrown and the list kept. */
    method SalvarLote(draft: LoteDraft, resp: Remote<Lote>) returns (sent: LoteDraft, r: Result<Lote>)
      modifies this
      ensures sent == draft
      ensures resp.Ok? ==> r == Success(resp.data) && lotes == [resp.data] + old(lotes)
      ensures resp.Err? ==> r == Failure(RemoteFailure(resp.cause)) && lotes == old(lotes)
      ensures !loading
    {
      loading := true;
      sent := draft;
      match resp {
        case Err(cause) =>
          r := Failure(RemoteFailure(cause));
        case Ok(data) =>
          lotes := [data] + lotes;
          r := Success(data);
      }
      loading := false;
    }

    /** `buscarLotePorCodigo`: the row the store returns for that exact code, or
        nothing; a failure also gives nothing. The list is not touched. */
    method BuscarLotePorCodigo(codigo: string, resp: Remote<Option<Lote>>) returns (q: Select, found: Option<Lote>)
      modifies this`loading
      ensures q == LookupQuery(codigo)
      ensures resp.Ok? ==> found == resp.data
      ensures resp.Err? ==> found == None
      ensures found.Some? && Honours(q, [Columns(found.value)]) ==> found.value.codigoLote == codigo
      ensures lotes == old(lotes) && !loading
    {
      loading := true;
      q := LookupQuery(codigo);
      found := if resp.Ok? then resp.data else None;
      if found.Some? {
        LookupMeaning(codigo, found.value);
      }
      loading := false;
    }
  }
}
