/** The customer cache of `useClientes`: the `clientes` list and the `loading`
    flag, the operations that replace, extend, update and shrink the list once
    the store has confirmed, and the fail-soft search used for suggestions. */
module Clientes {
  import opened Results
  import opened Strings
  import opened Seqs
  import opened Query

  /** A `clientes` row. */
  datatype Cliente = Cliente(
    id: Option<string>,
    nome: string,
    codigo: string,
    observacao: Option<string>,
    userId: Option<string>,
    userName: Option<string>,
    createdAt: Option<string>,
    updatedAt: Option<string>)

  /** The fields a caller supplies to create or update a customer. */
  datatype ClienteDraft = ClienteDraft(nome: string, codigo: string, observacao: Option<string>)

  /** An update as sent to the store: `.update(patch).eq('id', id)`. */
  datatype UpdateRequest = UpdateRequest(id: string, patch: ClienteDraft)

  /** The signed-in user and their profile, as `useAuth` supplies them. */
  datatype User = User(id: string)
  datatype Profile = Profile(name: string)

  /** `user && profile` */
  predicate Authenticated(user: Option<User>, profile: Option<Profile>) {
    user.Some? && profile.Some?
  }

  /** `{ ...cliente, user_id: user.id, user_name: profile.name }` */
  function Stamped(d: ClienteDraft, user: User, profile: Profile): Cliente {
    Cliente(None, d.nome, d.codigo, d.observacao, Some(user.id), Some(profile.name), None, None)
  }

  /** The row the store holds for a customer, as its present columns. */
  function Columns(c: Cliente): (row: Row)
    ensures "nome" in row && row["nome"] == c.nome
    ensures "codigo" in row && row["codigo"] == c.codigo
  {
    var optional :=
      WithColumn(WithColumn(WithColumn(WithColumn(WithColumn(WithColumn(map[],
        "id", c.id), "observacao", c.observacao), "user_id", c.userId),
        "user_name", c.userName), "created_at", c.createdAt), "updated_at", c.updatedAt);
    optional["nome" := c.nome]["codigo" := c.codigo]
  }

  /** `.from('clientes').select('*').order('nome', { ascending: true })` */
  function LoadQuery(): Select {
    Select("clientes", [], Some(Order("nome", true)), None)
  }

  /** The suggestion search: name or code contains the term, by name, at most ten. */
  function SearchQuery(termo: string): Select {
    Select("clientes",
      [Either(Ilike("nome", Wildcards(termo)), Ilike("codigo", Wildcards(termo)))],
      Some(Order("nome", true)), Some(10))
  }

  /** Rows the store returns for the suggestion search are at most ten, and each
      one's name or code contains the term, ignoring case. */
  lemma SearchMeaning(termo: string, found: seq<Cliente>)
    requires Honours(SearchQuery(termo), Rows(found, Columns))
    ensures |found| <= 10
    ensures forall c :: c in found ==>
      Contains(Lower(c.nome), Lower(termo)) || Contains(Lower(c.codigo), Lower(termo))
  {
    forall c | c in found
      ensures Contains(Lower(c.nome), Lower(termo)) || Contains(Lower(c.codigo), Lower(termo))
    {
      var i :| 0 <= i < |found| && found[i] == c;
      var either := Either(Ilike("nome", Wildcards(termo)), Ilike("codigo", Wildcards(termo)));
      assert either in SearchQuery(termo).constraints;
      var row := Rows(found, Columns)[i];
      assert row == Columns(c);
      assert SatisfiesAll(row, SearchQuery(termo).constraints);
      assert Satisfies(row, Ilike("nome", Wildcards(termo))) || Satisfies(row, Ilike("codigo", Wildcards(termo)));
      WildcardsMatch(c.nome, termo);
      WildcardsMatch(c.codigo, termo);
    }
  }

  // ---------------------------------------------------------------------------
  // Ordering by name: `sort((a, b) => a.nome.localeCompare(b.nome))`

  predicate NomeLe(a: Cliente, b: Cliente) {
    StrLe(a.nome, b.nome)
  }

  /** Ascending by name. */
  predicate SortedByNome(s: seq<Cliente>) {
    forall i, j :: 0 <= i < j < |s| ==> NomeLe(s[i], s[j])
  }

  /** Every element of `t` is at most `x` by name. */
  lemma AllAtMost(t: seq<Cliente>, x: Cliente)
    requires SortedByNome(t) && t != [] && NomeLe(t[|t| - 1], x)
    ensures forall i :: 0 <= i < |t| ==> NomeLe(t[i], x)
  {
    forall i | 0 <= i < |t| - 1 ensures NomeLe(t[i], x) {
      StrLeTrans(t[i].nome, t[|t| - 1].nome, x.nome);
    }
  }

  /** Appending an element no smaller than any element keeps a list sorted. */
  lemma SortedSnoc(r: seq<Cliente>, y: Cliente)
    requires SortedByNome(r)
    requires forall k :: 0 <= k < |r| ==> NomeLe(r[k], y)
    ensures SortedByNome(r + [y])
  {
  }

  /** An upper bound of `init` and of `x` bounds every element of a list with
      the elements of `init` and `x`. */
  lemma BoundCarries(r: seq<Cliente>, init: seq<Cliente>, x: Cliente, last: Cliente)
    requires multiset(r) == multiset(init) + multiset{x}
    requires forall j :: 0 <= j < |init| ==> NomeLe(init[j], last)
    requires NomeLe(x, last)
    ensures forall k :: 0 <= k < |r| ==> NomeLe(r[k], last)
  {
    forall k | 0 <= k < |r| ensures NomeLe(r[k], last) {
      assert r[k] in multiset(r);
      if r[k] != x {
        assert r[k] in multiset(init);
        var j :| 0 <= j < |init| && init[j] == r[k];
      }
    }
  }

  /** Puts `x` into the sorted `t` after every element whose name does not
      exceed its own, so that the result is sorted. */
  function InsertByNome(t: seq<Cliente>, x: Cliente): (r: seq<Cliente>)
    requires SortedByNome(t)
    ensures SortedByNome(r)
    ensures multiset(r) == multiset(t) + multiset{x}
  {
    if t == [] then [x]
    else if NomeLe(t[|t| - 1], x) then
      AllAtMost(t, x);
      SortedSnoc(t, x);
      t + [x]
    else
      var last, init := t[|t| - 1], t[..|t| - 1];
      assert t == init + [last];
      var r' := InsertByNome(init, x);
      StrLeTotal(x.nome, last.nome);
      BoundCarries(r', init, x, last);
      SortedSnoc(r', last);
      r' + [last]
  }

  /** The list sorted by name: a permutation of the input, in ascending order
      (a stable insertion sort, as `Array.prototype.sort` is stable). */
  function SortByNome(s: seq<Cliente>): (r: seq<Cliente>)
    ensures SortedByNome(r)
    ensures multiset(r) == multiset(s)
  {
    if s == [] then []
    else
      assert s == s[..|s| - 1] + [s[|s| - 1]];
      InsertByNome(SortByNome(s[..|s| - 1]), s[|s| - 1])
  }

  /** An element no smaller than the last of a sorted list goes at its end. */
  lemma InsertAtEnd(t: seq<Cliente>, x: Cliente)
    requires SortedByNome(t)
    requires t == [] || NomeLe(t[|t| - 1], x)
    ensures InsertByNome(t, x) == t + [x]
  {
  }

  /** Sorting a list that is already in order changes nothing. */
  lemma {:induction false} SortByNomeKeepsSorted(s: seq<Cliente>)
    requires SortedByNome(s)
    ensures SortByNome(s) == s
  {
    if s != [] {
      var init, last := s[..|s| - 1], s[|s| - 1];
      assert s == init + [last];
      SortByNomeKeepsSorted(init);
      if init != [] {
        assert NomeLe(init[|init| - 1], last);
      }
      InsertAtEnd(init, last);
    }
  }

  /** The list after a confirmed creation: the old list with the new row, re-sorted. */
  lemma SaveMeaning(s: seq<Cliente>, row: Cliente)
    ensures var r := SortByNome(s + [row]);
      && |r| == |s| + 1
      && SortedByNome(r)
      && row in r
      && (forall c :: c in s ==> c in r)
      && (forall c :: c in r ==> c == row || c in s)
  {
    var r := SortByNome(s + [row]);
    assert multiset(s + [row]) == multiset(s) + multiset{row};
    assert multiset(r) == multiset(s) + multiset{row};
    assert |multiset(r)| == |r|;
    forall c | c in s ensures c in r {
      assert c in multiset(s);
      assert c in multiset(r);
    }
    assert row in multiset(r);
    forall c | c in r ensures c == row || c in s {
      assert c in multiset(r);
    }
  }

  // ---------------------------------------------------------------------------
  // Update and delete by id

  /** `prev.map(c => c.id === id ? data : c)` */
  function ReplaceById(s: seq<Cliente>, id: string, row: Cliente): seq<Cliente> {
    seq(|s|, i requires 0 <= i < |s| => if s[i].id == Some(id) then row else s[i])
  }

  /** The list after a confirmed update: same length, sorted by name, every
      customer with another id kept, and the rows carrying that id replaced by
      the store's row. */
  lemma UpdateMeaning(s: seq<Cliente>, id: string, row: Cliente)
    ensures var r := SortByNome(ReplaceById(s, id, row));
      && |r| == |s|
      && SortedByNome(r)
      && (forall c :: c in s && c.id != Some(id) ==> c in r)
      && (forall c :: c in r ==> c == row || (c in s && c.id != Some(id)))
      && ((exists c :: c in s && c.id == Some(id)) ==> row in r)
  {
    var m := ReplaceById(s, id, row);
    var r := SortByNome(m);
    assert |multiset(r)| == |r| && |multiset(m)| == |m|;
    forall c | c in s && c.id != Some(id) ensures c in r {
      var i :| 0 <= i < |s| && s[i] == c;
      assert m[i] == c;
      assert c in multiset(m);
    }
    forall c | c in r ensures c == row || (c in s && c.id != Some(id)) {
      assert c in multiset(r);
      assert c in m;
      var i :| 0 <= i < |m| && m[i] == c;
    }
    if exists c :: c in s && c.id == Some(id) {
      var c :| c in s && c.id == Some(id);
      var i :| 0 <= i < |s| && s[i] == c;
      assert m[i] == row;
      assert row in multiset(m);
    }
  }

  /** `prev.filter(c => c.id !== id)` */
  function RemoveById(s: seq<Cliente>, id: string): seq<Cliente> {
    Filter(s, (c: Cliente) => c.id != Some(id))
  }

  /** The list after a confirmed delete: exactly the customers with another id,
      in their original order; deleting the same id again changes nothing. */
  lemma DeleteMeaning(s: seq<Cliente>, id: string)
    ensures forall c :: c in RemoveById(s, id) <==> c in s && c.id != Some(id)
    ensures IsSubsequence(RemoveById(s, id), s)
    ensures RemoveById(RemoveById(s, id), id) == RemoveById(s, id)
  {
    var p := (c: Cliente) => c.id != Some(id);
    FilterIsSubsequence(s, p);
    FilterIdempotent(s, p);
  }

  // ---------------------------------------------------------------------------
  // Lookup by id: `clientes.find(c => c.id === id)`

  /** `k` is the position of the first customer whose id is `id`. */
  predicate IsFirstWithId(s: seq<Cliente>, id: Option<string>, k: int) {
    0 <= k < |s| && s[k].id == id && forall j :: 0 <= j < k ==> s[j].id != id
  }

  /** The position of the first customer whose id is `id`, if any. */
  function FirstIndexOf(s: seq<Cliente>, id: Option<string>): (k: Option<nat>)
    ensures k.Some? ==> k.value < |s| && s[k.value].id == id
    ensures k.Some? ==> forall j :: 0 <= j < k.value ==> s[j].id != id
    ensures k.None? ==> forall j :: 0 <= j < |s| ==> s[j].id != id
  {
    if s == [] then None
    else if s[0].id == id then Some(0)
    else
      var k := FirstIndexOf(s[1..], id);
      if k.Some? then Some(k.value + 1) else None
  }

  /** The first customer whose id is `id` (an absent id on both sides matches,
      as `undefined === undefined` does), or nothing when none has it. */
  function FindById(s: seq<Cliente>, id: Option<string>): (r: Option<Cliente>)
    ensures r.None? <==> forall j :: 0 <= j < |s| ==> s[j].id != id
    ensures r.Some? ==> r.value in s && r.value.id == id
    ensures r.Some? ==> exists k :: IsFirstWithId(s, id, k) && s[k] == r.value
  {
    var k := FirstIndexOf(s, id);
    if k.Some? then
      assert IsFirstWithId(s, id, k.value);
      Some(s[k.value])
    else None
  }

  // ---------------------------------------------------------------------------
  // The hook's state

  /** What `useClientes` keeps between renders. */
  class ClienteCache {
    var clientes: seq<Cliente>
    var loading: bool

    /** `useState<Cliente[]>([])`, `useState(false)` */
    constructor ()
      ensures clientes == [] && !loading
    {
      clientes := [];
      loading := false;
    }

    /** `carregarClientes`: the list becomes the returned rows (`[]` for no
        data); a failed load keeps the previous list. */
    method CarregarClientes(resp: Remote<Option<seq<Cliente>>>) returns (q: Select)
      modifies this
      ensures q == LoadQuery()
      ensures resp.Ok? ==> clientes == resp.data.GetOr([])
      ensures resp.Err? ==> clientes == old(clientes)
      ensures !loading
    {
      loading := true;
      q := LoadQuery();
      if resp.Ok? {
        clientes := resp.data.GetOr([]);
      }
      loading := false;
    }

    /** `salvarCliente`: without a user and a profile it throws before any
        call; otherwise it inserts the draft stamped with the user's id and
        name and, once the store confirms, adds the returned row and re-sorts. */
    method SalvarCliente(draft: ClienteDraft, user: Option<User>, profile: Option<Profile>, resp: Remote<Cliente>)
      returns (sent: Option<Cliente>, r: Result<Cliente>)
      modifies this
      ensures !Authenticated(user, profile) ==>
        sent == None && r == Failure(NotAuthenticated) && clientes == old(clientes)
      ensures Authenticated(user, profile) ==> sent == Some(Stamped(draft, user.value, profile.value))
      ensures Authenticated(user, profile) && resp.Ok? ==>
        r == Success(resp.data) && clientes == SortByNome(old(clientes) + [resp.data])
      ensures Authenticated(user, profile) && resp.Err? ==>
        r == Failure(RemoteFailure(resp.cause)) && clientes == old(clientes)
      ensures !loading
    {
      loading := true;
      if !Authenticated(user, profile) {
        sent, r := None, Failure(NotAuthenticated);
      } else {
        var row := Stamped(draft, user.value, profile.value);
        sent := Some(row);
        match resp
        case Err(cause) =>
          r := Failure(RemoteFailure(cause));
        case Ok(data) =>
          clientes := SortByNome(clientes + [data]);
          r := Success(data);
      }
      loading := false;
    }

    /** `atualizarCliente`: without a user and a profile it throws before any
        call; otherwise it sends the patch for that id and, once the store
        confirms, replaces the rows with that id by the returned row and re-sorts. */
    method AtualizarCliente(id: string, patch: ClienteDraft, user: Option<User>, profile: Option<Profile>, resp: Remote<Cliente>)
      returns (sent: Option<UpdateRequest>, r: Result<Cliente>)
      modifies this
      ensures !Authenticated(user, profile) ==>
        sent == None && r == Failure(NotAuthenticated) && clientes == old(clientes)
      ensures Authenticated(user, profile) ==> sent == Some(UpdateRequest(id, patch))
      ensures Authenticated(user, profile) && resp.Ok? ==>
        r == Success(resp.data) && clientes == SortByNome(ReplaceById(old(clientes), id, resp.data))
      ensures Authenticated(user, profile) && resp.Err? ==>
        r == Failure(RemoteFailure(resp.cause)) && clientes == old(clientes)
      ensures !loading
    {
      loading := true;
      if !Authenticated(user, profile) {
        sent, r := None, Failure(NotAuthenticated);
      } else {
        sent := Some(UpdateRequest(id, patch));
        match resp
        case Err(cause) =>
          r := Failure(RemoteFailure(cause));
        case Ok(data) =>
          clientes := SortByNome(ReplaceById(clientes, id, data));
          r := Success(data);
      }
      loading := false;
    }

    /** `excluirCliente`: needs no identity; once the store confirms, the
        customers with that id leave the list. */
    method ExcluirCliente(id: string, resp: Remote<()>) returns (r: Result<()>)
      modifies this
      ensures resp.Ok? ==> r == Success(()) && clientes == RemoveById(old(clientes), id)
      ensures resp.Err? ==> r == Failure(RemoteFailure(resp.cause)) && clientes == old(clientes)
      ensures !loading
    {
      loading := true;
      match resp {
        case Err(cause) =>
          r := Failure(RemoteFailure(cause));
        case Ok(_) =>
          clientes := RemoveById(clientes, id);
          r := Success(());
      }
      loading := false;
    }

    /** `buscarClientes`: the returned rows (`[]` for no data), or `[]` when the
        search fails; the cached list and the flag are not touched. When the
        store honours the query, there are at most ten rows and each matches
        the term by name or by code. */
    method BuscarClientes(termo: string, resp: Remote<Option<seq<Cliente>>>) returns (q: Select, found: seq<Cliente>)
      ensures q == SearchQuery(termo)
      ensures resp.Err? ==> found == []
      ensures resp.Ok? ==> found == resp.data.GetOr([])
      ensures Honours(q, Rows(found, Columns)) ==>
        |found| <= 10 &&
        forall c :: c in found ==> Contains(Lower(c.nome), Lower(termo)) || Contains(Lower(c.codigo), Lower(termo))
    {
      q := SearchQuery(termo);
      if resp.Ok? {
        found := resp.data.GetOr([]);
      } else {
        found := [];
      }
      if Honours(q, Rows(found, Columns)) {
        SearchMeaning(termo, found);
      }
    }

    /** The effect on `[user]`: the list is loaded only once someone is signed in. */
    method UserEffect(user: Option<User>, resp: Remote<Option<seq<Cliente>>>) returns (q: Option<Select>)
      modifies this
      ensures user.None? ==> q == None && clientes == old(clientes) && loading == old(loading)
      ensures user.Some? ==> q == Some(LoadQuery()) && !loading
      ensures user.Some? && resp.Ok? ==> clientes == resp.data.GetOr([])
      ensures user.Some? && resp.Err? ==> clientes == old(clientes)
    {
      q := None;
      if user.Some? {
        var issued := CarregarClientes(resp);
        q := Some(issued);
      }
    }
  }
}
