# Gestão de Lotes — client-side state model

A Dafny model of the client-side core of a small batch (lote) and customer
(cliente) management front end backed by a remote store. The front end
keeps two caches: customers in `useClientes` and batches in `useLotes`.
Around them sit pages that filter, look up, register and edit records.
Every call to the store becomes an input value, `Remote<T> = Ok(data) | Err(cause)`.
Once it does, each operation is a deterministic state update, and the model proves what each update does.

The model, file by file:

- `results.dfy`: `Option`, `Remote` (a store answer), `Error` and `Result` (what a hook operation throws or returns).
- `strings.dfy`: the JavaScript string operations the pages use.
  - `trim`, with the ECMAScript white-space set.
  - `toLowerCase`, on ASCII letters only.
  - `includes`.
  - A character order on strings, standing in for `localeCompare` and for the store's `gte`/`lte`.
  - The `x || fallback` idiom.
- `seqs.dfy`: `filter` and `slice(0, n)` on lists, plus the order-preserving subsequence relation.
- `query.dfy`: the select queries as data: the table, the constraints (`eq`, `ilike`, `gte`, `lte`, `or`), the order and the limit. It also holds `Honours`, the store's promise about the rows it returns. The model only ever uses `Honours` as a hypothesis.
- `clientes.dfy`: the `useClientes` hook as the class `ClienteCache`. It covers load, create, update, delete, search and the user-gated load effect. The list transforms are pure functions with their own lemmas: sorted insert and re-sort by name, replace by id, remove by id, and find by id.
- `lotes.dfy`: the `useLotes` hook as the class `LoteCache`. It covers load, prepend on save, and lookup by exact code.
- `consulta_clientes.dfy`: the customer listing page. Two case-insensitive filters run one after the other, and a delete runs only after confirmation.
- `cliente_combobox.dfy`: the customer picker.
  - The two-tier suggestion rule: a remote search for 2 or more characters, otherwise the first ten cached customers.
  - The label lookup.
  - The select/deselect toggle.
- `acompanhamento.dfy`: the batch-monitoring page.
  - The query that the four filters compose.
  - The list update.
  - The display fallbacks: `-` and `N/A`.
  - The `ativo` highlight (`Destacado`).
- `cadastro_lote.dfy`: the local batch registration page. The browser store is a map keyed by batch code. Its key count is the dashboard total shown by `src/pages/Index.tsx:9-10`.
- `cadastro_clientes.dfy`: the customer form page.
  - Prefill in edit mode.
  - The required-field guard, which the save button shares.
  - The branch between create and update.
  - Form reset after a create; navigation after an edit.
- `consulta_lote.dfy`: the batch lookup page and what it shows for a found or missing batch.

The code behaves as follows, and the model keeps that behaviour:

- `salvarLote` neither validates the draft nor stamps a status.
- `excluirCliente` needs no signed-in identity.
- Batch creation needs no identity.
- No code sorts columns, so none is modelled.
- Nothing guards against a response arriving after the page is gone.
- The suggestion list for short terms is simply the first ten cached customers, in cache order.

## Model

| member | source | states |
|---|---|---|
| Strings.TrimStartMeaning | src/pages/CadastroLote.tsx:32 | leading white space dropped: result is a suffix, the dropped part is blank, result does not start with white space |
| Strings.TrimEndMeaning | src/pages/CadastroLote.tsx:32 | trailing white space dropped: result is a prefix, the dropped part is blank, result does not end with white space |
| Strings.TrimEmptyIffBlank | src/pages/CadastroLote.tsx:32 | `!s.trim()` holds exactly when every character of `s` is white space |
| Strings.ContainsAt | src/pages/ConsultaClientes.tsx:26-28 | `includes` holds exactly when the term occurs at some position of the string |
| Strings.StrLeTotal | src/hooks/useClientes.ts:73 | the name order compares any two names |
| Strings.StrLeTrans | src/hooks/useClientes.ts:73 | the name order is transitive |
| Strings.OrElse | src/pages/Acompanhamento.tsx:225-231 | the JavaScript fallback idiom gives the value when it is present and non-empty, the fallback otherwise, never empty for a non-empty fallback |
| Seqs.Filter | src/pages/ConsultaClientes.tsx:26-34 | the result keeps exactly the elements passing the predicate and is no longer than the input |
| Seqs.FilterIsSubsequence | src/pages/ConsultaClientes.tsx:22-37 | filtering keeps the relative order of the kept elements |
| Seqs.FilterKeepsAll | src/pages/ConsultaClientes.tsx:23-35 | when every element passes, filtering returns the list unchanged |
| Seqs.FilterCongruent | src/pages/ConsultaClientes.tsx:25-35 | two predicates agreeing on the list's elements filter it identically |
| Seqs.FilterIdempotent | src/pages/ConsultaClientes.tsx:22-37 | filtering again with the same predicate changes nothing |
| Seqs.FilterThenFilter | src/pages/ConsultaClientes.tsx:25-35 | two filters in a row keep exactly what their conjunction keeps |
| Seqs.Take | src/components/ClienteCombobox.tsx:27 | `slice(0, n)` has length min(n, length) and is the list's prefix |
| Query.SatisfiesAllConcat | src/pages/Acompanhamento.tsx:43-63 | a row meets a concatenation of constraint lists iff it meets both parts |
| Query.SatisfiesAllSingle | src/pages/Acompanhamento.tsx:49-63 | a row meets a one-constraint list iff it meets the constraint |
| Query.WildcardsMatch | src/pages/Acompanhamento.tsx:50 | `ilike '%x%'` is a case-insensitive "contains x" |
| Clientes.Columns | src/hooks/useClientes.ts:7-16 | a customer's row always carries its `nome` and `codigo` columns with their values |
| Query.Rows | src/hooks/useClientes.ts:167-174 | the rows of a list of records correspond one to one, in order, each the record's columns |
| Clientes.SearchMeaning | src/hooks/useClientes.ts:169-174 | rows honouring the search are at most ten and each has the term in its name or code, ignoring case |
| Clientes.InsertByNome | src/hooks/useClientes.ts:73 | inserting into a name-sorted list gives a name-sorted permutation of the list plus the row |
| Clientes.SortByNome | src/hooks/useClientes.ts:73 | `sort` by name: the result is sorted by name and a permutation of the input |
| Clientes.InsertAtEnd | src/hooks/useClientes.ts:73 | a row no smaller by name than the last of a sorted list is placed at its end |
| Clientes.SortByNomeKeepsSorted | src/hooks/useClientes.ts:73 | re-sorting an already sorted list changes nothing |
| Clientes.SaveMeaning | src/hooks/useClientes.ts:57-73 | after a create the list grows by one, is sorted, contains the new row and every old row, and nothing else |
| Clientes.UpdateMeaning | src/hooks/useClientes.ts:112-114 | after an update the length is kept, the list is sorted, every customer with another id stays, each row is the returned one or an old one with another id, and the returned row is present when the id was |
| Clientes.DeleteMeaning | src/hooks/useClientes.ts:148 | after a delete exactly the customers with another id remain, in their original order; deleting again changes nothing |
| Clientes.FirstIndexOf | src/components/ClienteCombobox.tsx:31 | the position found holds the id and no earlier one does; none found means no customer has the id |
| Clientes.FindById | src/components/ClienteCombobox.tsx:31 | `find` by id: nothing iff no customer has the id, otherwise the first customer that has it |
| Clientes.ClienteCache.constructor | src/hooks/useClientes.ts:19-20 | the cache starts empty and not loading |
| Clientes.ClienteCache.CarregarClientes | src/hooks/useClientes.ts:24-47 | the query is by name ascending; success replaces the list with the rows or `[]`, failure keeps it; loading ends false |
| Clientes.ClienteCache.SalvarCliente | src/hooks/useClientes.ts:49-91 | no user or profile: no call, not-authenticated error, list kept; otherwise the draft goes out stamped with the user's id and name; success gives the re-sorted list plus the row, failure rethrows and keeps the list; loading ends false |
| Clientes.ClienteCache.AtualizarCliente | src/hooks/useClientes.ts:93-133 | no user or profile: no call, not-authenticated error, list kept; otherwise the patch goes out for the id; success replaces the rows with that id and re-sorts, failure rethrows and keeps the list; loading ends false |
| Clientes.ClienteCache.ExcluirCliente | src/hooks/useClientes.ts:135-165 | no identity needed; success removes the customers with that id, failure rethrows and keeps the list; loading ends false |
| Clientes.ClienteCache.BuscarClientes | src/hooks/useClientes.ts:167-185 | sends the name-or-code search limited to ten; returns the rows or `[]`, and `[]` on failure; the cache is untouched; honoured results are at most ten matching rows |
| Clientes.ClienteCache.UserEffect | src/hooks/useClientes.ts:187-191 | the list is loaded only when a user is present; with none, nothing is sent and nothing changes |
| Lotes.Columns | src/hooks/useLotes.ts:6-18 | a batch's row carries its code, and its user name and creation time whenever they are present |
| Lotes.LookupMeaning | src/hooks/useLotes.ts:86-90 | a row meets the lookup iff its code equals the searched code exactly |
| Lotes.LoteCache.constructor | src/hooks/useLotes.ts:21-22 | the cache starts empty and not loading |
| Lotes.LoteCache.CarregarLotes | src/hooks/useLotes.ts:25-48 | the query is newest first; success replaces the list with the rows or `[]`, failure keeps it; loading ends false |
| Lotes.LoteCache.SalvarLote | src/hooks/useLotes.ts:50-81 | the draft is sent exactly as given, with no check and no status added; success puts the returned row at the head with the old list as tail; failure rethrows and keeps the list; loading ends false |
| Lotes.LoteCache.BuscarLotePorCodigo | src/hooks/useLotes.ts:83-108 | sends an exact-code lookup; returns the store's row or nothing, nothing on failure; an honoured row has that code; the list is untouched; loading ends false |
| ConsultaClientes.FiltrarIsOneFilter | src/pages/ConsultaClientes.tsx:22-38 | the two guarded filter steps equal a single filter by "passes both filters" |
| ConsultaClientes.FiltrarMeaning | src/pages/ConsultaClientes.tsx:25-35 | the result is an order-preserving subsequence; a customer is in it iff it is in the list and each filled filter occurs in its field, ignoring case (sound and complete) |
| ConsultaClientes.FiltrarIdempotent | src/pages/ConsultaClientes.tsx:22-38 | filtering the result again with the same filters returns it unchanged |
| ConsultaClientes.FiltrarSemFiltros | src/pages/ConsultaClientes.tsx:23-35 | with both filters empty the result is the whole list |
| ConsultaClientes.FiltrarExemplo | src/pages/ConsultaClientes.tsx:25-29 | Ana (code B) and Zeca (code A) filtered by name `an` leave Ana alone |
| ConsultaClientes.ConsultaClientesPage.constructor | src/pages/ConsultaClientes.tsx:15-19 | filters start empty, nothing filtered yet |
| ConsultaClientes.ConsultaClientesPage.AplicarFiltros | src/pages/ConsultaClientes.tsx:22-42 | the shown list becomes the filtered cache list |
| ConsultaClientes.ConsultaClientesPage.LimparFiltros | src/pages/ConsultaClientes.tsx:50-52 | both filters become empty and the whole cached list is shown |
| ConsultaClientes.ConsultaClientesPage.HandleExcluir | src/pages/ConsultaClientes.tsx:44-48 | without confirmation nothing is sent and nothing changes; with it, the delete's outcome applies, the cache stops loading and the filters are re-applied to the new list |
| ClienteCombobox.Rotulo | src/components/ClienteCombobox.tsx:31-43 | the label is the name of the first cached customer with the selected id, or the placeholder when none has it |
| ClienteCombobox.Escolha | src/components/ClienteCombobox.tsx:61-66 | picking the selected customer reports `('', '')`; picking another reports its id and name |
| ClienteCombobox.EscolhaAlterna | src/components/ClienteCombobox.tsx:61-66 | once a pick becomes the value, picking the same customer again clears the selection |
| ClienteCombobox.Combobox.constructor | src/components/ClienteCombobox.tsx:17-20 | closed, empty term, no suggestions |
| ClienteCombobox.Combobox.SuggestionEffect | src/components/ClienteCombobox.tsx:23-29 | a term of 2 or more characters sends the search and shows its (fail-soft) result; a shorter one sends nothing and shows the first ten cached customers in order |
| ClienteCombobox.Combobox.OnSelect | src/components/ClienteCombobox.tsx:61-68 | reports the pick as `Escolha` states, and the popover is closed afterwards |
| Acompanhamento.MonitorQuery | src/pages/Acompanhamento.tsx:43-63 | always the `lotes` table, newest first, no limit, exactly one constraint per filled filter |
| Acompanhamento.MonitorQueryMeaning | src/pages/Acompanhamento.tsx:48-63 | a row meets the query iff its code and user name contain the typed text ignoring case and its creation time lies between `<start>T00:00:00` and `<end>T23:59:59`, both ends included, compared as strings (the store compares timestamps; see "## Left out"); no filter, no constraint |
| Acompanhamento.BuildMonitorQuery | src/pages/Acompanhamento.tsx:43-63 | rebinding the query once per filled filter builds the composed query |
| Acompanhamento.Celula | src/pages/Acompanhamento.tsx:225-231 | a descriptive cell shows the value, or `-` when it is missing or empty |
| Acompanhamento.CelulaUsuario | src/pages/Acompanhamento.tsx:241 | the user cell shows the name, or `N/A` when it is missing or empty |
| Acompanhamento.CelulasDetalhes | src/pages/Acompanhamento.tsx:225-231 | the seven descriptive cells are never empty |
| Acompanhamento.AcompanhamentoPage.constructor | src/pages/Acompanhamento.tsx:30-37 | no batches, not loading, all filters empty |
| Acompanhamento.AcompanhamentoPage.CarregarLotes | src/pages/Acompanhamento.tsx:40-82 | sends the query the filters compose; success replaces the list with the rows or `[]`, failure keeps it; loading ends false |
| Acompanhamento.AcompanhamentoPage.LimparFiltros | src/pages/Acompanhamento.tsx:92-98 | all four filters become empty |
| CadastroLote.FormularioVazio | src/pages/CadastroLote.tsx:55-64 | the eight fields, all empty |
| CadastroLote.Registrar | src/pages/CadastroLote.tsx:42-47 | the code as typed becomes a key holding the form plus its timestamp; every other key is unchanged |
| CadastroLote.RegistrarTotal | src/pages/Index.tsx:9-10 | registering an existing code keeps the dashboard total; a new code adds one |
| CadastroLote.CadastroLotePage.constructor | src/pages/CadastroLote.tsx:12-21 | the form starts with its eight fields empty |
| CadastroLote.CadastroLotePage.HandleInputChange | src/pages/CadastroLote.tsx:23-28 | only the named field changes |
| CadastroLote.CadastroLotePage.HandleSave | src/pages/CadastroLote.tsx:30-65 | a blank or white-space code changes nothing; otherwise the store is `Registrar` of the form under the untrimmed code, the form is emptied and the total grows by one only for a new code |
| CadastroClientes.FormularioVazio | src/pages/CadastroClientes.tsx:55-59 | the three fields, all empty |
| CadastroClientes.MissingRequired | src/pages/CadastroClientes.tsx:46 | the save is refused iff the name or the code is made of white space only |
| CadastroClientes.SaveDisabled | src/pages/CadastroClientes.tsx:146 | the button is disabled while loading, and otherwise exactly when the save would be refused |
| CadastroClientes.PrefillForm | src/pages/CadastroClientes.tsx:29-33 | the form takes the customer's name and code, and its note or `''` |
| CadastroClientes.CadastroClientesPage.constructor | src/pages/CadastroClientes.tsx:19-23 | the form starts empty, with no navigation |
| CadastroClientes.CadastroClientesPage.PrefillEffect | src/pages/CadastroClientes.tsx:25-36 | in edit mode, with customers cached and one matching the id, the form is filled from the first match; otherwise it is unchanged |
| CadastroClientes.CadastroClientesPage.HandleInputChange | src/pages/CadastroClientes.tsx:38-43 | only the named field changes |
| CadastroClientes.CadastroClientesPage.HandleSave | src/pages/CadastroClientes.tsx:45-68 | a blank name or code does nothing; otherwise it updates `(id, form)` in edit mode and creates `form` otherwise; a successful create empties the form without navigating, a successful edit goes to `/clientes`, a failure changes neither |
| ConsultaLote.Titulo | src/pages/ConsultaLote.tsx:82 | "Lote não encontrado" exactly when nothing was found |
| ConsultaLote.Detalhe | src/pages/ConsultaLote.tsx:104-146 | an attribute shows its value, or "Não informado" when missing or empty |
| ConsultaLote.ConsultaLotePage.constructor | src/pages/ConsultaLote.tsx:12-14 | empty code, nothing found, no search done |
| ConsultaLote.ConsultaLotePage.HandleBuscar | src/pages/ConsultaLote.tsx:16-25 | a blank code sends nothing and changes nothing; otherwise the untrimmed code is looked up, the result is recorded and the search is marked done; the batch list is untouched |

## Left out

- The store itself is not modelled. Each call is an input `Ok(data)` or `Err(cause)`. What the store promises about its rows (filters met, limit kept) appears only as the `Honours` hypothesis in the members that state it.
- `ilike` treats `%` and `_` inside the typed term literally. The store would read them as wildcards.
- Clientes.ClienteCache.BuscarClientes: the search term is pasted into the text of the `or` filter (src/hooks/useClientes.ts:172). A `,`, `(` or `)` in the term changes that filter or makes it unreadable, and `*` also acts as a wildcard there. The model takes the term as a plain value inside `SearchQuery`, so it holds only for terms without those characters.
- `localeCompare` is modelled as plain character order (`StrLe`). Locale collation cannot be stated here.
- Clientes.SortByNome: sort stability is not proved. The sort is an insertion sort that keeps equal names in input order, but no contract says so.
- Strings.Lower: lowercases the ASCII letters only, not the whole of Unicode.
- Strings are sequences of Unicode characters. JavaScript counts UTF-16 code units, so the `length >= 2` rule differs for characters outside the Basic Multilingual Plane. For the same reason `StrLe` orders such characters above U+E000–U+FFFF, where an order by UTF-16 code units puts them below.
- The date filters: the query sends the bounds as strings, and the model (`Query.Satisfies`, `Acompanhamento.Admits`) compares creation times with them as strings. The store compares them as timestamps. The two differ for a row created exactly at `<end>T23:59:59`: the store returns its creation time as `…T23:59:59+00:00` and admits the row, while `Admits` does not, so `Honours` rejects that answer. Acompanhamento.MonitorQueryMeaning states the meaning under the string reading only. Under either reading, the end bound is `T23:59:59`, so a creation time with a fraction of a second inside the last second of the end day (`T23:59:59.5`) is not admitted; the model keeps that bound as written. Time zones and the date display (`toLocaleDateString`) are left out.
- Toasts, `console.error`, JSX rendering and CSS classes are left out.
- The `setTimeout` reload after clearing the Acompanhamento filters is left out. So are effect re-run timing and the interleaving of asynchronous calls.
- CadastroLote.Registrar: a batch code of `__proto__` is treated as an ordinary key. In the JavaScript object the assignment sets the object's prototype instead, stores no key and leaves the total unchanged, so Registrar and CadastroLote.RegistrarTotal do not hold for that one code.
- `localStorage` JSON parsing and serialisation are left out. The store is a `map` from code to form, and the save time is an input.
- src/pages/Auth.tsx, src/App.tsx and src/components/Navigation.tsx are not part of this model. They hold routing and a password check only.
- Column sorting and status stamping do not appear in the code, so they are not modelled.
- The picker compares the picked item's id with the current value directly. The UI library's normalisation of item values is left out.
- CadastroClientes.CadastroClientesPage.HandleSave sends only the three form fields as the draft. Extra keys that `handleInputChange` could add are not forwarded.
- The mount effect of `useLotes` is the same load as Lotes.LoteCache.CarregarLotes, so it is not modelled separately.
- One batch record type serves both `useLotes` and the monitoring page. Its status is optional.
- Acompanhamento.Destacado, the `ativo` highlight, is a plain predicate and has no contract of its own.
