# Room-slot booking engine of vagagoold, in Dafny

vagagoold lets an administrator define rooms (`salas`) with a daily opening
window (`horarioInicio`–`horarioFim`, `HH:MM` strings) and a fixed block
length (`duracaoBloco`, minutes). Clients book (`agendamentos`) one block of
one room at a time. This project models and proves three pieces:

- The booking service (`server/src/services/agendamentoService.ts`), over an
  in-memory store of users, rooms and bookings. It covers:
  - parsing and rendering clock strings;
  - validating a room's configuration;
  - generating a day's slots;
  - the fail-fast admission chain of `criar`;
  - the free-slot list;
  - filtered listing, newest first;
  - lookup and partial update of a booking;
  - room creation and room update.
- The HTTP handlers of `server/src/controllers/agendamentoController.ts`. It
  covers the scoping of a client to their own bookings, the 403 on other
  clients' bookings, the required-field 400s, the fixed status writes of
  approve and reject, and the swallowed audit-log failure.
- The display helpers of `src/utils/formatacao.ts`: date and date-time
  strings, the two-line address and word capitalisation.

Files:

- `text.dfy` (module `Text`) holds the shared string machinery: decimal
  rendering, `padStart(2, '0')`, `split`/`join` on one character, and
  ASCII case mapping.
- `models.dfy` (module `Models`) holds the records and the errors with their
  HTTP statuses.
- `horarios.dfy` (module `Horarios`) holds the time-of-day helpers and the
  slot generator. The generator is a `while` loop proved against the
  specification function `Rotulos(Blocos(..))`.
- `agendamento_service.dfy` (module `AgendamentoService`) holds the service
  operations. Each is a decision function plus a `Store` class whose methods
  update the tables in place.
- `agendamento_lemas.dfy` (module `AgendamentoLemas`) holds what the service
  guarantees.
- `agendamento_controller.dfy` (module `AgendamentoController`) holds the
  handlers.
- `formatacao.dfy` (module `Formatacao`) holds the front-end formatters.

A timestamp is a day number plus a minute of the day (`DataHora`). A date
string of `criar` or `listarHorariosDisponiveis` that JavaScript's `Date`
cannot read is `None`. Ids are strings, and the
empty string stands for a missing (falsy) id. The ids the database would
generate for new rows are method parameters.

## Model

| member | source | states |
|---|---|---|
| Horarios.ParseHorarioParaMinutos | server/src/services/agendamentoService.ts:39-48 | the parse (`Split` on ':', then `HoraEMinuto` reading the first two pieces with `Numero`, the model of `Number`) is, when present, a minute count in [0, 1439] |
| Horarios.ParseDigitFields | server/src/services/agendamentoService.ts:39-48 | two digit fields around a colon parse to hour*60+minute exactly when hour <= 23 and minute <= 59, and to null otherwise |
| Horarios.ParseMinutoVazio | server/src/services/agendamentoService.ts:40-47 | `Number("")` is 0, so `"08:"` parses to 480 |
| Horarios.ParseSemDoisPontos | server/src/services/agendamentoService.ts:40-44 | any string without a colon has an undefined minute piece, so it parses to null |
| Horarios.SegundosIgnorados | server/src/services/agendamentoService.ts:40-42 | for colon-free hour and minute fields, anything after a second colon (one piece or several) leaves the parse unchanged |
| Horarios.FormatarMinutosCampos | server/src/services/agendamentoService.ts:50-54 | `FormatarMinutos` renders five characters: two digits holding the hour, a colon, two digits holding the minute |
| Horarios.ParseFormatarMinutos | server/src/services/agendamentoService.ts:39-54 | every minute of the day survives rendering and parsing back |
| Horarios.FormatarHorarioInjetivo | server/src/services/agendamentoService.ts:50-54 | `FormatarHorario` gives two timestamps the same `HH:MM` iff they are at the same minute of the day |
| Horarios.ValidarConfiguracaoSala | server/src/services/agendamentoService.ts:56-73 | the three errors, each iff its condition in fail-fast order; success iff both times parse, the block length is positive and start < end; success returns the parsed window with 0 <= start < end <= 1439 |
| Horarios.Blocos | server/src/services/agendamentoService.ts:77-84 | the slot starts are empty iff one block does not fit; the first is the start; each slot's block ends by the closing time |
| Horarios.GerarHorariosDisponiveis | server/src/services/agendamentoService.ts:75-87 | the loop yields the rendered labels of exactly the slot starts `Blocos` defines, in order |
| Horarios.BlocoK | server/src/services/agendamentoService.ts:77-84 | slot k starts k whole blocks after the opening time |
| Horarios.BlocosCrescentes | server/src/services/agendamentoService.ts:79-84 | slots are strictly increasing, at least one block apart |
| Horarios.QuantidadeDeBlocos | server/src/services/agendamentoService.ts:79-84 | the number of slots is (end - start) div block length |
| Horarios.MembroDosBlocos | server/src/services/agendamentoService.ts:164-167 | a minute is a slot start iff start <= m, m + block <= end and (m - start) mod block == 0 |
| Horarios.RotuloPertence | server/src/services/agendamentoService.ts:80-82 | a minute's label is among the generated labels iff the minute is among the slot starts |
| Horarios.RotulosLidosDeVolta | server/src/services/agendamentoService.ts:80-82 | in a validated window every generated label parses back to its own minute |
| Horarios.DiaDeTrintaMinutos | server/src/services/agendamentoService.ts:75-87 | an 08:00-18:00 window in 30-minute blocks gives 20 slots, 08:00 to 17:30 |
| AgendamentoService.Admissao | server/src/services/agendamentoService.ts:144-195 | an accepted request yields a `Pendente` booking of an existing, active client and an existing, active, validly configured room, and it conflicts with no live booking |
| AgendamentoService.BuscarPorId | server/src/services/agendamentoService.ts:128-143 | 404 iff no booking has the id; otherwise a stored booking with that id; the lookup is `IndiceDe`, the model of `findByPk` |
| AgendamentoService.Livres | server/src/services/agendamentoService.ts:244-250 | the filter keeps exactly the labels not in the taken set (`Ocupados`), in order |
| AgendamentoService.Filtrar | server/src/services/agendamentoService.ts:98-110 | a booking is kept iff it meets every given filter (`Atende`: client, status, inclusive date range), with its multiplicity |
| AgendamentoService.Inserir | server/src/services/agendamentoService.ts:117 | inserting into a newest-first list keeps it newest first and adds exactly that booking |
| AgendamentoService.Ordenar | server/src/services/agendamentoService.ts:117 | the result is newest first and a permutation of the input |
| AgendamentoService.Listar | server/src/services/agendamentoService.ts:98-127 | `listar` returns exactly the stored bookings meeting the filters, each as often as stored, newest first |
| AgendamentoService.NovaSala | server/src/services/agendamentoService.ts:252-270 | the new room fails iff the configuration fails, with the same error; otherwise it carries the given fields and is active unless `ativa` is false |
| AgendamentoService.ListarSalasParticao | server/src/services/agendamentoService.ts:210-214 | `ListarSalas` filtered on active and on inactive gives two disjoint sets whose union is the unfiltered list, which is every stored room |
| AgendamentoService.SalaAtualizadaComoEscrito | server/src/services/agendamentoService.ts:271-290 | the room update as written: when `RevalidaComoEscrito` (the truthiness guard) is false it stores `Mesclar` of room and patch unvalidated; it fails iff that guard holds and the merge is invalid; on success the stored room is the merge |
| AgendamentoService.SalaAtualizada | server/src/services/agendamentoService.ts:271-290 | the corrected update: a patch touching no scheduling field (`Revalida` false) stores the merge; one touching any succeeds iff the merge is validly configured; a valid configuration stays valid |
| AgendamentoService.Store.Criar | server/src/services/agendamentoService.ts:144-198 | the answer is `Admissao` on the old tables; on success exactly the new booking is appended; nothing else changes |
| AgendamentoService.Store.Atualizar | server/src/services/agendamentoService.ts:199-209 | 404 for an unknown id; otherwise that booking alone is replaced by its patched version (`AplicarPatch`), and no other stored booking has that id (`IdsUnicos` in `Valid`) |
| AgendamentoService.Store.ListarHorariosDisponiveis | server/src/services/agendamentoService.ts:215-250 | the answer equals `HorariosLivres`: 404/400 for a missing or inactive room or an unreadable date, the configuration error, or the free labels |
| AgendamentoService.Store.CriarSala | server/src/services/agendamentoService.ts:252-270 | the answer equals `NovaSala`; only that room is added; all stored rooms stay validly configured |
| AgendamentoService.Store.AtualizarSala | server/src/services/agendamentoService.ts:271-290 | 404 for an unknown room; otherwise `SalaAtualizada` is stored under its own id; all stored rooms stay validly configured |
| AgendamentoLemas.AdmissaoOrdemDosErros | server/src/services/agendamentoService.ts:144-162 | each early error of `criar` occurs iff its check is the first to fail: client 404, inactive 403, room 404, inactive room 400, unreadable date 400 (the `ValidarDataHora` step), configuration error |
| AgendamentoLemas.EncaixarNaGrade | server/src/services/agendamentoService.ts:164-188 | the window, alignment and conflict step (`Encaixar`) accepts iff the minute is a slot start and not taken (`Conflita`); 400 iff off the grid; 409 iff on it and taken |
| AgendamentoLemas.AdmissaoNaGrade | server/src/services/agendamentoService.ts:164-188 | past the early checks, accepted iff the minute is a generated slot start and not taken; 400 iff off the grid; 409 iff on it and taken |
| AgendamentoLemas.AdmissaoPreservaSemConflito | server/src/services/agendamentoService.ts:173-195 | appending an admitted booking keeps at most one live booking per room and timestamp |
| AgendamentoLemas.AdmissaoRepetida | server/src/services/agendamentoService.ts:178-188 | repeating an accepted request is refused with 409 |
| AgendamentoLemas.OcupadoSeConflita | server/src/services/agendamentoService.ts:236-246 | a timestamp's `HH:MM` is in `Ocupados` for that day iff `Conflita` holds: a live booking of the room is at that timestamp |
| AgendamentoLemas.LivreSeESoSeAdmitido | server/src/services/agendamentoService.ts:215-250 | for an active client, `criar` accepts a timestamp iff `HorariosLivres` (the answer of `listarHorariosDisponiveis`) offers its `HH:MM` that day |
| AgendamentoLemas.LivresEmOrdem | server/src/services/agendamentoService.ts:248-250 | the free slots are a subsequence of the generated slots |
| AgendamentoLemas.JanelaDaSala1 | server/src/services/agendamentoService.ts:56-73 | "08:00"-"18:00" in 30-minute blocks validates to the window 480-1080 |
| AgendamentoLemas.GradeDaSala1 | server/src/services/agendamentoService.ts:164-171 | in that room 08:10 and 18:00 are refused with 400 and 17:30 is accepted |
| AgendamentoLemas.AtualizarSoInicioComoEscrito | server/src/services/agendamentoService.ts:275-286 | as written, moving only the opening time to 19:00 stores an invalid room; corrected, it is refused with 400 |
| AgendamentoLemas.AtualizarDuracaoZeroComoEscrito | server/src/services/agendamentoService.ts:275-286 | as written, a block length of 0 is stored; corrected, it is refused with 400 |
| AgendamentoLemas.CorrecaoSoNosCasosOmitidos | server/src/services/agendamentoService.ts:275-286 | when the written guard (`RevalidaComoEscrito`) fires, or no scheduling field is touched, both versions agree |
| AgendamentoController.FiltroPara | server/src/controllers/agendamentoController.ts:7-15 | a client's filter names their own id; any other caller's filter keeps the query's client id; the other filters pass unchanged |
| AgendamentoController.ListarAgendamentos | server/src/controllers/agendamentoController.ts:6-19 | a client with an id only ever sees their own bookings; every listed booking is stored; newest first |
| AgendamentoController.ClienteVeTodosOsSeus | server/src/controllers/agendamentoController.ts:6-17 | each of a client's bookings that passes the other filters is listed |
| AgendamentoController.BuscarAgendamento | server/src/controllers/agendamentoController.ts:21-32 | 400 iff no id; success returns the stored booking and, for a client, one of their own; 403 only for clients |
| AgendamentoController.AdminNuncaRecebe403 | server/src/controllers/agendamentoController.ts:27-29 | a non-client gets exactly the service's lookup |
| AgendamentoController.ClienteSoVeOProprio | server/src/controllers/agendamentoController.ts:21-32 | a client gets a booking iff it exists and is theirs, and 403 iff it exists and is not |
| AgendamentoController.PedidoPara | server/src/controllers/agendamentoController.ts:34-40 | 400 iff the date, the client id (the caller's own for a client) or the room id is missing; otherwise a request carrying those values |
| AgendamentoController.ClienteReservaParaSi | server/src/controllers/agendamentoController.ts:36 | a client's body client id has no effect |
| AgendamentoController.CriarAgendamento | server/src/controllers/agendamentoController.ts:34-60 | 201 with the service's booking, or the error's status; the log entry exists iff a client booked and the log write did not fail, and it never changes the answer |
| AgendamentoController.AtualizarAgendamento | server/src/controllers/agendamentoController.ts:62-87 | 400 without an id; otherwise the service's patch of that booking alone |
| AgendamentoController.SoOStatusMuda | server/src/controllers/agendamentoController.ts:73-87 | through `AplicarPatch`, approve writes `Agendado` and reject writes `Cancelado`, whatever the previous status; no other field changes |
| AgendamentoController.RejeitarPreservaSemConflito | server/src/controllers/agendamentoController.ts:81-87 | rejecting keeps at most one live booking per room and timestamp |
| AgendamentoController.AprovarPodeReservarEmDobro | server/src/controllers/agendamentoController.ts:73-79 | re-approving a cancelled booking whose slot was booked again leaves two live bookings at one time |
| AgendamentoController.DadosDaSala | server/src/controllers/agendamentoController.ts:94-107 | 400 iff name, opening time, closing time or block length is missing or falsy; otherwise the body passes on unchanged |
| AgendamentoController.CriarSala | server/src/controllers/agendamentoController.ts:94-110 | 201 with a validly configured, named room, or the error's status; only that room is added |
| AgendamentoController.AtualizarSala | server/src/controllers/agendamentoController.ts:112-118 | 400 without an id, 404 for an unknown room, otherwise the service's update |
| AgendamentoController.ListarTodasAsSalas | server/src/controllers/agendamentoController.ts:89-92 | every stored room, unfiltered |
| Formatacao.FormatarDataCampos | src/utils/formatacao.ts:36-44 | in `FormatarData`, `DD/MM/` hold the two-digit day and the 1-based month, followed by the year |
| Formatacao.FormatarDataInjetiva | src/utils/formatacao.ts:36-44 | two instants show the same date iff same year, month and day |
| Formatacao.RelogioHorario | src/utils/formatacao.ts:24-27 | `Relogio`, the time part, is the server's five-character `HH:MM` label of that minute of the day |
| Formatacao.FormatarDataHoraHorario | src/utils/formatacao.ts:17-28 | `FormatarDataHora` = `FormatarData` + " às " + `HH:MM`, and the `HH:MM` parses back to the minute |
| Formatacao.FormatarDataHoraPartes | src/utils/formatacao.ts:17-28 | the date string is the prefix and the last five characters are the `HH:MM` |
| Formatacao.FormatarDataHoraInjetiva | src/utils/formatacao.ts:17-28 | two instants show the same date-time iff they agree down to the minute |
| Formatacao.ExemploData | tests/formatacao.test.ts:10-13 | 22 January 2025 shows as "22/01/2025" |
| Formatacao.ExemploDataHora | tests/formatacao.test.ts:5-8 | 22 January 2025 16:05 shows as "22/01/2025 às 16:05" |
| Formatacao.EnderecoDecodifica | src/utils/formatacao.ts:52-63 | when street, number and district hold no comma and city and state hold no dash, the first line of `FormatarEndereco` splits at ',' into exactly `logradouro + " n°" + numero` and `" " + bairro`, and the second at '-' into exactly `cidade + " "` and `" " + estado` |
| Formatacao.ExemploEndereco | tests/formatacao.test.ts:15-25 | `FormatarEndereco` of the sample address gives "Rua das Flores n°123, Centro" and "Sao Paulo - SP" |
| Formatacao.SplitMinusculas | src/utils/formatacao.ts:72-74 | lower-casing and then splitting at spaces equals splitting and lower-casing each piece |
| Formatacao.PalavrasCapitalizadas | src/utils/formatacao.ts:71-77 | `CapitalizarPalavras`, which applies `Capitalizar` to each word, keeps the same number of words; each word keeps its length and letters up to case, and comes out capitalised |
| Formatacao.SoMudaACaixa | src/utils/formatacao.ts:71-77 | the result has the text's length and lower-cases to the lower-cased text |
| Formatacao.CapitalizarIdempotente | src/utils/formatacao.ts:71-77 | capitalising twice is capitalising once |
| Formatacao.ExemploCapitalizar | tests/formatacao.test.ts:27-30 | "camila mendes" becomes "Camila Mendes" |

## Left out

- Persistence, queries and the ORM are left out. The tables are an in-memory `Store`. New row ids (UUIDs) are parameters that the caller keeps fresh.
- The `mapAgendamento`/`mapSala` response shaping is left out. That covers client and room names, their fallbacks, ISO rendering, and the `criadoEm`/`atualizadoEm` timestamps.
- Concurrency is left out. The check-then-insert in `criar` is modelled as one atomic step, and nothing is claimed about interleaved requests.
- Date parsing, time zones, seconds and milliseconds are left out:
  - An unreadable date string of `criar` or `listarHorariosDisponiveis` is `None`.
  - Any other date is a day and a minute of the day in server-local time.
  - The conflict query's one-minute window becomes equality of `DataHora`.
  - The day range of `listarHorariosDisponiveis` becomes equality of the day number.
  - `formatarData`/`formatarDataHora` take the UTC calendar fields directly. Reading them from a `Date` or string is not modelled, and the sample strings of tests/formatacao.test.ts are local times. The `ExemploDataHora` string gives "16:05" only in a UTC+0 zone. The `ExemploData` string, local midnight, gives the same date at any offset from UTC-23:59 to UTC+0.
- Horarios.Numero: `Number` is modelled only on "" (0) and runs of ASCII digits. Whitespace, signs, decimals, exponents and hex forms are read as NaN, so such clock strings are refused here where JavaScript might accept them.
- The block length is a whole number. A NaN or fractional `duracaoBloco` is not modelled.
- The `Number(duracaoBloco)` conversion in `criarSala` is not modelled. The required-field check is applied to the converted value. A body string such as "0" therefore fails here as a missing field, while in JavaScript it passes that check and is refused by the validator (also with 400).
- `null` values in patch bodies are not modelled, and neither is a patch rewriting `id`. Patches carry present-or-absent fields only.
- A `listar` status filter outside the four statuses is not modelled.
- An unreadable `dataInicio` or `dataFim` in `listar` is not modelled. `Consulta` and `FiltroAgendamento` take the dates already read, and `None` there means the bound is absent. In the source, such a string becomes an Invalid Date that is still passed to the range query.
- The relative order of bookings with equal timestamps in `listar` is not modelled. The database leaves it unspecified, so only newest-first order and contents are stated.
- Case mapping covers ASCII letters only. Other characters are kept, because Unicode case mapping can change the string length.
- Formatting an invalid `Date` (NaN fields) is not modelled.
- Authentication, the audit-log store and Express routing are not modelled. The log write is the boolean `falhaNoRegistro`, and the caller is `Option<Chamador>`.
- Horarios.GerarHorariosDisponiveis requires a non-negative start and a positive block length. Every caller passes the window `validarConfiguracaoSala` returned, which guarantees both.
- Approve and reject are unguarded overwrites of the status, as the code does. No lifecycle state machine restricting transitions is modelled, and AgendamentoController.AprovarPodeReservarEmDobro shows what that allows.
- AgendamentoService.Store.AtualizarSala and AgendamentoController.AtualizarSala use the corrected revalidation guard (see Findings). The guard as written is AgendamentoService.SalaAtualizadaComoEscrito.

## Findings

| source | as written | input that shows it | evidently intended | confidence | as-written member | corrected member |
|---|---|---|---|---|---|---|
| server/src/services/agendamentoService.ts:275-286 | the merged room is validated only when two of the three scheduling fields are given, or a non-zero block length | update room "08:00"-"18:00" with only `{ horarioInicio: "19:00" }`: stored with start after end | validate the merged configuration whenever any scheduling field changes | not executed | AgendamentoLemas.AtualizarSoInicioComoEscrito | AgendamentoService.SalaAtualizada |
| server/src/services/agendamentoService.ts:279 | a block length of 0 is falsy, so the guard skips validation | update any room with `{ duracaoBloco: 0 }`: stored with block length 0 | refuse a block length of 0 with 400, as `criarSala` does | not executed | AgendamentoLemas.AtualizarDuracaoZeroComoEscrito | AgendamentoService.Store.AtualizarSala |
