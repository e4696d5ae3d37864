/** The HTTP handlers of server/src/controllers/agendamentoController.ts:
    what each one takes from the request and the authenticated user
    before calling the booking service, and which status it answers. */
module AgendamentoController {
  import opened Text
  import opened Models
  import opened AgendamentoService

  /** The authenticated user of a request (`req.user`). */
  datatype Chamador = Chamador(id: Id, role: Role)

  predicate EhCliente(chamador: Option<Chamador>)
  {
    chamador.Some? && chamador.value.role == Cliente
  }

  // ------------------------------------------------------------ listing

  /** The query string of `GET /agendamentos`, dates already read. */
  datatype Consulta = Consulta(
    clienteId: Option<Id>, status: Option<Status>, dataInicio: Option<DataHora>, dataFim: Option<DataHora>)

  /** The filters `listarAgendamentos` passes on: a client's own id
      replaces whatever client id the query names. */
  function FiltroPara(chamador: Option<Chamador>, q: Consulta): (f: FiltroAgendamento)
    ensures EhCliente(chamador) ==> f.clienteId == Some(chamador.value.id)
    ensures !EhCliente(chamador) ==> f.clienteId == q.clienteId
    ensures f.status == q.status && f.dataInicio == q.dataInicio && f.dataFim == q.dataFim
  {
    FiltroAgendamento(
      if EhCliente(chamador) then Some(chamador.value.id) else q.clienteId,
      q.status, q.dataInicio, q.dataFim)
  }

  /** `listarAgendamentos`: a client only ever sees their own bookings,
      whatever the query asks for. */
  function ListarAgendamentos(agendamentos: seq<Agendamento>, chamador: Option<Chamador>, q: Consulta, agora: DataHora)
    : (r: seq<Agendamento>)
    ensures EhCliente(chamador) && chamador.value.id != "" ==>
      forall a :: a in r ==> a.clienteId == chamador.value.id
    ensures forall a :: a in r ==> a in agendamentos
    ensures MaisRecentesPrimeiro(r)
  {
    Listar(agendamentos, FiltroPara(chamador, q), agora)
  }

  /** Every booking of the client that the other filters let through is
      listed for them: the forced filter hides nothing of their own. */
  lemma ClienteVeTodosOsSeus(agendamentos: seq<Agendamento>, c: Chamador, q: Consulta, agora: DataHora, a: Agendamento)
    requires c.role == Cliente
    requires a in agendamentos && a.clienteId == c.id
    requires Atende(a, FiltroAgendamento(None, q.status, q.dataInicio, q.dataFim), agora)
    ensures a in ListarAgendamentos(agendamentos, Some(c), q, agora)
  {
  }

  // ------------------------------------------------------------ lookup

  /** `buscarAgendamento`: 400 without an id, 404 for an unknown one, 403
      when a client asks for somebody else's booking. */
  function BuscarAgendamento(agendamentos: seq<Agendamento>, chamador: Option<Chamador>, id: Id): (r: Result<Agendamento>)
    ensures id == "" <==> r == Err(IdNaoInformado)
    ensures r.Ok? ==> r.value in agendamentos && r.value.id == id
    ensures r.Ok? && EhCliente(chamador) ==> r.value.clienteId == chamador.value.id
    ensures r == Err(AcessoNegado) ==> EhCliente(chamador)
  {
    if id == "" then Err(IdNaoInformado)
    else match BuscarPorId(agendamentos, id)
      case Err(e) => Err(e)
      case Ok(a) =>
        if EhCliente(chamador) && a.clienteId != chamador.value.id then Err(AcessoNegado) else Ok(a)
  }

  /** An admin is never refused a booking that exists. */
  lemma AdminNuncaRecebe403(agendamentos: seq<Agendamento>, chamador: Option<Chamador>, id: Id)
    requires !EhCliente(chamador) && id != ""
    ensures BuscarAgendamento(agendamentos, chamador, id) == BuscarPorId(agendamentos, id)
  {
  }

  /** A client gets a booking exactly when it exists and is theirs. */
  lemma ClienteSoVeOProprio(agendamentos: seq<Agendamento>, c: Chamador, id: Id)
    requires c.role == Cliente && id != ""
    ensures var b := BuscarPorId(agendamentos, id);
      && (BuscarAgendamento(agendamentos, Some(c), id).Ok? <==> b.Ok? && b.value.clienteId == c.id)
      && (BuscarAgendamento(agendamentos, Some(c), id) == Err(AcessoNegado) <==> b.Ok? && b.value.clienteId != c.id)
  {
  }

  // ----------------------------------------------------------- creation

  /** The `dataHora` of a request body: missing or empty, present but not
      a date `new Date` can read, or a timestamp. */
  datatype DataNoCorpo = Ausente | Ilegivel | Em(dataHora: DataHora)

  datatype CorpoAgendamento = CorpoAgendamento(dataHora: DataNoCorpo, clienteId: Id, salaId: Id)

  /** The request `criarAgendamento` hands to the service: a client books
      for themselves, an admin for the client the body names; any of the
      three values missing is 400. */
  function PedidoPara(chamador: Option<Chamador>, corpo: CorpoAgendamento): (r: Result<PedidoAgendamento>)
    ensures var clienteId := if EhCliente(chamador) then chamador.value.id else corpo.clienteId;
      && (r.Err? <==> corpo.dataHora.Ausente? || clienteId == "" || corpo.salaId == "")
      && (r.Err? ==> r.erro == DadosObrigatorios)
      && (r.Ok? ==> r.value.clienteId == clienteId && r.value.salaId == corpo.salaId)
    ensures r.Ok? ==> (r.value.dataHora.None? <==> corpo.dataHora.Ilegivel?)
    ensures r.Ok? && corpo.dataHora.Em? ==> r.value.dataHora == Some(corpo.dataHora.dataHora)
  {
    var clienteId := if EhCliente(chamador) then chamador.value.id else corpo.clienteId;
    if corpo.dataHora.Ausente? || clienteId == "" || corpo.salaId == "" then Err(DadosObrigatorios)
    else Ok(PedidoAgendamento(if corpo.dataHora.Em? then Some(corpo.dataHora.dataHora) else None, clienteId, corpo.salaId))
  }

  /** Whatever client id a client puts in the body, the booking created
      is theirs. */
  lemma ClienteReservaParaSi(chamador: Chamador, corpo: CorpoAgendamento, outro: Id)
    requires chamador.role == Cliente
    ensures PedidoPara(Some(chamador), corpo) == PedidoPara(Some(chamador), corpo.(clienteId := outro))
  {
  }

  /** `criarAgendamento`. `falhaNoRegistro` says whether writing the
      activity log throws; `registrado` whether an entry was written. The
      answer (201 and the booking, or the error's status) does not depend
      on the log. */
  method CriarAgendamento(loja: Store, chamador: Option<Chamador>, corpo: CorpoAgendamento, novoId: Id, falhaNoRegistro: bool)
    returns (codigo: int, r: Result<Agendamento>, registrado: bool)
    requires loja.Valid()
    requires forall i :: 0 <= i < |loja.agendamentos| ==> loja.agendamentos[i].id != novoId
    modifies loja
    ensures loja.Valid()
    ensures var p := PedidoPara(chamador, corpo);
      r == if p.Err? then Err(p.erro)
           else Admissao(old(loja.usuarios), old(loja.salas), old(loja.agendamentos), p.value, novoId)
    ensures codigo == if r.Ok? then 201 else r.erro.Codigo()
    ensures registrado <==> r.Ok? && EhCliente(chamador) && chamador.value.id != "" && !falhaNoRegistro
    ensures loja.agendamentos == if r.Ok? then old(loja.agendamentos) + [r.value] else old(loja.agendamentos)
    ensures loja.usuarios == old(loja.usuarios) && loja.salas == old(loja.salas)
  {
    registrado := false;
    var p := PedidoPara(chamador, corpo);
    if p.Err? {
      return p.erro.Codigo(), Err(p.erro), false;
    }
    r := loja.Criar(p.value, novoId);
    if r.Err? {
      return r.erro.Codigo(), r, false;
    }
    if EhCliente(chamador) && chamador.value.id != "" {
      registrado := !falhaNoRegistro;
    }
    codigo := 201;
  }

  // ------------------------------------------------- approve and reject

  /** The fixed bodies `aprovarAgendamento` and `rejeitarAgendamento`
      send to `atualizar`. */
  const Aprovacao := PatchAgendamento(None, None, None, Some(Agendado))
  const Rejeicao := PatchAgendamento(None, None, None, Some(Cancelado))

  /** `atualizarAgendamento`, `aprovarAgendamento`, `rejeitarAgendamento`:
      400 without an id, otherwise the service's update. */
  method AtualizarAgendamento(loja: Store, id: Id, patch: PatchAgendamento) returns (r: Result<Agendamento>)
    requires loja.Valid()
    modifies loja
    ensures loja.Valid()
    ensures loja.usuarios == old(loja.usuarios) && loja.salas == old(loja.salas)
    ensures id == "" ==> r == Err(IdNaoInformado) && loja.agendamentos == old(loja.agendamentos)
    ensures id != "" ==> match IndiceDe(old(loja.agendamentos), id)
      case None => r == Err(AgendamentoNaoEncontrado) && loja.agendamentos == old(loja.agendamentos)
      case Some(i) =>
        && r == Ok(AplicarPatch(old(loja.agendamentos)[i], patch))
        && loja.agendamentos == old(loja.agendamentos)[i := r.value]
  {
    if id == "" {
      return Err(IdNaoInformado);
    }
    r := loja.Atualizar(id, patch);
  }

  /** Approving or rejecting overwrites the status and nothing else,
      whatever the status was before. */
  lemma SoOStatusMuda(a: Agendamento)
    ensures AplicarPatch(a, Aprovacao) == a.(status := Agendado)
    ensures AplicarPatch(a, Rejeicao) == a.(status := Cancelado)
  {
  }

  /** Rejecting frees a slot and can never create a double booking. */
  lemma RejeitarPreservaSemConflito(agendamentos: seq<Agendamento>, i: nat)
    requires i < |agendamentos| && SemConflito(agendamentos)
    ensures SemConflito(agendamentos[i := AplicarPatch(agendamentos[i], Rejeicao)])
  {
    var r := agendamentos[i := AplicarPatch(agendamentos[i], Rejeicao)];
    forall j, k | 0 <= j < k < |r| && Ativo(r[j]) && Ativo(r[k]) && r[j].salaId == r[k].salaId
      ensures r[j].dataHora != r[k].dataHora
    {
      assert r[j] == agendamentos[j] && r[k] == agendamentos[k];
    }
  }

  /** Approving is not guarded by the current status: re-approving a
      cancelled booking whose slot was booked again leaves two live
      bookings of one room at one time. */
  lemma AprovarPodeReservarEmDobro()
    ensures var dh := DataHora(0, 600);
      var bs := [Agendamento("a1", dh, "c1", "s1", Cancelado), Agendamento("a2", dh, "c2", "s1", Pendente)];
      && SemConflito(bs)
      && !SemConflito(bs[0 := AplicarPatch(bs[0], Aprovacao)])
  {
    var dh := DataHora(0, 600);
    var bs := [Agendamento("a1", dh, "c1", "s1", Cancelado), Agendamento("a2", dh, "c2", "s1", Pendente)];
    var depois := bs[0 := AplicarPatch(bs[0], Aprovacao)];
    assert Ativo(depois[0]) && Ativo(depois[1]);
  }

  // -------------------------------------------------------------- rooms

  /** The body of `POST /salas`; `duracaoBloco` is what `Number` made of
      the field (`None`: the field is missing). */
  datatype CorpoSala = CorpoSala(
    nome: string, horarioInicio: string, horarioFim: string, duracaoBloco: Option<int>, ativa: Option<bool>)

  /** The required-field check of `criarSala`: an empty name or clock
      string, or a missing or zero block length, is 400. */
  function DadosDaSala(corpo: CorpoSala): (r: Result<DadosSala>)
    ensures r.Err? <==>
      corpo.nome == "" || corpo.horarioInicio == "" || corpo.horarioFim == ""
      || corpo.duracaoBloco.None? || corpo.duracaoBloco.value == 0
    ensures r.Err? ==> r.erro == DadosObrigatorios
    ensures r.Ok? ==> r.value == DadosSala(corpo.nome, corpo.horarioInicio, corpo.horarioFim, corpo.duracaoBloco.value, corpo.ativa)
  {
    if corpo.nome == "" || corpo.horarioInicio == "" || corpo.horarioFim == ""
       || corpo.duracaoBloco.None? || corpo.duracaoBloco.value == 0
    then Err(DadosObrigatorios)
    else Ok(DadosSala(corpo.nome, corpo.horarioInicio, corpo.horarioFim, corpo.duracaoBloco.value, corpo.ativa))
  }

  /** `criarSala`: 201 with the new room, which is always one whose
      configuration validates. */
  method CriarSala(loja: Store, corpo: CorpoSala, novoId: Id) returns (codigo: int, r: Result<Sala>)
    requires loja.Valid() && novoId !in loja.salas
    modifies loja
    ensures loja.Valid()
    ensures var d := DadosDaSala(corpo);
      r == if d.Err? then Err(d.erro) else NovaSala(d.value, novoId)
    ensures codigo == if r.Ok? then 201 else r.erro.Codigo()
    ensures r.Ok? ==> ConfiguracaoValida(r.value) && r.value.nome != ""
    ensures loja.salas == if r.Ok? then old(loja.salas)[novoId := r.value] else old(loja.salas)
    ensures loja.usuarios == old(loja.usuarios) && loja.agendamentos == old(loja.agendamentos)
  {
    var d := DadosDaSala(corpo);
    if d.Err? {
      return d.erro.Codigo(), Err(d.erro);
    }
    r := loja.CriarSala(d.value, novoId);
    codigo := if r.Ok? then 201 else r.erro.Codigo();
  }

  /** `atualizarSala` (with the corrected revalidation guard). */
  method AtualizarSala(loja: Store, id: Id, patch: PatchSala) returns (r: Result<Sala>)
    requires loja.Valid()
    modifies loja
    ensures loja.Valid()
    ensures id == "" ==> r == Err(IdNaoInformado) && loja.salas == old(loja.salas)
    ensures id != "" && id !in old(loja.salas) ==> r == Err(SalaNaoEncontrada)
    ensures id != "" && id in old(loja.salas) ==> r == SalaAtualizada(old(loja.salas)[id], patch)
    ensures loja.salas == if r.Ok? then old(loja.salas)[id := r.value] else old(loja.salas)
    ensures loja.usuarios == old(loja.usuarios) && loja.agendamentos == old(loja.agendamentos)
  {
    if id == "" {
      return Err(IdNaoInformado);
    }
    r := loja.AtualizarSala(id, patch);
  }

  /** `listarSalas`: the controller passes no filter. */
  function ListarTodasAsSalas(salas: map<Id, Sala>): (r: set<Sala>)
    ensures r == salas.Values
  {
    ListarSalas(salas, None)
  }
}
