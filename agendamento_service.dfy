/** The booking service of server/src/services/agendamentoService.ts over
    an in-memory store: admission of a booking (`criar`), free slots of a
    room on a day (`listarHorariosDisponiveis`), filtered listing
    (`listar`), lookup and partial update of a booking, and room creation
    and update. */
module AgendamentoService {
  import opened Text
  import opened Models
  import opened Horarios

  // ------------------------------------------------------------ bookings

  /** A booking that still holds its slot. */
  predicate Ativo(a: Agendamento) { a.status != Cancelado }

  /** The conflict query of `criar`: a non-cancelled booking of the room
      within the same calendar minute. */
  predicate Conflita(agendamentos: seq<Agendamento>, salaId: Id, dataHora: DataHora)
  {
    exists i :: 0 <= i < |agendamentos| && agendamentos[i].salaId == salaId
      && Ativo(agendamentos[i]) && agendamentos[i].dataHora == dataHora
  }

  /** No two non-cancelled bookings of one room share a start minute. */
  ghost predicate SemConflito(agendamentos: seq<Agendamento>)
  {
    forall i, j :: 0 <= i < j < |agendamentos| && Ativo(agendamentos[i]) && Ativo(agendamentos[j])
      && agendamentos[i].salaId == agendamentos[j].salaId
      ==> agendamentos[i].dataHora != agendamentos[j].dataHora
  }

  ghost predicate IdsUnicos(agendamentos: seq<Agendamento>)
  {
    forall i, j :: 0 <= i < j < |agendamentos| ==> agendamentos[i].id != agendamentos[j].id
  }

  /** `validarDataHora`: `None` is a string `new Date` cannot read. */
  function ValidarDataHora(dataHora: Option<DataHora>): (r: Result<DataHora>)
    ensures r.Err? <==> dataHora.None?
    ensures r.Err? ==> r.erro == DataHoraInvalida && r.erro.Codigo() == 400
    ensures r.Ok? ==> r.value == dataHora.value
  {
    if dataHora.None? then Err(DataHoraInvalida) else Ok(dataHora.value)
  }

  /** The body of a booking request, after the controller has picked the
      client id. */
  datatype PedidoAgendamento = PedidoAgendamento(dataHora: Option<DataHora>, clienteId: Id, salaId: Id)

  /** What `criar` decides for a request against the current store: the
      fail-fast chain of checks and, when all pass, the new `pendente`
      booking under the id the database generates. */
  function Admissao(
    usuarios: map<Id, Usuario>, salas: map<Id, Sala>, agendamentos: seq<Agendamento>,
    pedido: PedidoAgendamento, novoId: Id): (r: Result<Agendamento>)
    ensures r.Ok? ==>
      && pedido.dataHora.Some?
      && r.value == Agendamento(novoId, pedido.dataHora.value, pedido.clienteId, pedido.salaId, Pendente)
      && pedido.clienteId in usuarios && usuarios[pedido.clienteId].role == Cliente && usuarios[pedido.clienteId].ativo
      && pedido.salaId in salas && salas[pedido.salaId].ativa
      && ConfiguracaoValida(salas[pedido.salaId])
      && !Conflita(agendamentos, pedido.salaId, r.value.dataHora)
  {
    if pedido.clienteId !in usuarios || usuarios[pedido.clienteId].role != Cliente then Err(ClienteNaoEncontrado)
    else if !usuarios[pedido.clienteId].ativo then Err(ClienteInativo)
    else if pedido.salaId !in salas then Err(SalaNaoEncontrada)
    else if !salas[pedido.salaId].ativa then Err(SalaInativa)
    else
      var data := ValidarDataHora(pedido.dataHora);
      if data.Err? then Err(data.erro)
      else
        var sala := salas[pedido.salaId];
        var janela := ValidarConfiguracaoSala(sala.horarioInicio, sala.horarioFim, sala.duracaoBloco);
        if janela.Err? then Err(janela.erro)
        else Encaixar(agendamentos, sala, janela.value, data.value, pedido, novoId)
  }

  /** The last steps of `criar`, once the room's window is known: the
      requested minute must lie in the window with a whole block after it
      and on the block grid (400), and no live booking may hold it (409). */
  function Encaixar(
    agendamentos: seq<Agendamento>, sala: Sala, janela: Janela, dataHora: DataHora,
    pedido: PedidoAgendamento, novoId: Id): (r: Result<Agendamento>)
    requires sala.duracaoBloco > 0
  {
    var minutos := dataHora.minuto;
    var dentroDoHorario := minutos >= janela.inicioMin && minutos + sala.duracaoBloco <= janela.fimMin;
    var alinhadoNoBloco := (minutos - janela.inicioMin) % sala.duracaoBloco == 0;
    if !dentroDoHorario || !alinhadoNoBloco then Err(HorarioIndisponivel)
    else if Conflita(agendamentos, pedido.salaId, dataHora) then Err(HorarioJaReservado)
    else Ok(Agendamento(novoId, dataHora, pedido.clienteId, pedido.salaId, Pendente))
  }

  /** Partial update of a booking (`agendamento.update(dados)`): the
      fields present in the patch replace the stored ones. */
  datatype PatchAgendamento = PatchAgendamento(
    dataHora: Option<DataHora>, clienteId: Option<Id>, salaId: Option<Id>, status: Option<Status>)

  function AplicarPatch(a: Agendamento, p: PatchAgendamento): (r: Agendamento)
    ensures r.id == a.id
  {
    Agendamento(
      a.id,
      if p.dataHora.Some? then p.dataHora.value else a.dataHora,
      if p.clienteId.Some? then p.clienteId.value else a.clienteId,
      if p.salaId.Some? then p.salaId.value else a.salaId,
      if p.status.Some? then p.status.value else a.status)
  }

  /** `findByPk` on the bookings: the position of the booking with that id. */
  function IndiceDe(agendamentos: seq<Agendamento>, id: Id): (r: Option<nat>)
    ensures r.Some? ==> r.value < |agendamentos| && agendamentos[r.value].id == id
    ensures r.None? ==> forall i :: 0 <= i < |agendamentos| ==> agendamentos[i].id != id
  {
    if agendamentos == [] then None
    else if agendamentos[0].id == id then Some(0)
    else match IndiceDe(agendamentos[1..], id)
      case None => None
      case Some(i) => Some(i + 1)
  }

  /** `buscarPorId`. */
  function BuscarPorId(agendamentos: seq<Agendamento>, id: Id): (r: Result<Agendamento>)
    ensures r.Ok? ==> r.value in agendamentos && r.value.id == id
    ensures r.Err? <==> forall a :: a in agendamentos ==> a.id != id
    ensures r.Err? ==> r.erro == AgendamentoNaoEncontrado
  {
    match IndiceDe(agendamentos, id)
    case None => Err(AgendamentoNaoEncontrado)
    case Some(i) => Ok(agendamentos[i])
  }

  // --------------------------------------------------------- free slots

  /** The `HH:MM` of every non-cancelled booking of the room on that day. */
  function Ocupados(agendamentos: seq<Agendamento>, salaId: Id, dia: int): set<string>
  {
    set a | a in agendamentos && a.salaId == salaId && Ativo(a) && a.dataHora.dia == dia :: FormatarHorario(a.dataHora)
  }

  /** `a` is `b` with some elements left out, order kept. */
  ghost predicate Subsequencia<T>(a: seq<T>, b: seq<T>)
  {
    exists marcas: seq<bool> :: |marcas| == |b| && a == Escolhidos(b, marcas)
  }

  function Escolhidos<T>(b: seq<T>, marcas: seq<bool>): seq<T>
    requires |marcas| == |b|
  {
    if b == [] then [] else (if marcas[0] then [b[0]] else []) + Escolhidos(b[1..], marcas[1..])
  }

  /** The `filter` of `listarHorariosDisponiveis`: the labels not taken. */
  function Livres(horarios: seq<string>, ocupados: set<string>): (r: seq<string>)
    ensures forall h :: h in r <==> h in horarios && h !in ocupados
    ensures r == Escolhidos(horarios, seq(|horarios|, i requires 0 <= i < |horarios| => horarios[i] !in ocupados))
  {
    if horarios == [] then []
    else
      var marcas := seq(|horarios|, i requires 0 <= i < |horarios| => horarios[i] !in ocupados);
      assert marcas[1..] == seq(|horarios| - 1, i requires 0 <= i < |horarios| - 1 => horarios[1..][i] !in ocupados);
      (if horarios[0] !in ocupados then [horarios[0]] else []) + Livres(horarios[1..], ocupados)
  }

  /** What `listarHorariosDisponiveis` answers for a room and a day
      (`None`: a date string `new Date` cannot read). */
  function HorariosLivres(salas: map<Id, Sala>, agendamentos: seq<Agendamento>, salaId: Id, dia: Option<int>): Result<seq<string>>
  {
    if salaId !in salas then Err(SalaNaoEncontrada)
    else if !salas[salaId].ativa then Err(SalaInativa)
    else if dia.None? then Err(DataInvalida)
    else
      var sala := salas[salaId];
      match ValidarConfiguracaoSala(sala.horarioInicio, sala.horarioFim, sala.duracaoBloco)
      case Err(e) => Err(e)
      case Ok(janela) =>
        Ok(Livres(Rotulos(Blocos(janela.inicioMin, janela.fimMin, sala.duracaoBloco)), Ocupados(agendamentos, salaId, dia.value)))
  }

  // ------------------------------------------------------------ listing

  /** The query filters of `listar`; an empty client id is falsy and
      filters nothing. */
  datatype FiltroAgendamento = FiltroAgendamento(
    clienteId: Option<Id>, status: Option<Status>, dataInicio: Option<DataHora>, dataFim: Option<DataHora>)

  /** `new Date('1970-01-01')`, the default lower bound. */
  const Epoca := DataHora(0, 0)

  /** The `where` clause of `listar`; a date range is applied when either
      bound is given, the other defaulting to the epoch or to now. */
  predicate Atende(a: Agendamento, f: FiltroAgendamento, agora: DataHora)
  {
    && (f.clienteId.Some? && f.clienteId.value != "" ==> a.clienteId == f.clienteId.value)
    && (f.status.Some? ==> a.status == f.status.value)
    && (f.dataInicio.Some? || f.dataFim.Some? ==>
          && NaoDepois(if f.dataInicio.Some? then f.dataInicio.value else Epoca, a.dataHora)
          && NaoDepois(a.dataHora, if f.dataFim.Some? then f.dataFim.value else agora))
  }

  function Filtrar(agendamentos: seq<Agendamento>, f: FiltroAgendamento, agora: DataHora): (r: seq<Agendamento>)
    ensures forall a :: a in r <==> a in agendamentos && Atende(a, f, agora)
    ensures forall a :: multiset(r)[a] == if Atende(a, f, agora) then multiset(agendamentos)[a] else 0
  {
    if agendamentos == [] then []
    else
      assert agendamentos == [agendamentos[0]] + agendamentos[1..];
      (if Atende(agendamentos[0], f, agora) then [agendamentos[0]] else []) + Filtrar(agendamentos[1..], f, agora)
  }

  /** Newest first: `order: [['dataHora', 'DESC']]`. */
  ghost predicate MaisRecentesPrimeiro(agendamentos: seq<Agendamento>)
  {
    forall i, j :: 0 <= i < j < |agendamentos| ==> NaoDepois(agendamentos[j].dataHora, agendamentos[i].dataHora)
  }

  /** Putting a booking no older than the head in front keeps the order. */
  lemma {:induction false} NaFrente(a: Agendamento, ordenados: seq<Agendamento>)
    requires MaisRecentesPrimeiro(ordenados)
    requires ordenados != [] ==> NaoDepois(ordenados[0].dataHora, a.dataHora)
    ensures MaisRecentesPrimeiro([a] + ordenados)
  {
    var r := [a] + ordenados;
    forall i, j | 0 <= i < j < |r|
      ensures NaoDepois(r[j].dataHora, r[i].dataHora)
    {
      if i == 0 && j > 1 {
        assert NaoDepois(ordenados[j - 1].dataHora, ordenados[0].dataHora);
      }
    }
  }

  function Inserir(a: Agendamento, ordenados: seq<Agendamento>): (r: seq<Agendamento>)
    requires MaisRecentesPrimeiro(ordenados)
    ensures MaisRecentesPrimeiro(r)
    ensures multiset(r) == multiset(ordenados) + multiset{a}
    ensures r[0] == a || (ordenados != [] && r[0] == ordenados[0])
  {
    if ordenados == [] || NaoDepois(ordenados[0].dataHora, a.dataHora) then
      NaFrente(a, ordenados);
      [a] + ordenados
    else
      assert ordenados == [ordenados[0]] + ordenados[1..];
      var resto := Inserir(a, ordenados[1..]);
      assert ordenados[1..] != [] ==> NaoDepois(ordenados[1].dataHora, ordenados[0].dataHora);
      NaFrente(ordenados[0], resto);
      [ordenados[0]] + resto
  }

  function Ordenar(agendamentos: seq<Agendamento>): (r: seq<Agendamento>)
    ensures MaisRecentesPrimeiro(r)
    ensures multiset(r) == multiset(agendamentos)
  {
    if agendamentos == [] then []
    else
      assert agendamentos == [agendamentos[0]] + agendamentos[1..];
      Inserir(agendamentos[0], Ordenar(agendamentos[1..]))
  }

  /** `listar`: the bookings that satisfy every filter, each as often as
      it is stored, newest first. The clock reading `agora` is the default
      upper bound of a date range given at one end only. */
  function Listar(agendamentos: seq<Agendamento>, f: FiltroAgendamento, agora: DataHora): (r: seq<Agendamento>)
    ensures MaisRecentesPrimeiro(r)
    ensures forall a :: a in r <==> a in agendamentos && Atende(a, f, agora)
    ensures multiset(r) == multiset(Filtrar(agendamentos, f, agora))
  {
    Ordenar(Filtrar(agendamentos, f, agora))
  }

  // -------------------------------------------------------------- rooms

  /** The body of `criarSala`; `ativa` may be left out. */
  datatype DadosSala = DadosSala(nome: string, horarioInicio: string, horarioFim: string, duracaoBloco: int, ativa: Option<bool>)

  /** What `criarSala` stores: the room, validated, active unless told
      otherwise. */
  function NovaSala(dados: DadosSala, novoId: Id): (r: Result<Sala>)
    ensures var v := ValidarConfiguracaoSala(dados.horarioInicio, dados.horarioFim, dados.duracaoBloco);
      && (r.Err? <==> v.Err?)
      && (r.Err? ==> r.erro == v.erro)
    ensures r.Ok? ==>
      && r.value.id == novoId && r.value.nome == dados.nome
      && r.value.horarioInicio == dados.horarioInicio && r.value.horarioFim == dados.horarioFim
      && r.value.duracaoBloco == dados.duracaoBloco
      && r.value.ativa == (dados.ativa != Some(false))
  {
    match ValidarConfiguracaoSala(dados.horarioInicio, dados.horarioFim, dados.duracaoBloco)
    case Err(e) => Err(e)
    case Ok(_) =>
      Ok(Sala(novoId, dados.nome, dados.horarioInicio, dados.horarioFim, dados.duracaoBloco,
              if dados.ativa.Some? then dados.ativa.value else true))
  }

  /** `listarSalas`: every stored room, or only those whose `ativa`
      matches the filter when one is given. */
  function ListarSalas(salas: map<Id, Sala>, ativa: Option<bool>): (r: set<Sala>)
    ensures forall s :: s in r <==> s in salas.Values && (ativa.Some? ==> s.ativa == ativa.value)
  {
    set s | s in salas.Values && (ativa.Some? ==> s.ativa == ativa.value)
  }

  /** The `ativa` filter splits the rooms: the active ones and the inactive
      ones are disjoint and together are every stored room. */
  lemma ListarSalasParticao(salas: map<Id, Sala>)
    ensures ListarSalas(salas, Some(true)) + ListarSalas(salas, Some(false)) == ListarSalas(salas, None)
    ensures ListarSalas(salas, Some(true)) !! ListarSalas(salas, Some(false))
    ensures ListarSalas(salas, None) == salas.Values
  {
  }

  /** A room whose stored opening hours and block length validate. */
  predicate ConfiguracaoValida(s: Sala)
  {
    ValidarConfiguracaoSala(s.horarioInicio, s.horarioFim, s.duracaoBloco).Ok?
  }

  /** The body of `atualizarSala`: any subset of the room's columns. */
  datatype PatchSala = PatchSala(
    nome: Option<string>, horarioInicio: Option<string>, horarioFim: Option<string>,
    duracaoBloco: Option<int>, ativa: Option<bool>)

  /** `sala.update(dados)`. */
  function Mesclar(s: Sala, p: PatchSala): (r: Sala)
    ensures r.id == s.id
  {
    Sala(
      s.id,
      if p.nome.Some? then p.nome.value else s.nome,
      if p.horarioInicio.Some? then p.horarioInicio.value else s.horarioInicio,
      if p.horarioFim.Some? then p.horarioFim.value else s.horarioFim,
      if p.duracaoBloco.Some? then p.duracaoBloco.value else s.duracaoBloco,
      if p.ativa.Some? then p.ativa.value else s.ativa)
  }

  /** JavaScript truthiness of an optional string or number. */
  predicate Preenchido(s: Option<string>) { s.Some? && s.value != "" }
  predicate PreenchidoN(d: Option<int>) { d.Some? && d.value != 0 }

  /** The guard of `atualizarSala` as written: two of the three fields, or
      a non-zero block length. */
  predicate RevalidaComoEscrito(p: PatchSala)
  {
    || (Preenchido(p.horarioInicio) && Preenchido(p.horarioFim))
    || (Preenchido(p.horarioInicio) && PreenchidoN(p.duracaoBloco))
    || (Preenchido(p.horarioFim) && PreenchidoN(p.duracaoBloco))
    || PreenchidoN(p.duracaoBloco)
  }

  /** The guard the room update needs: any of the three fields supplied. */
  predicate Revalida(p: PatchSala)
  {
    p.horarioInicio.Some? || p.horarioFim.Some? || p.duracaoBloco.Some?
  }

  /** `atualizarSala` as written: validation of the merged configuration
      runs only when `RevalidaComoEscrito` holds. */
  function SalaAtualizadaComoEscrito(s: Sala, p: PatchSala): (r: Result<Sala>)
    ensures r.Ok? ==> r.value == Mesclar(s, p)
    ensures !RevalidaComoEscrito(p) ==> r == Ok(Mesclar(s, p))
    ensures r.Err? <==> RevalidaComoEscrito(p) && !ConfiguracaoValida(Mesclar(s, p))
  {
    if RevalidaComoEscrito(p) && !ConfiguracaoValida(Mesclar(s, p)) then
      Err(ValidarConfiguracaoSala(Mesclar(s, p).horarioInicio, Mesclar(s, p).horarioFim, Mesclar(s, p).duracaoBloco).erro)
    else
      Ok(Mesclar(s, p))
  }

  /** `atualizarSala` with the guard corrected: whenever the patch touches
      the opening hours or the block length, the merged configuration is
      validated before it is stored. */
  function SalaAtualizada(s: Sala, p: PatchSala): (r: Result<Sala>)
    ensures r.Ok? ==> r.value == Mesclar(s, p)
    ensures ConfiguracaoValida(s) && r.Ok? ==> ConfiguracaoValida(r.value)
    ensures r.Err? ==> Revalida(p) && !ConfiguracaoValida(Mesclar(s, p))
    ensures !Revalida(p) ==> r == Ok(Mesclar(s, p))
    ensures Revalida(p) ==> (r.Ok? <==> ConfiguracaoValida(Mesclar(s, p)))
  {
    var m := Mesclar(s, p);
    if Revalida(p) then
      match ValidarConfiguracaoSala(m.horarioInicio, m.horarioFim, m.duracaoBloco)
      case Err(e) => Err(e)
      case Ok(_) => Ok(m)
    else
      assert m.horarioInicio == s.horarioInicio && m.horarioFim == s.horarioFim && m.duracaoBloco == s.duracaoBloco;
      Ok(m)
  }

  // -------------------------------------------------------------- store

  /** The three tables the service reads and writes. */
  class Store {
    var usuarios: map<Id, Usuario>
    var salas: map<Id, Sala>
    var agendamentos: seq<Agendamento>

    ghost predicate Valid()
      reads this
    {
      && (forall k :: k in salas ==> salas[k].id == k)
      && IdsUnicos(agendamentos)
    }

    ghost predicate SalasValidas()
      reads this
    {
      forall k :: k in salas ==> ConfiguracaoValida(salas[k])
    }

    constructor (usuarios: map<Id, Usuario>, salas: map<Id, Sala>, agendamentos: seq<Agendamento>)
      requires forall k :: k in salas ==> salas[k].id == k
      requires IdsUnicos(agendamentos)
      ensures Valid()
      ensures this.usuarios == usuarios && this.salas == salas && this.agendamentos == agendamentos
    {
      this.usuarios := usuarios;
      this.salas := salas;
      this.agendamentos := agendamentos;
    }

    /** `criar`. `novoId` is the UUID the database assigns. */
    method Criar(pedido: PedidoAgendamento, novoId: Id) returns (r: Result<Agendamento>)
      requires Valid()
      requires forall i :: 0 <= i < |agendamentos| ==> agendamentos[i].id != novoId
      modifies this
      ensures Valid()
      ensures r == Admissao(old(usuarios), old(salas), old(agendamentos), pedido, novoId)
      ensures agendamentos == if r.Ok? then old(agendamentos) + [r.value] else old(agendamentos)
      ensures usuarios == old(usuarios) && salas == old(salas)
    {
      r := Admissao(usuarios, salas, agendamentos, pedido, novoId);
      if r.Ok? {
        agendamentos := agendamentos + [r.value];
      }
    }

    /** `atualizar`: overwrite the fields the patch carries, whatever the
        booking's current status. */
    method Atualizar(id: Id, patch: PatchAgendamento) returns (r: Result<Agendamento>)
      requires Valid()
      modifies this
      ensures Valid()
      ensures usuarios == old(usuarios) && salas == old(salas)
      ensures match IndiceDe(old(agendamentos), id)
        case None => r == Err(AgendamentoNaoEncontrado) && agendamentos == old(agendamentos)
        case Some(i) =>
          && r == Ok(AplicarPatch(old(agendamentos)[i], patch))
          && agendamentos == old(agendamentos)[i := r.value]
          && (forall j :: 0 <= j < |old(agendamentos)| && j != i ==> old(agendamentos)[j].id != id)
    {
      var i := IndiceDe(agendamentos, id);
      if i.None? {
        return Err(AgendamentoNaoEncontrado);
      }
      var atualizado := AplicarPatch(agendamentos[i.value], patch);
      agendamentos := agendamentos[i.value := atualizado];
      r := Ok(atualizado);
    }

    /** `listarHorariosDisponiveis`. */
    method ListarHorariosDisponiveis(salaId: Id, dia: Option<int>) returns (r: Result<seq<string>>)
      ensures r == HorariosLivres(salas, agendamentos, salaId, dia)
    {
      if salaId !in salas {
        return Err(SalaNaoEncontrada);
      }
      var sala := salas[salaId];
      if !sala.ativa {
        return Err(SalaInativa);
      }
      if dia.None? {
        return Err(DataInvalida);
      }
      var janela := ValidarConfiguracaoSala(sala.horarioInicio, sala.horarioFim, sala.duracaoBloco);
      if janela.Err? {
        return Err(janela.erro);
      }
      var ocupados := Ocupados(agendamentos, salaId, dia.value);
      var horarios := GerarHorariosDisponiveis(janela.value.inicioMin, janela.value.fimMin, sala.duracaoBloco);
      r := Ok(Livres(horarios, ocupados));
    }

    /** `criarSala`. `novoId` is the UUID the database assigns. */
    method CriarSala(dados: DadosSala, novoId: Id) returns (r: Result<Sala>)
      requires Valid() && novoId !in salas
      modifies this
      ensures Valid()
      ensures r == NovaSala(dados, novoId)
      ensures salas == if r.Ok? then old(salas)[novoId := r.value] else old(salas)
      ensures old(SalasValidas()) ==> SalasValidas()
      ensures usuarios == old(usuarios) && agendamentos == old(agendamentos)
    {
      r := NovaSala(dados, novoId);
      if r.Ok? {
        salas := salas[novoId := r.value];
      }
    }

    /** `atualizarSala`, with the revalidation guard corrected (see
        `SalaAtualizadaComoEscrito` for the guard as written). */
    method AtualizarSala(id: Id, patch: PatchSala) returns (r: Result<Sala>)
      requires Valid()
      modifies this
      ensures Valid()
      ensures id !in old(salas) ==> r == Err(SalaNaoEncontrada) && salas == old(salas)
      ensures id in old(salas) ==> r == SalaAtualizada(old(salas)[id], patch)
      ensures r.Ok? ==> r.value.id == id
      ensures salas == if r.Ok? then old(salas)[id := r.value] else old(salas)
      ensures old(SalasValidas()) ==> SalasValidas()
      ensures usuarios == old(usuarios) && agendamentos == old(agendamentos)
    {
      if id !in salas {
        return Err(SalaNaoEncontrada);
      }
      r := SalaAtualizada(salas[id], patch);
      if r.Ok? {
        salas := salas[id := r.value];
      }
    }
  }
}
