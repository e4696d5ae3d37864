/** What the booking service guarantees, stated over the decision
    functions of `AgendamentoService`. */
module AgendamentoLemas {
  import opened Text
  import opened Models
  import opened Horarios
  import opened AgendamentoService

  /** A user `criar` accepts as the booking's client. */
  predicate ClienteApto(usuarios: map<Id, Usuario>, id: Id)
  {
    id in usuarios && usuarios[id].role == Cliente && usuarios[id].ativo
  }

  /** A room `criar` and `listarHorariosDisponiveis` accept. */
  predicate SalaApta(salas: map<Id, Sala>, id: Id)
  {
    id in salas && salas[id].ativa
  }

  /** The fail-fast order of `criar`: a missing (or non-client) user is
      404, an inactive one 403, a missing room 404, an inactive room 400,
      an unreadable date 400, then the room's own configuration error. */
  lemma AdmissaoOrdemDosErros(
    usuarios: map<Id, Usuario>, salas: map<Id, Sala>, agendamentos: seq<Agendamento>,
    pedido: PedidoAgendamento, novoId: Id)
    ensures var r := Admissao(usuarios, salas, agendamentos, pedido, novoId);
      && (r == Err(ClienteNaoEncontrado) <==>
            pedido.clienteId !in usuarios || usuarios[pedido.clienteId].role != Cliente)
      && (r == Err(ClienteInativo) <==>
            pedido.clienteId in usuarios && usuarios[pedido.clienteId].role == Cliente && !usuarios[pedido.clienteId].ativo)
      && (r == Err(SalaNaoEncontrada) <==> ClienteApto(usuarios, pedido.clienteId) && pedido.salaId !in salas)
      && (r == Err(SalaInativa) <==>
            ClienteApto(usuarios, pedido.clienteId) && pedido.salaId in salas && !salas[pedido.salaId].ativa)
      && (r == Err(DataHoraInvalida) <==>
            ClienteApto(usuarios, pedido.clienteId) && SalaApta(salas, pedido.salaId) && pedido.dataHora.None?)
      && (ClienteApto(usuarios, pedido.clienteId) && SalaApta(salas, pedido.salaId) && pedido.dataHora.Some?
          && !ConfiguracaoValida(salas[pedido.salaId]) ==>
            var s := salas[pedido.salaId];
            r == Err(ValidarConfiguracaoSala(s.horarioInicio, s.horarioFim, s.duracaoBloco).erro))
  {
  }

  /** Past the identity, room and date checks, a request is accepted
      exactly when its minute is one of the room's slot starts and no
      non-cancelled booking holds it; off-grid times are 400 and taken
      slots 409. */
  lemma AdmissaoNaGrade(
    usuarios: map<Id, Usuario>, salas: map<Id, Sala>, agendamentos: seq<Agendamento>,
    pedido: PedidoAgendamento, novoId: Id)
    requires ClienteApto(usuarios, pedido.clienteId) && SalaApta(salas, pedido.salaId)
    requires pedido.dataHora.Some? && ConfiguracaoValida(salas[pedido.salaId])
    ensures var s := salas[pedido.salaId];
      var j := ValidarConfiguracaoSala(s.horarioInicio, s.horarioFim, s.duracaoBloco).value;
      var m := pedido.dataHora.value.minuto;
      var r := Admissao(usuarios, salas, agendamentos, pedido, novoId);
      var conflito := Conflita(agendamentos, pedido.salaId, pedido.dataHora.value);
      && (r.Ok? <==> m in Blocos(j.inicioMin, j.fimMin, s.duracaoBloco) && !conflito)
      && (r == Err(HorarioIndisponivel) <==> m !in Blocos(j.inicioMin, j.fimMin, s.duracaoBloco))
      && (r == Err(HorarioJaReservado) <==> m in Blocos(j.inicioMin, j.fimMin, s.duracaoBloco) && conflito)
  {
    var s := salas[pedido.salaId];
    var j := ValidarConfiguracaoSala(s.horarioInicio, s.horarioFim, s.duracaoBloco).value;
    AdmissaoNoPassoFinal(usuarios, salas, agendamentos, pedido, novoId);
    EncaixarNaGrade(agendamentos, s, j, pedido.dataHora.value, pedido, novoId);
  }

  /** The window and alignment tests accept exactly the slot starts. */
  lemma EncaixarNaGrade(
    agendamentos: seq<Agendamento>, s: Sala, j: Janela, d: DataHora, pedido: PedidoAgendamento, novoId: Id)
    requires s.duracaoBloco > 0 && 0 <= j.inicioMin
    ensures var r := Encaixar(agendamentos, s, j, d, pedido, novoId);
      var conflito := Conflita(agendamentos, pedido.salaId, d);
      && (r.Ok? <==> d.minuto in Blocos(j.inicioMin, j.fimMin, s.duracaoBloco) && !conflito)
      && (r == Err(HorarioIndisponivel) <==> d.minuto !in Blocos(j.inicioMin, j.fimMin, s.duracaoBloco))
      && (r == Err(HorarioJaReservado) <==> d.minuto in Blocos(j.inicioMin, j.fimMin, s.duracaoBloco) && conflito)
  {
    MembroDosBlocos(j.inicioMin, j.fimMin, s.duracaoBloco, d.minuto);
  }

  /** Past the identity, room, date and configuration checks only the
      window, alignment and conflict tests of `criar` remain. */
  lemma AdmissaoNoPassoFinal(
    usuarios: map<Id, Usuario>, salas: map<Id, Sala>, agendamentos: seq<Agendamento>,
    pedido: PedidoAgendamento, novoId: Id)
    requires ClienteApto(usuarios, pedido.clienteId) && SalaApta(salas, pedido.salaId)
    requires pedido.dataHora.Some? && ConfiguracaoValida(salas[pedido.salaId])
    ensures var s := salas[pedido.salaId];
      var j := ValidarConfiguracaoSala(s.horarioInicio, s.horarioFim, s.duracaoBloco).value;
      var d := pedido.dataHora.value;
      Admissao(usuarios, salas, agendamentos, pedido, novoId) == Encaixar(agendamentos, s, j, d, pedido, novoId)
  {
  }

  /** An admitted booking never collides with a live booking already
      stored, so a store built by `criar` alone keeps at most one live
      booking per room and minute. */
  lemma AdmissaoPreservaSemConflito(
    usuarios: map<Id, Usuario>, salas: map<Id, Sala>, agendamentos: seq<Agendamento>,
    pedido: PedidoAgendamento, novoId: Id)
    requires SemConflito(agendamentos)
    requires Admissao(usuarios, salas, agendamentos, pedido, novoId).Ok?
    ensures SemConflito(agendamentos + [Admissao(usuarios, salas, agendamentos, pedido, novoId).value])
  {
    var a := Admissao(usuarios, salas, agendamentos, pedido, novoId).value;
    var r := agendamentos + [a];
    forall i, j | 0 <= i < j < |r| && Ativo(r[i]) && Ativo(r[j]) && r[i].salaId == r[j].salaId
      ensures r[i].dataHora != r[j].dataHora
    {
      assert r[i] == agendamentos[i];
      if j < |agendamentos| {
        assert r[j] == agendamentos[j];
      }
    }
  }

  /** Sending the same accepted request again is refused with 409. */
  lemma AdmissaoRepetida(
    usuarios: map<Id, Usuario>, salas: map<Id, Sala>, agendamentos: seq<Agendamento>,
    pedido: PedidoAgendamento, novoId: Id, outroId: Id)
    requires Admissao(usuarios, salas, agendamentos, pedido, novoId).Ok?
    ensures var a := Admissao(usuarios, salas, agendamentos, pedido, novoId).value;
      Admissao(usuarios, salas, agendamentos + [a], pedido, outroId) == Err(HorarioJaReservado)
  {
    var a := Admissao(usuarios, salas, agendamentos, pedido, novoId).value;
    var r := agendamentos + [a];
    assert r[|agendamentos|] == a;
    assert Conflita(r, pedido.salaId, pedido.dataHora.value);
  }

  /** `HH:MM` of a booking of the room that day is taken exactly when a
      live booking of the room starts at that very timestamp. */
  lemma OcupadoSeConflita(agendamentos: seq<Agendamento>, salaId: Id, d: DataHora)
    ensures FormatarHorario(d) in Ocupados(agendamentos, salaId, d.dia) <==> Conflita(agendamentos, salaId, d)
  {
    if FormatarHorario(d) in Ocupados(agendamentos, salaId, d.dia) {
      var a :| a in agendamentos && a.salaId == salaId && Ativo(a) && a.dataHora.dia == d.dia
        && FormatarHorario(a.dataHora) == FormatarHorario(d);
      FormatarHorarioInjetivo(a.dataHora, d);
      var i :| 0 <= i < |agendamentos| && agendamentos[i] == a;
      assert agendamentos[i].dataHora == d;
    }
    if Conflita(agendamentos, salaId, d) {
      var i :| 0 <= i < |agendamentos| && agendamentos[i].salaId == salaId
        && Ativo(agendamentos[i]) && agendamentos[i].dataHora == d;
      assert agendamentos[i] in agendamentos;
    }
  }

  /** The free-slot list and the admission check agree: for an active
      client, a timestamp is accepted by `criar` exactly when
      `listarHorariosDisponiveis` offers its `HH:MM` for that room and day. */
  lemma LivreSeESoSeAdmitido(
    usuarios: map<Id, Usuario>, salas: map<Id, Sala>, agendamentos: seq<Agendamento>,
    pedido: PedidoAgendamento, novoId: Id)
    requires ClienteApto(usuarios, pedido.clienteId) && pedido.dataHora.Some?
    ensures var d := pedido.dataHora.value;
      var livres := HorariosLivres(salas, agendamentos, pedido.salaId, Some(d.dia));
      Admissao(usuarios, salas, agendamentos, pedido, novoId).Ok? <==>
        livres.Ok? && FormatarHorario(d) in livres.value
  {
    if SalaApta(salas, pedido.salaId) && ConfiguracaoValida(salas[pedido.salaId]) {
      var d := pedido.dataHora.value;
      var s := salas[pedido.salaId];
      var j := ValidarConfiguracaoSala(s.horarioInicio, s.horarioFim, s.duracaoBloco).value;
      var grade := Blocos(j.inicioMin, j.fimMin, s.duracaoBloco);
      AdmissaoNaGrade(usuarios, salas, agendamentos, pedido, novoId);
      RotuloPertence(grade, d.minuto);
      OcupadoSeConflita(agendamentos, pedido.salaId, d);
    }
  }

  /** The free slots come in the order the generator yields them: a
      subsequence of the room's slot labels. */
  lemma LivresEmOrdem(salas: map<Id, Sala>, agendamentos: seq<Agendamento>, salaId: Id, dia: Option<int>)
    requires HorariosLivres(salas, agendamentos, salaId, dia).Ok?
    ensures var s := salas[salaId];
      var j := ValidarConfiguracaoSala(s.horarioInicio, s.horarioFim, s.duracaoBloco);
      && j.Ok?
      && Subsequencia(HorariosLivres(salas, agendamentos, salaId, dia).value, Rotulos(Blocos(j.value.inicioMin, j.value.fimMin, s.duracaoBloco)))
  {
    var s := salas[salaId];
    var j := ValidarConfiguracaoSala(s.horarioInicio, s.horarioFim, s.duracaoBloco).value;
    var hs := Rotulos(Blocos(j.inicioMin, j.fimMin, s.duracaoBloco));
    var ocupados := Ocupados(agendamentos, salaId, dia.value);
    var marcas := seq(|hs|, i requires 0 <= i < |hs| => hs[i] !in ocupados);
    assert HorariosLivres(salas, agendamentos, salaId, dia).value == Escolhidos(hs, marcas);
  }

  // ------------------------------------------------ a concrete room

  const Camila := Usuario("Camila Mendes", Cliente, true)
  const Sala1 := Sala("s1", "Sala 1", "08:00", "18:00", 30, true)

  lemma Le0800()
    ensures ParseHorarioParaMinutos("08:00") == Some(480)
  {
    Rotulo0800();
    ParseFormatarMinutos(480);
  }

  lemma Le1800()
    ensures ParseHorarioParaMinutos("18:00") == Some(1080)
  {
    FormatarMinutosDigitos(1080);
    assert FormatarMinutos(1080) == "18:00";
    ParseFormatarMinutos(1080);
  }

  lemma JanelaDaSala1()
    ensures ValidarConfiguracaoSala(Sala1.horarioInicio, Sala1.horarioFim, Sala1.duracaoBloco) == Ok(Janela(480, 1080))
  {
    Le0800();
    Le1800();
  }

  /** In a room open 08:00-18:00 in 30-minute blocks, 08:10 is refused
      as off the grid, while 17:30 (the last block) is accepted. */
  lemma GradeDaSala1(dia: int)
    ensures var u, s := map["c" := Camila], map["s1" := Sala1];
      && Admissao(u, s, [], PedidoAgendamento(Some(DataHora(dia, 490)), "c", "s1"), "a1") == Err(HorarioIndisponivel)
      && Admissao(u, s, [], PedidoAgendamento(Some(DataHora(dia, 1050)), "c", "s1"), "a1").Ok?
      && Admissao(u, s, [], PedidoAgendamento(Some(DataHora(dia, 1080)), "c", "s1"), "a1") == Err(HorarioIndisponivel)
  {
    JanelaDaSala1();
    assert !Conflita([], "s1", DataHora(dia, 1050));
  }

  // ---------------------------------------------- updating a room

  lemma Le1900()
    ensures ParseHorarioParaMinutos("19:00") == Some(1140)
  {
    FormatarMinutosDigitos(1140);
    assert FormatarMinutos(1140) == "19:00";
    ParseFormatarMinutos(1140);
  }

  /** As written, moving only the opening time of the 08:00-18:00 room to
      19:00 skips validation and stores a room whose window is empty;
      with the guard corrected the same update is refused with 400. */
  lemma AtualizarSoInicioComoEscrito()
    ensures ConfiguracaoValida(Sala1)
    ensures var p := PatchSala(None, Some("19:00"), None, None, None);
      && SalaAtualizadaComoEscrito(Sala1, p).Ok?
      && !ConfiguracaoValida(SalaAtualizadaComoEscrito(Sala1, p).value)
      && SalaAtualizada(Sala1, p) == Err(InicioNaoAntesDoFim)
  {
    JanelaDaSala1();
    Le1900();
    Le1800();
  }

  /** As written, a block length of 0 is falsy, so it is stored without
      validation; with the guard corrected it is refused with 400. */
  lemma AtualizarDuracaoZeroComoEscrito()
    ensures var p := PatchSala(None, None, None, Some(0), None);
      && SalaAtualizadaComoEscrito(Sala1, p) == Ok(Sala1.(duracaoBloco := 0))
      && !ConfiguracaoValida(Sala1.(duracaoBloco := 0))
      && SalaAtualizada(Sala1, p) == Err(DuracaoBlocoInvalida)
  {
    Le0800();
    Le1800();
  }

  /** The corrected guard only adds validation where the written one
      missed it: whenever the written guard fires, or no scheduling field
      is touched, both versions give the same answer. */
  lemma CorrecaoSoNosCasosOmitidos(s: Sala, p: PatchSala)
    requires RevalidaComoEscrito(p) || !Revalida(p)
    ensures SalaAtualizada(s, p) == SalaAtualizadaComoEscrito(s, p)
  {
  }
}
