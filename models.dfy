/** The records the booking engine works on (the `Agendamento`, `Sala` and
    `User` tables of server/src/models), the errors it raises (`ApiError`
    with an HTTP status) and the wall-clock timestamp it reads. */
module Models {
  import opened Text

  /** Primary keys are UUID strings; the empty string stands for a missing
      (falsy) id in a request. */
  type Id = string

  /** Minutes since local midnight. */
  type Minuto = m: int | 0 <= m < 1440

  /** A local wall-clock timestamp at minute granularity: a day number
      (days since 1970-01-01) and the minute of that day. */
  datatype DataHora = DataHora(dia: int, minuto: Minuto)

  /** Chronological order on timestamps. */
  predicate NaoDepois(a: DataHora, b: DataHora)
  {
    a.dia < b.dia || (a.dia == b.dia && a.minuto <= b.minuto)
  }

  datatype Role = Admin | Cliente

  /** The columns of `usuarios` this core reads. */
  datatype Usuario = Usuario(nome: string, role: Role, ativo: bool)

  datatype Sala = Sala(
    id: Id,
    nome: string,
    horarioInicio: string,
    horarioFim: string,
    duracaoBloco: int,
    ativa: bool)

  datatype Status = Pendente | Agendado | Cancelado | Concluido

  datatype Agendamento = Agendamento(
    id: Id,
    dataHora: DataHora,
    clienteId: Id,
    salaId: Id,
    status: Status)

  /** The `ApiError`s of the booking routes, one per message. */
  datatype Erro =
    | HorarioSalaInvalido
    | DuracaoBlocoInvalida
    | InicioNaoAntesDoFim
    | DataHoraInvalida
    | DataInvalida
    | ClienteNaoEncontrado
    | ClienteInativo
    | SalaNaoEncontrada
    | SalaInativa
    | HorarioIndisponivel
    | HorarioJaReservado
    | AgendamentoNaoEncontrado
    | DadosObrigatorios
    | IdNaoInformado
    | AcessoNegado
  {
    /** The HTTP status the error is raised with. */
    function Codigo(): int
    {
      match this
      case ClienteNaoEncontrado | SalaNaoEncontrada | AgendamentoNaoEncontrado => 404
      case ClienteInativo | AcessoNegado => 403
      case HorarioJaReservado => 409
      case _ => 400
    }
  }

  datatype Result<T> = Ok(value: T) | Err(erro: Erro)
}
