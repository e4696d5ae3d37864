/** The time-of-day helpers of server/src/services/agendamentoService.ts:
    parsing `HH:MM`, rendering minutes as `HH:MM`, validating a room's
    opening hours and block length, and generating a day's slots. */
module Horarios {
  import opened Text
  import opened Models

  /** `Number(str)` on the strings a clock field is split into: the empty
      string is 0 (so `"08:"` reads as 08:00), a run of ASCII digits is its
      decimal value, anything else is NaN (`None`). */
  function Numero(s: string): Option<nat>
  {
    if AllDigits(s) then Some(DigitsValue(s)) else None
  }

  /** `parseHorarioParaMinutos`: split on ':' and read the first two pieces
      as hour and minute. */
  function ParseHorarioParaMinutos(horario: string): (r: Option<int>)
    ensures r.Some? ==> 0 <= r.value <= 23 * 60 + 59
  {
    HoraEMinuto(Split(horario, ':'))
  }

  /** The pieces of a split clock string read as hour and minute; a missing
      minute piece is `undefined`, i.e. NaN. */
  function HoraEMinuto(partes: seq<string>): (r: Option<int>)
    requires |partes| >= 1
    ensures r.Some? ==> 0 <= r.value <= 23 * 60 + 59
  {
    var hora := Numero(partes[0]);
    var minuto := if |partes| >= 2 then Numero(partes[1]) else None;
    if hora.None? || minuto.None? then None
    else if hora.value > 23 || minuto.value > 59 then None
    else Some(hora.value * 60 + minuto.value)
  }

  /** A minute count rendered as zero-padded hours, ':', zero-padded
      minutes, the way both `formatarHorario` and the slot generator do. */
  function FormatarMinutos(m: nat): string
  {
    Pad2(NatToString(m / 60)) + ":" + Pad2(NatToString(m % 60))
  }

  /** Below 100 hours the rendering is `HH:MM`: two digit fields holding
      the hours and the minutes past the hour, around a colon. */
  lemma FormatarMinutosCampos(m: nat)
    requires m < 100 * 60
    ensures var r := FormatarMinutos(m);
      && |r| == 5 && r[2] == ':'
      && AllDigits(r[..2]) && DigitsValue(r[..2]) == m / 60
      && AllDigits(r[3..]) && DigitsValue(r[3..]) == m % 60
  {
    var horas := Pad2(NatToString(m / 60));
    var minutos := Pad2(NatToString(m % 60));
    TwoDigitField(m / 60);
    TwoDigitField(m % 60);
    assert (horas + ":" + minutos)[..2] == horas;
    assert (horas + ":" + minutos)[3..] == minutos;
  }

  lemma FormatarMinutosDigitos(m: nat)
    requires m < 100 * 60
    ensures FormatarMinutos(m) ==
      [DigitChar(m / 60 / 10), DigitChar(m / 60 % 10), ':', DigitChar(m % 60 / 10), DigitChar(m % 60 % 10)]
  {
    TwoDigitField(m / 60);
    TwoDigitField(m % 60);
  }

  /** `formatarHorario`: the local `HH:MM` of a timestamp. */
  function FormatarHorario(d: DataHora): string
  {
    FormatarMinutos(d.minuto)
  }

  /** A clock string made of two digit fields parses to hour*60+minute
      exactly when the hour is at most 23 and the minute at most 59. */
  lemma ParseDigitFields(hh: string, mm: string)
    requires AllDigits(hh) && AllDigits(mm)
    ensures ParseHorarioParaMinutos(hh + ":" + mm) ==
      if DigitsValue(hh) <= 23 && DigitsValue(mm) <= 59
      then Some(DigitsValue(hh) * 60 + DigitsValue(mm)) else None
  {
    assert ':' !in hh && ':' !in mm by {
      assert forall i :: 0 <= i < |hh| ==> hh[i] != ':';
      assert forall i :: 0 <= i < |mm| ==> mm[i] != ':';
    }
    SplitAtSeparator(hh, mm, ':');
    SplitWithoutSeparator(mm, ':');
    assert Split(hh + ":" + mm, ':') == [hh, mm];
    assert ParseHorarioParaMinutos(hh + ":" + mm) == HoraEMinuto([hh, mm]);
    assert Numero(hh) == Some(DigitsValue(hh)) && Numero(mm) == Some(DigitsValue(mm));
    LerCampos(hh, mm);
  }

  lemma LerCampos(hh: string, mm: string)
    requires AllDigits(hh) && AllDigits(mm)
    ensures HoraEMinuto([hh, mm]) ==
      if DigitsValue(hh) <= 23 && DigitsValue(mm) <= 59
      then Some(DigitsValue(hh) * 60 + DigitsValue(mm)) else None
  {
  }

  /** Every minute of the day survives rendering and parsing back. */
  lemma ParseFormatarMinutos(m: Minuto)
    ensures ParseHorarioParaMinutos(FormatarMinutos(m)) == Some(m)
  {
    var r := FormatarMinutos(m);
    FormatarMinutosCampos(m);
    assert r == r[..2] + ":" + r[3..];
    ParseDigitFields(r[..2], r[3..]);
  }

  /** Two timestamps show the same `HH:MM` iff they fall in the same minute
      of the day. */
  lemma FormatarHorarioInjetivo(a: DataHora, b: DataHora)
    ensures FormatarHorario(a) == FormatarHorario(b) <==> a.minuto == b.minuto
  {
    ParseFormatarMinutos(a.minuto);
    ParseFormatarMinutos(b.minuto);
  }

  /** `Number("")` is 0, so a clock string with an empty minute piece is
      read as a whole hour. */
  lemma ParseMinutoVazio()
    ensures ParseHorarioParaMinutos("08:") == Some(480)
  {
    assert "08:" == "08" + ":" + "";
    ParseDigitFields("08", "");
  }

  /** Pieces after the second are ignored: whatever follows the minute
      field after a second colon (seconds, or more pieces) changes
      nothing. */
  lemma SegundosIgnorados(hh: string, mm: string, resto: string)
    requires ':' !in hh && ':' !in mm
    ensures ParseHorarioParaMinutos(hh + ":" + mm + ":" + resto) == ParseHorarioParaMinutos(hh + ":" + mm)
  {
    var longo := Split(hh + ":" + mm + ":" + resto, ':');
    assert hh + ":" + mm + ":" + resto == hh + [':'] + (mm + [':'] + resto);
    SplitAtSeparator(hh, mm + [':'] + resto, ':');
    SplitAtSeparator(mm, resto, ':');
    assert longo[0] == hh && longo[1] == mm;
    assert hh + ":" + mm == hh + [':'] + mm;
    SplitAtSeparator(hh, mm, ':');
    SplitWithoutSeparator(mm, ':');
    assert HoraEMinuto(longo) == HoraEMinuto([hh, mm]);
  }

  /** Without a colon the minute piece is `undefined`, and the parse
      fails. */
  lemma ParseSemDoisPontos(s: string)
    requires ':' !in s
    ensures ParseHorarioParaMinutos(s) == None
  {
    SplitWithoutSeparator(s, ':');
  }

  /** The validated opening window of a room, in minutes since midnight. */
  datatype Janela = Janela(inicioMin: int, fimMin: int)

  /** `validarConfiguracaoSala`: bad clock strings first, then a block
      length that is not positive, then a window that is empty. */
  function ValidarConfiguracaoSala(horarioInicio: string, horarioFim: string, duracaoBloco: int): (r: Result<Janela>)
    ensures var i, f := ParseHorarioParaMinutos(horarioInicio), ParseHorarioParaMinutos(horarioFim);
      && (r == Err(HorarioSalaInvalido) <==> i.None? || f.None?)
      && (r == Err(DuracaoBlocoInvalida) <==> i.Some? && f.Some? && duracaoBloco <= 0)
      && (r == Err(InicioNaoAntesDoFim) <==> i.Some? && f.Some? && duracaoBloco > 0 && i.value >= f.value)
      && (r.Ok? <==> i.Some? && f.Some? && duracaoBloco > 0 && i.value < f.value)
      && (r.Ok? ==> r.value == Janela(i.value, f.value))
    ensures r.Ok? ==> 0 <= r.value.inicioMin < r.value.fimMin <= 1439
  {
    var inicioMin := ParseHorarioParaMinutos(horarioInicio);
    var fimMin := ParseHorarioParaMinutos(horarioFim);
    if inicioMin.None? || fimMin.None? then Err(HorarioSalaInvalido)
    else if duracaoBloco <= 0 then Err(DuracaoBlocoInvalida)
    else if inicioMin.value >= fimMin.value then Err(InicioNaoAntesDoFim)
    else Ok(Janela(inicioMin.value, fimMin.value))
  }

  /** The slot starts `gerarHorariosDisponiveis` walks through from `atual`:
      whole blocks of `duracaoBloco` minutes that end by `fimMin`. */
  function Blocos(atual: nat, fimMin: int, duracaoBloco: int): (r: seq<nat>)
    requires duracaoBloco > 0
    ensures r == [] <==> atual + duracaoBloco > fimMin
    ensures r != [] ==> r[0] == atual
    ensures forall k :: 0 <= k < |r| ==> atual <= r[k] && r[k] + duracaoBloco <= fimMin
    decreases fimMin - atual
  {
    if atual + duracaoBloco <= fimMin then [atual] + Blocos(atual + duracaoBloco, fimMin, duracaoBloco) else []
  }

  /** The rendered slot list. */
  function Rotulos(ms: seq<nat>): (r: seq<string>)
  {
    Map(FormatarMinutos, ms)
  }

  lemma RotuloK(ms: seq<nat>, k: nat)
    requires k < |ms|
    ensures |Rotulos(ms)| == |ms| && Rotulos(ms)[k] == FormatarMinutos(ms[k])
  {
    MapAt(FormatarMinutos, ms, k);
  }

  /** A minute's label is among the labels of minutes of the day exactly
      when the minute itself is among them. */
  lemma RotuloPertence(ms: seq<nat>, m: Minuto)
    requires forall k :: 0 <= k < |ms| ==> ms[k] < 1440
    ensures FormatarMinutos(m) in Rotulos(ms) <==> m in ms
  {
    if m in ms {
      var k :| 0 <= k < |ms| && ms[k] == m;
      RotuloK(ms, k);
    }
    if FormatarMinutos(m) in Rotulos(ms) {
      var k :| 0 <= k < |ms| && Rotulos(ms)[k] == FormatarMinutos(m);
      RotuloK(ms, k);
      ParseFormatarMinutos(m);
      ParseFormatarMinutos(ms[k]);
    }
  }

  /** Within a validated window every generated label reads back, through
      `parseHorarioParaMinutos`, as the minute it was rendered from. */
  lemma RotulosLidosDeVolta(inicioMin: nat, fimMin: int, duracaoBloco: int, k: nat)
    requires duracaoBloco > 0 && fimMin <= 23 * 60 + 59
    requires k < |Blocos(inicioMin, fimMin, duracaoBloco)|
    ensures var b := Blocos(inicioMin, fimMin, duracaoBloco);
      ParseHorarioParaMinutos(Rotulos(b)[k]) == Some(b[k])
  {
    var b := Blocos(inicioMin, fimMin, duracaoBloco);
    RotuloK(b, k);
    ParseFormatarMinutos(b[k]);
  }

  /** One step of the generator: the first label, then the rest. */
  lemma PrimeiroRotulo(atual: nat, fimMin: int, duracaoBloco: int)
    requires 0 <= atual && 0 < duracaoBloco && atual + duracaoBloco <= fimMin
    ensures Rotulos(Blocos(atual, fimMin, duracaoBloco)) ==
      [FormatarMinutos(atual)] + Rotulos(Blocos(atual + duracaoBloco, fimMin, duracaoBloco))
  {
    var resto := Blocos(atual + duracaoBloco, fimMin, duracaoBloco);
    assert Blocos(atual, fimMin, duracaoBloco) == [atual] + resto;
    assert ([atual] + resto)[1..] == resto;
  }

  lemma AnexarUm<T>(a: seq<T>, x: T, c: seq<T>)
    ensures (a + [x]) + c == a + ([x] + c)
  {
  }

  /** One turn of the generator's loop: moving the first label still to
      come to the end of the labels produced keeps their concatenation. */
  lemma PassoDoGerador<T>(feitos: seq<T>, faltam: seq<T>, todos: seq<T>, x: T, resto: seq<T>)
    requires feitos + faltam == todos && faltam == [x] + resto
    ensures (feitos + [x]) + resto == todos
  {
    AnexarUm(feitos, x, resto);
  }

  /** `gerarHorariosDisponiveis`. Only ever called with the window
      `validarConfiguracaoSala` returned, so the start is a minute of the
      day and the block length is positive. */
  method GerarHorariosDisponiveis(inicioMin: int, fimMin: int, duracaoBloco: int) returns (horarios: seq<string>)
    requires 0 <= inicioMin && 0 < duracaoBloco
    ensures horarios == Rotulos(Blocos(inicioMin, fimMin, duracaoBloco))
  {
    horarios := [];
    var atual := inicioMin;
    ghost var todos := Rotulos(Blocos(inicioMin, fimMin, duracaoBloco));
    ghost var faltam := todos;
    while atual + duracaoBloco <= fimMin
      invariant inicioMin <= atual
      invariant faltam == Rotulos(Blocos(atual, fimMin, duracaoBloco))
      invariant horarios + faltam == todos
      decreases fimMin - atual
    {
      var horas := Pad2(NatToString(atual / 60));
      var minutos := Pad2(NatToString(atual % 60));
      var rotulo := horas + ":" + minutos;
      assert rotulo == FormatarMinutos(atual);
      PrimeiroRotulo(atual, fimMin, duracaoBloco);
      PassoDoGerador(horarios, faltam, todos, rotulo, Rotulos(Blocos(atual + duracaoBloco, fimMin, duracaoBloco)));
      horarios := horarios + [rotulo];
      atual := atual + duracaoBloco;
      faltam := Rotulos(Blocos(atual, fimMin, duracaoBloco));
    }

  }

  // ---------------------------------------------------- the slot partition

  /** Slot k starts k whole blocks after the opening time. */
  lemma {:induction false} BlocoK(atual: nat, fimMin: int, duracaoBloco: int, k: nat)
    requires duracaoBloco > 0
    requires k < |Blocos(atual, fimMin, duracaoBloco)|
    ensures Blocos(atual, fimMin, duracaoBloco)[k] == atual + k * duracaoBloco
    decreases fimMin - atual
  {
    if k > 0 {
      BlocoK(atual + duracaoBloco, fimMin, duracaoBloco, k - 1);
      assert (k - 1) * duracaoBloco + duracaoBloco == k * duracaoBloco;
    }
  }

  /** The slots are strictly increasing, a whole block apart. */
  lemma {:induction false} BlocosCrescentes(atual: nat, fimMin: int, duracaoBloco: int)
    requires duracaoBloco > 0
    ensures forall j, k :: 0 <= j < k < |Blocos(atual, fimMin, duracaoBloco)| ==>
      Blocos(atual, fimMin, duracaoBloco)[j] + duracaoBloco <= Blocos(atual, fimMin, duracaoBloco)[k]
    decreases fimMin - atual
  {
    var r := Blocos(atual, fimMin, duracaoBloco);
    if r != [] {
      BlocosCrescentes(atual + duracaoBloco, fimMin, duracaoBloco);
      var resto := Blocos(atual + duracaoBloco, fimMin, duracaoBloco);
      assert r == [atual] + resto;
      forall j, k | 0 <= j < k < |r| ensures r[j] + duracaoBloco <= r[k] {
        assert r[k] == resto[k - 1];
        if j > 0 {
          assert r[j] == resto[j - 1];
          assert resto[j - 1] + duracaoBloco <= resto[k - 1];
        } else {
          assert atual + duracaoBloco <= resto[k - 1];
        }
      }
    }
  }

  /** There are as many slots as whole blocks fit in the window. */
  lemma {:induction false} QuantidadeDeBlocos(atual: nat, fimMin: int, duracaoBloco: int)
    requires duracaoBloco > 0
    ensures |Blocos(atual, fimMin, duracaoBloco)| == if atual <= fimMin then (fimMin - atual) / duracaoBloco else 0
    decreases fimMin - atual
  {
    if atual + duracaoBloco <= fimMin {
      QuantidadeDeBlocos(atual + duracaoBloco, fimMin, duracaoBloco);
      DivisaoPasso(fimMin - atual - duracaoBloco, duracaoBloco);
    } else if atual <= fimMin {
      assert 0 <= fimMin - atual < duracaoBloco;
    }
  }

  lemma ProdutoAoMenos(a: int, d: int)
    requires a >= 1 && d > 0
    ensures a * d >= d
  {
    assert a * d == (a - 1) * d + d;
    assert (a - 1) * d >= 0;
  }

  /** Quotient and remainder are determined by any decomposition with
      the remainder below the divisor. */
  lemma DivisaoUnica(n: int, d: int, q: int, r: int)
    requires d > 0 && 0 <= r < d && n == q * d + r
    ensures n / d == q && n % d == r
  {
    var q', r' := n / d, n % d;
    assert n == q' * d + r';
    if q > q' {
      assert (q - q') * d == r' - r;
      ProdutoAoMenos(q - q', d);
      assert false;
    } else if q < q' {
      assert (q' - q) * d == r - r';
      ProdutoAoMenos(q' - q, d);
      assert false;
    }
  }

  lemma DivisaoPasso(x: nat, d: int)
    requires d > 0
    ensures (x + d) / d == x / d + 1 && (x + d) % d == x % d
  {
    DivisaoUnica(x + d, d, x / d + 1, x % d);
  }

  /** A minute is a slot start exactly when it is inside the window, a
      whole block fits after it, and it is a whole number of blocks past
      the opening time: the admission check of `criar`. */
  lemma {:induction false} MembroDosBlocos(atual: nat, fimMin: int, duracaoBloco: int, m: int)
    requires duracaoBloco > 0
    ensures m in Blocos(atual, fimMin, duracaoBloco) <==>
      atual <= m && m + duracaoBloco <= fimMin && (m - atual) % duracaoBloco == 0
    decreases fimMin - atual
  {
    var r := Blocos(atual, fimMin, duracaoBloco);
    if atual + duracaoBloco <= fimMin {
      var resto := Blocos(atual + duracaoBloco, fimMin, duracaoBloco);
      assert r == [atual] + resto;
      MembroDosBlocos(atual + duracaoBloco, fimMin, duracaoBloco, m);
      if m == atual {
        assert m in r;
      } else if m >= atual + duracaoBloco {
        DivisaoPasso(m - atual - duracaoBloco, duracaoBloco);
        assert m in r <==> m in resto;
      } else if atual < m {
        DivisaoUnica(m - atual, duracaoBloco, 0, m - atual);
        assert m !in resto;
        assert m !in r;
      } else {
        assert m !in resto;
        assert m !in r;
      }
    } else {
      assert r == [];
    }
  }

  lemma Rotulo0800()
    ensures FormatarMinutos(480) == "08:00"
  {
    FormatarMinutosDigitos(480);
  }

  lemma Rotulo1730()
    ensures FormatarMinutos(1050) == "17:30"
  {
    FormatarMinutosDigitos(1050);
  }

  /** A room open 08:00-18:00 in 30-minute blocks has 20 slots, from
      08:00 to 17:30. */
  lemma DiaDeTrintaMinutos(inicio: nat, fim: int, duracao: int)
    requires inicio == 480 && fim == 1080 && duracao == 30
    ensures var r := Rotulos(Blocos(inicio, fim, duracao));
      |r| == 20 && r[0] == "08:00" && r[19] == "17:30"
  {
    var b := Blocos(inicio, fim, duracao);
    QuantidadeDeBlocos(inicio, fim, duracao);
    BlocoK(inicio, fim, duracao, 19);
    assert b[0] == 480 && b[19] == 1050;
    RotuloK(b, 0);
    RotuloK(b, 19);
    Rotulo0800();
    Rotulo1730();
  }
}
