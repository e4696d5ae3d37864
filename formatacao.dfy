/** The display helpers of src/utils/formatacao.ts: Brazilian date and
    date-time strings from UTC calendar fields, a two-line postal address,
    and capitalisation of each space-separated word. */
module Formatacao {
  import opened Text
  import opened Horarios

  // -------------------------------------------------------------- dates

  type Mes = m: int | 0 <= m < 12
  type DiaDoMes = d: int | 1 <= d <= 31 witness 1
  type Hora = h: int | 0 <= h < 24
  type MinutoDaHora = m: int | 0 <= m < 60

  /** The UTC fields of a `Date` (`getUTCFullYear`, `getUTCMonth`, which
      counts months from 0, `getUTCDate`, `getUTCHours`,
      `getUTCMinutes`). */
  datatype Instante = Instante(ano: int, mes: Mes, dia: DiaDoMes, hora: Hora, minuto: MinutoDaHora)

  /** `formatarData`: `DD/MM/YYYY`, the month shown from 1. */
  function FormatarData(d: Instante): string
  {
    Pad2(NatToString(d.dia)) + "/" + Pad2(NatToString(d.mes + 1)) + "/" + IntToString(d.ano)
  }

  /** `formatarDataHora`: the date, " às ", then `HH:MM`. */
  function FormatarDataHora(d: Instante): string
  {
    FormatarData(d) + " \U{E0}s " + Relogio(d.hora, d.minuto)
  }

  /** The `HH:MM` part of `formatarDataHora`. */
  function Relogio(hora: Hora, minuto: MinutoDaHora): string
  {
    Pad2(NatToString(hora)) + ":" + Pad2(NatToString(minuto))
  }

  /** The day and the 1-based month sit zero-padded in fixed columns, and
      the year follows the second slash. */
  lemma FormatarDataCampos(d: Instante)
    ensures var r := FormatarData(d);
      && |r| == 6 + |IntToString(d.ano)|
      && r[..2] == [DigitChar(d.dia / 10), DigitChar(d.dia % 10)]
      && r[2] == '/'
      && r[3..5] == [DigitChar((d.mes + 1) / 10), DigitChar((d.mes + 1) % 10)]
      && r[5] == '/'
      && r[6..] == IntToString(d.ano)
  {
    TwoDigitField(d.dia);
    TwoDigitField(d.mes + 1);
    var p1, p2 := Pad2(NatToString(d.dia)), Pad2(NatToString(d.mes + 1));
    var r := FormatarData(d);
    assert r == p1 + "/" + p2 + "/" + IntToString(d.ano);
    assert r[3..5] == p2;
  }

  lemma DoisDigitos(a: nat, b: nat)
    requires a < 100 && b < 100
    requires [DigitChar(a / 10), DigitChar(a % 10)] == [DigitChar(b / 10), DigitChar(b % 10)]
    ensures a == b
  {
    assert DigitChar(a / 10) == DigitChar(b / 10) && DigitChar(a % 10) == DigitChar(b % 10);
  }

  /** Two instants show the same date exactly when they fall on the same
      calendar day. */
  lemma FormatarDataInjetiva(a: Instante, b: Instante)
    ensures FormatarData(a) == FormatarData(b) <==> a.ano == b.ano && a.mes == b.mes && a.dia == b.dia
  {
    if FormatarData(a) == FormatarData(b) {
      var r := FormatarData(a);
      FormatarDataCampos(a);
      FormatarDataCampos(b);
      DoisDigitos(a.dia, b.dia);
      DoisDigitos(a.mes + 1, b.mes + 1);
      IntToStringInjective(a.ano, b.ano);
    }
  }

  /** The time part is the server's slot label of the same minute of the
      day, and it reads back as that minute. */
  lemma FormatarDataHoraHorario(d: Instante)
    ensures FormatarDataHora(d) == FormatarData(d) + " \U{E0}s " + FormatarMinutos(d.hora * 60 + d.minuto)
    ensures ParseHorarioParaMinutos(FormatarMinutos(d.hora * 60 + d.minuto)) == Some(d.hora * 60 + d.minuto)
  {
    RelogioHorario(d.hora, d.minuto);
    ParseFormatarMinutos(d.hora * 60 + d.minuto);
  }

  /** The clock part is the server's label of that minute of the day. */
  lemma RelogioHorario(hora: Hora, minuto: MinutoDaHora)
    ensures Relogio(hora, minuto) == FormatarMinutos(hora * 60 + minuto)
    ensures |Relogio(hora, minuto)| == 5
  {
    DivisaoUnica(hora * 60 + minuto, 60, hora, minuto);
    FormatarMinutosCampos(hora * 60 + minuto);
  }

  lemma Partes(a: string, b: string)
    ensures (a + b)[..|a|] == a && (a + b)[|a|..] == b
  {
  }

  /** Where the date ends and the time begins in a date-time string. */
  lemma FormatarDataHoraPartes(d: Instante)
    ensures var r, data := FormatarDataHora(d), FormatarData(d);
      && |r| == |data| + 9
      && r[..|r| - 9] == data
      && r[|r| - 5..] == FormatarMinutos(d.hora * 60 + d.minuto)
  {
    RelogioHorario(d.hora, d.minuto);
    var data, t := FormatarData(d), Relogio(d.hora, d.minuto);
    var meio := " \U{E0}s ";
    assert |meio| == 4;
    assert FormatarDataHora(d) == data + (meio + t);
    Partes(data, meio + t);
    Partes(meio, t);
  }

  /** The same `HH:MM` means the same hour and minute. */
  lemma HoraMinutoInjetivo(a: Instante, b: Instante)
    requires FormatarMinutos(a.hora * 60 + a.minuto) == FormatarMinutos(b.hora * 60 + b.minuto)
    ensures a.hora == b.hora && a.minuto == b.minuto
  {
    var ma, mb := a.hora * 60 + a.minuto, b.hora * 60 + b.minuto;
    ParseFormatarMinutos(ma);
    ParseFormatarMinutos(mb);
    DivisaoUnica(ma, 60, a.hora, a.minuto);
    DivisaoUnica(mb, 60, b.hora, b.minuto);
  }

  /** Two instants show the same date and time exactly when they agree on
      every field down to the minute. */
  lemma FormatarDataHoraInjetiva(a: Instante, b: Instante)
    ensures FormatarDataHora(a) == FormatarDataHora(b) <==> a == b
  {
    if FormatarDataHora(a) == FormatarDataHora(b) {
      FormatarDataHoraPartes(a);
      FormatarDataHoraPartes(b);
      FormatarDataInjetiva(a, b);
      HoraMinutoInjetivo(a, b);
    }
  }

  lemma Ano2025()
    ensures IntToString(2025) == "2025"
  {
    assert NatToString(2) == "2";
    assert NatToString(20) == "20";
    assert NatToString(202) == "202";
  }

  lemma ExemploData()
    ensures FormatarData(Instante(2025, 0, 22, 16, 5)) == "22/01/2025"
  {
    Ano2025();
    TwoDigitField(22);
    TwoDigitField(1);
  }

  lemma ExemploRelogio()
    ensures Relogio(16, 5) == "16:05"
  {
    TwoDigitField(16);
    TwoDigitField(5);
  }

  /** 22 January 2025, 16:05 UTC. */
  lemma ExemploDataHora()
    ensures FormatarData(Instante(2025, 0, 22, 16, 5)) == "22/01/2025"
    ensures FormatarDataHora(Instante(2025, 0, 22, 16, 5)) == "22/01/2025 \U{E0}s 16:05"
  {
    ExemploData();
    ExemploRelogio();
  }

  // ------------------------------------------------------------ address

  datatype Endereco = Endereco(logradouro: string, numero: string, bairro: string, cidade: string, estado: string)
  datatype Linhas = Linhas(linha1: string, linha2: string)

  /** `formatarEndereco`: "street n°number, district" and "city - state". */
  function FormatarEndereco(e: Endereco): Linhas
  {
    Linhas(e.logradouro + " n\U{B0}" + e.numero + ", " + e.bairro, e.cidade + " - " + e.estado)
  }

  /** The two lines give their parts back: splitting the first line at
      its comma and the second at its dash recovers street-and-number,
      district, city and state, as long as the parts themselves contain no
      comma or dash. */
  lemma EnderecoDecodifica(e: Endereco)
    requires ',' !in e.logradouro && ',' !in e.numero && ',' !in e.bairro
    requires '-' !in e.cidade && '-' !in e.estado
    ensures Split(FormatarEndereco(e).linha1, ',') == [e.logradouro + " n\U{B0}" + e.numero, " " + e.bairro]
    ensures Split(FormatarEndereco(e).linha2, '-') == [e.cidade + " ", " " + e.estado]
  {
    var a1, b1 := e.logradouro + " n\U{B0}" + e.numero, " " + e.bairro;
    assert FormatarEndereco(e).linha1 == a1 + [','] + b1;
    assert forall i :: 0 <= i < |a1| ==> a1[i] != ',';
    SplitAtSeparator(a1, b1, ',');
    SplitWithoutSeparator(b1, ',');
    var a2, b2 := e.cidade + " ", " " + e.estado;
    assert FormatarEndereco(e).linha2 == a2 + ['-'] + b2;
    assert forall i :: 0 <= i < |a2| ==> a2[i] != '-';
    SplitAtSeparator(a2, b2, '-');
    SplitWithoutSeparator(b2, '-');
  }

  lemma ExemploEndereco()
    ensures FormatarEndereco(Endereco("Rua das Flores", "123", "Centro", "Sao Paulo", "SP"))
      == Linhas("Rua das Flores n\U{B0}123, Centro", "Sao Paulo - SP")
  {
  }

  // ----------------------------------------------------- capitalisation

  /** `palavra.charAt(0).toUpperCase() + palavra.slice(1)`. */
  function Capitalizar(w: string): (r: string)
    ensures |r| == |w|
    ensures r != [] ==> r[0] == UpperChar(w[0]) && r[1..] == w[1..]
  {
    if w == [] then [] else [UpperChar(w[0])] + w[1..]
  }

  function Capitalizadas(ws: seq<string>): (r: seq<string>)
    ensures |r| == |ws| && forall k :: 0 <= k < |ws| ==> r[k] == Capitalizar(ws[k])
  {
    seq(|ws|, k requires 0 <= k < |ws| => Capitalizar(ws[k]))
  }

  function Minusculas(ws: seq<string>): (r: seq<string>)
    ensures |r| == |ws| && forall k :: 0 <= k < |ws| ==> r[k] == Lower(ws[k])
  {
    seq(|ws|, k requires 0 <= k < |ws| => Lower(ws[k]))
  }

  /** `capitalizarPalavras`: lower-case the text, split it at single
      spaces, upper-case the first character of each piece, join again. */
  function CapitalizarPalavras(texto: string): string
  {
    Join(Capitalizadas(Split(Lower(texto), ' ')), ' ')
  }

  /** A word as `capitalizarPalavras` leaves it: no lower-case letter in
      front, no upper-case letter after. */
  predicate Capitalizada(w: string)
  {
    && (w != [] ==> !IsLower(w[0]))
    && forall i :: 1 <= i < |w| ==> !IsUpper(w[i])
  }

  lemma LowerConcat(a: string, b: string)
    ensures Lower(a + b) == Lower(a) + Lower(b)
  {
    assert forall i :: 0 <= i < |a + b| ==> Lower(a + b)[i] == (Lower(a) + Lower(b))[i];
  }

  /** Lower-casing keeps the spaces where they are, so it splits into the
      lower-cased pieces. */
  lemma {:induction false} SplitMinusculas(s: string)
    ensures Split(Lower(s), ' ') == Minusculas(Split(s, ' '))
  {
    if s == [] {
      assert Lower(s) == [];
    } else {
      SplitMinusculas(s[1..]);
      assert s == [s[0]] + s[1..];
      if s[0] == ' ' {
        EspacoMinusculas(s[1..]);
      } else {
        LetraMinusculas(s[0], s[1..]);
      }
    }
  }

  /** The step of `SplitMinusculas` for a leading space. */
  lemma EspacoMinusculas(t: string)
    requires Split(Lower(t), ' ') == Minusculas(Split(t, ' '))
    ensures Split(Lower([' '] + t), ' ') == Minusculas(Split([' '] + t, ' '))
  {
    var s := [' '] + t;
    assert s[1..] == t;
    LowerConcat([' '], t);
    var ls := Lower(s);
    assert ls[0] == ' ' && ls[1..] == Lower(t);
    var rest := Split(t, ' ');
    assert Split(s, ' ') == [""] + rest;
    assert Minusculas([""] + rest) == [""] + Minusculas(rest);
  }

  /** The step of `SplitMinusculas` for a leading character other than a
      space: it joins the first piece on both sides. */
  lemma LetraMinusculas(c: char, t: string)
    requires c != ' '
    requires Split(Lower(t), ' ') == Minusculas(Split(t, ' '))
    ensures Split(Lower([c] + t), ' ') == Minusculas(Split([c] + t, ' '))
  {
    var d := LowerChar(c);
    var rest := Split(t, ' ');
    var m := Minusculas(rest);
    assert Split(Lower([c] + t), ' ') == [[d] + m[0]] + m[1..] by {
      LowerCons(c, t);
      SplitCons(d, Lower(t), ' ');
    }
    assert Minusculas(Split([c] + t, ' ')) == [[d] + m[0]] + m[1..] by {
      SplitCons(c, t, ' ');
      LowerCons(c, rest[0]);
      MinusculasCons([c] + rest[0], rest);
    }
  }

  lemma LowerCons(c: char, t: string)
    ensures Lower([c] + t) == [LowerChar(c)] + Lower(t)
  {
    LowerConcat([c], t);
  }

  /** Replacing the first piece and lower-casing commute. */
  lemma MinusculasCons(w: string, ws: seq<string>)
    requires |ws| >= 1
    ensures Minusculas([w] + ws[1..]) == [Lower(w)] + Minusculas(ws)[1..]
  {
  }

  /** Lower-casing a join lower-cases each piece. */
  lemma {:induction false} LowerJoin(ws: seq<string>)
    ensures Lower(Join(ws, ' ')) == Join(Minusculas(ws), ' ')
  {
    if |ws| == 0 {
      assert Lower("") == "";
    } else if |ws| > 1 {
      LowerJoin(ws[1..]);
      LowerConcat(ws[0] + [' '], Join(ws[1..], ' '));
      LowerConcat(ws[0], [' ']);
      assert Minusculas(ws)[1..] == Minusculas(ws[1..]);
    }
  }

  lemma LowerCapitalizar(w: string)
    ensures Lower(Capitalizar(w)) == Lower(w)
  {
  }

  lemma LowerIdempotente(s: string)
    ensures Lower(Lower(s)) == Lower(s)
  {
  }

  /** Word by word: the text keeps its number of space-separated words,
      each word its length and letters up to case, and each comes out
      capitalised. */
  lemma PalavrasCapitalizadas(texto: string)
    ensures var ws, rs := Split(texto, ' '), Split(CapitalizarPalavras(texto), ' ');
      && |rs| == |ws|
      && forall k :: 0 <= k < |rs| ==>
           |rs[k]| == |ws[k]| && Lower(rs[k]) == Lower(ws[k]) && Capitalizada(rs[k])
  {
    var ws := Split(texto, ' ');
    SplitMinusculas(texto);
    var ps := Split(Lower(texto), ' ');
    var cs := Capitalizadas(ps);
    forall k | 0 <= k < |cs| ensures ' ' !in cs[k] {
      assert ' ' !in ps[k];
      if cs[k] != [] {
        assert cs[k] == [cs[k][0]] + cs[k][1..];
      }
    }
    SplitJoin(cs, ' ');
    forall k | 0 <= k < |cs|
      ensures Lower(cs[k]) == Lower(ws[k]) && Capitalizada(cs[k])
    {
      LowerCapitalizar(ps[k]);
      LowerIdempotente(ws[k]);
    }
  }

  /** Only letter case changes: the result lower-cases to the same text. */
  lemma SoMudaACaixa(texto: string)
    ensures |CapitalizarPalavras(texto)| == |texto|
    ensures Lower(CapitalizarPalavras(texto)) == Lower(texto)
  {
    var ps := Split(Lower(texto), ' ');
    var cs := Capitalizadas(ps);
    LowerJoin(cs);
    assert Minusculas(cs) == Minusculas(ps) by {
      forall k | 0 <= k < |ps| ensures Lower(cs[k]) == Lower(ps[k]) {
        LowerCapitalizar(ps[k]);
      }
    }
    LowerJoin(ps);
    JoinSplit(Lower(texto), ' ');
    LowerIdempotente(texto);
  }

  /** Capitalising twice is capitalising once. */
  lemma CapitalizarIdempotente(texto: string)
    ensures CapitalizarPalavras(CapitalizarPalavras(texto)) == CapitalizarPalavras(texto)
  {
    SoMudaACaixa(texto);
  }

  lemma LowerSemMaiusculas(s: string)
    requires forall i :: 0 <= i < |s| ==> !IsUpper(s[i])
    ensures Lower(s) == s
  {
  }

  /** Two space-free words joined by one space split back into the two. */
  lemma DuasPalavras(a: string, b: string)
    requires ' ' !in a && ' ' !in b
    ensures Split(a + [' '] + b, ' ') == [a, b]
  {
    SplitAtSeparator(a, b, ' ');
    SplitWithoutSeparator(b, ' ');
  }

  lemma PalavrasDoExemplo(t: string)
    requires t == "camila mendes"
    ensures Split(Lower(t), ' ') == ["camila", "mendes"]
  {
    LowerSemMaiusculas(t);
    assert t == "camila" + [' '] + "mendes";
    DuasPalavras("camila", "mendes");
  }

  lemma CapitalizadasDoExemplo()
    ensures Capitalizadas(["camila", "mendes"]) == ["Camila", "Mendes"]
  {
    assert Capitalizar("camila") == "Camila";
    assert Capitalizar("mendes") == "Mendes";
  }

  lemma JuncaoDoExemplo()
    ensures Join(["Camila", "Mendes"], ' ') == "Camila Mendes"
  {
    assert Join(["Camila", "Mendes"], ' ') == "Camila" + [' '] + Join(["Mendes"], ' ');
  }

  lemma ExemploCapitalizar(t: string)
    requires t == "camila mendes"
    ensures CapitalizarPalavras(t) == "Camila Mendes"
  {
    PalavrasDoExemplo(t);
    CapitalizadasDoExemplo();
    JuncaoDoExemplo();
  }
}
