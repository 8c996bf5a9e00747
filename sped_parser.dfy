/**
 * The first-generation SPED parser (class `SpedParserAprimorado`): it detects the kind of
 * SPED file, names the pipe-delimited fields of every line after a fixed layout, collects the
 * records per record code, and sums the tax debits and credits of the fiscal and
 * contributions files.
 */
module SpedParser {
  import opened JsText
  import opened JsNumber

  /** The named fields of one record, all kept as trimmed text. */
  type Dados = map<string, string>

  /** A parsed line: its record code, the line itself and its named fields. */
  datatype Registro = Registro(tipo: string, linha: string, dados: Dados)

  datatype Kind = Fiscal | Contribuicoes | Ecf | Ecd

  /** The detected kind of file and its display name. */
  datatype TipoSped = TipoSped(tipo: Kind, nome: string)

  /** The largest accepted file, 500 MB. */
  const TamanhoMaximoArquivo: nat := 500 * 1024 * 1024

  /** The field layout used for a kind of file; an unlisted record code has no layout. */
  function Mapeamento(k: Kind): map<string, seq<string>>
  {
    match k
    case Fiscal => RegistrosFiscal
    case Contribuicoes => RegistrosContribuicoes
    case Ecf => RegistrosEcf
    case Ecd => RegistrosEcd
  }

  /** A field of a record; an absent field reads as `''`, which behaves like `undefined` here. */
  function Get(d: Dados, campo: string): string
  {
    if campo in d then d[campo] else ""
  }

  function MinNat(a: nat, b: nat): (m: nat)
    ensures m <= a && m <= b && (m == a || m == b)
  {
    if a <= b then a else b
  }

  // ---------------------------------------------------------------- lines and detection

  function DropCr(l: string): (r: string)
    ensures r == l || (|l| > 0 && l[|l| - 1] == '\r' && r == l[..|l| - 1])
  {
    if |l| > 0 && l[|l| - 1] == '\r' then l[..|l| - 1] else l
  }

  /** `conteudo.split(/\r?\n/)`: the text between line feeds, a `\r` before a feed dropped. */
  function Linhas(s: string): (ls: seq<string>)
    ensures |ls| == |Split(s, '\n')|
  {
    var parts := Split(s, '\n');
    seq(|parts|, i requires 0 <= i < |parts| => if i < |parts| - 1 then DropCr(parts[i]) else parts[i])
  }

  /** No line contains a line feed. */
  lemma {:induction false} LinhasSemQuebra(s: string)
    ensures forall i :: 0 <= i < |Linhas(s)| ==> '\n' !in Linhas(s)[i]
  {
    var parts := Split(s, '\n');
    SplitSemSeparador(s, '\n');
    forall i | 0 <= i < |Linhas(s)|
      ensures '\n' !in Linhas(s)[i]
    {
      assert '\n' !in parts[i];
      if i < |parts| - 1 && Linhas(s)[i] != parts[i] {
        assert Linhas(s)[i] == parts[i][..|parts[i]| - 1];
        forall j | 0 <= j < |parts[i]| - 1 ensures Linhas(s)[i][j] != '\n' {
          assert Linhas(s)[i][j] == parts[i][j];
        }
      }
    }
  }

  /** What one line says about the kind of file; lines with fewer than 3 fields say nothing. */
  function ClassificarLinha(linha: string): Option<TipoSped>
  {
    var l := Trim(linha);
    var campos := Split(l, '|');
    if l == "" || |campos| < 3 then None
    else if campos[1] == "0000" && (campos[2] == "0" || campos[2] == "1") then Some(TipoSped(Fiscal, "SPED Fiscal"))
    else if campos[1] == "0000" && (campos[2] == "2" || campos[2] == "3") then Some(TipoSped(Contribuicoes, "SPED Contribuições"))
    else if campos[1] == "J001" then Some(TipoSped(Ecf, "ECF"))
    else if campos[1] == "I001" then Some(TipoSped(Ecd, "ECD"))
    else None
  }

  /** The first of the first 20 lines that says something decides; otherwise the kind is unknown. */
  method IdentificarTipoSped(conteudo: string) returns (t: Option<TipoSped>)
    ensures var ls := Linhas(conteudo); var n := MinNat(|ls|, 20);
      (t.None? <==> forall j :: 0 <= j < n ==> ClassificarLinha(ls[j]).None?)
      && (t.Some? ==> exists i :: 0 <= i < n && ClassificarLinha(ls[i]) == t
                                && forall j :: 0 <= j < i ==> ClassificarLinha(ls[j]).None?)
  {
    var linhas := Linhas(conteudo);
    var n := MinNat(|linhas|, 20);
    var i := 0;
    while i < n
      invariant 0 <= i <= n
      invariant forall j :: 0 <= j < i ==> ClassificarLinha(linhas[j]).None?
    {
      var linha := Trim(linhas[i]);
      if linha != "" {
        var campos := Split(linha, '|');
        if |campos| >= 3 {
          var registro := campos[1];
          if registro == "0000" {
            var codigoFinalidade := campos[2];
            if codigoFinalidade == "0" || codigoFinalidade == "1" {
              return Some(TipoSped(Fiscal, "SPED Fiscal"));
            }
            if codigoFinalidade == "2" || codigoFinalidade == "3" {
              return Some(TipoSped(Contribuicoes, "SPED Contribuições"));
            }
          }
          if registro == "J001" {
            return Some(TipoSped(Ecf, "ECF"));
          }
          if registro == "I001" {
            return Some(TipoSped(Ecd, "ECD"));
          }
        }
      }
      i := i + 1;
    }
    return None;
  }

  // ---------------------------------------------------------------- naming the fields

  /**
   * Names bound to trimmed values position by position, up to the shorter of the two lists;
   * a name that occurs twice keeps its later value.
   */
  function Bind(nomes: seq<string>, valores: seq<string>): Dados
  {
    BindUpTo(nomes, valores, MinNat(|nomes|, |valores|))
  }

  /** The first `n` names bound to the first `n` values, in order. */
  function BindUpTo(nomes: seq<string>, valores: seq<string>, n: nat): Dados
    requires n <= |nomes| && n <= |valores|
  {
    if n == 0 then map[] else BindUpTo(nomes, valores, n - 1)[nomes[n - 1] := Trim(valores[n - 1])]
  }

  /** The bound names are exactly the first `n` names. */
  lemma {:induction false} BindKeys(nomes: seq<string>, valores: seq<string>, n: nat)
    requires n <= |nomes| && n <= |valores|
    ensures forall k :: k in BindUpTo(nomes, valores, n) <==> exists i :: 0 <= i < n && nomes[i] == k
  {
    if n > 0 {
      BindKeys(nomes, valores, n - 1);
      forall k ensures k in BindUpTo(nomes, valores, n) <==> exists i :: 0 <= i < n && nomes[i] == k {
        if k == nomes[n - 1] {
          assert 0 <= n - 1 < n && nomes[n - 1] == k;
        } else if exists i :: 0 <= i < n && nomes[i] == k {
          var i :| 0 <= i < n && nomes[i] == k;
          assert i < n - 1;
        }
      }
    }
  }

  /** A name not repeated later in the first `n` holds the trimmed value of its position. */
  lemma {:induction false} BindLast(nomes: seq<string>, valores: seq<string>, n: nat, i: nat)
    requires n <= |nomes| && n <= |valores| && i < n
    requires forall j :: i < j < n ==> nomes[j] != nomes[i]
    ensures nomes[i] in BindUpTo(nomes, valores, n) && BindUpTo(nomes, valores, n)[nomes[i]] == Trim(valores[i])
  {
    if i < n - 1 {
      BindLast(nomes, valores, n - 1, i);
    }
  }

  /** The bound names are the first `n` names, each with the value of its last position. */
  lemma {:induction false} BindFields(nomes: seq<string>, valores: seq<string>)
    ensures var d := Bind(nomes, valores); var n := MinNat(|nomes|, |valores|);
      (forall k :: k in d <==> exists i :: 0 <= i < n && nomes[i] == k)
      && (forall i :: 0 <= i < n && (forall j :: i < j < n ==> nomes[j] != nomes[i]) ==> d[nomes[i]] == Trim(valores[i]))
  {
    var n := MinNat(|nomes|, |valores|);
    BindKeys(nomes, valores, n);
    forall i | 0 <= i < n && (forall j :: i < j < n ==> nomes[j] != nomes[i])
      ensures nomes[i] in Bind(nomes, valores) && Bind(nomes, valores)[nomes[i]] == Trim(valores[i])
    {
      BindLast(nomes, valores, n, i);
    }
  }

  /**
   * `processarLinha` as written: the layout's `i`-th name takes field `i` of the line. A line
   * starts with `|`, so field 0 is the empty text and field 1 the record code: every name
   * lands one position before its value.
   */
  function LinhaRegistroComoEscrito(linha: string, mapeamento: map<string, seq<string>>): (r: Option<Registro>)
    ensures r.Some? ==> r.value.tipo in mapeamento && r.value.linha == linha
  {
    var campos := Split(linha, '|');
    if |campos| < 2 || campos[1] !in mapeamento then None
    else Some(Registro(campos[1], linha, Bind(mapeamento[campos[1]], campos)))
  }

  /** On a C100 line the as-written binding gives `REG` the empty text and `IND_OPER` the record code. */
  lemma {:induction false} CampoDeslocado()
    ensures var r := LinhaRegistroComoEscrito("|C100|0|", RegistrosFiscal);
      r.Some? && Get(r.value.dados, "REG") == "" && Get(r.value.dados, "IND_OPER") == "C100"
  {
    SplitC100();
    LayoutFiscalC100();
    CampoDeslocadoEm("|C100|0|", RegistrosFiscal);
  }

  /** The shift on any line with the fields of `|C100|0|`, under any C100 layout starting `REG`, `IND_OPER`. */
  lemma {:induction false} CampoDeslocadoEm(linha: string, mapeamento: map<string, seq<string>>)
    requires Split(linha, '|') == ["", "C100", "0", ""]
    requires "C100" in mapeamento && |mapeamento["C100"]| >= 4
    requires mapeamento["C100"][..4] == ["REG", "IND_OPER", "IND_EMIT", "COD_PART"]
    ensures var r := LinhaRegistroComoEscrito(linha, mapeamento);
      r.Some? && Get(r.value.dados, "REG") == "" && Get(r.value.dados, "IND_OPER") == "C100"
  {
    BindDeslocado(mapeamento["C100"], Split(linha, '|'));
  }

  /** The fields of the sample C100 line. */
  lemma {:induction false} SplitC100()
    ensures Split("|C100|0|", '|') == ["", "C100", "0", ""]
  {
    var campos := ["", "C100", "0", ""];
    assert Join(campos, '|') == "|C100|0|";
    SplitJoin(campos, '|');
  }

  /** The Fiscal layout of C100 begins with `REG`, `IND_OPER`, `IND_EMIT`, `COD_PART`. */
  lemma {:induction false} LayoutFiscalC100()
    ensures "C100" in RegistrosFiscal && |RegistrosFiscal["C100"]| >= 4
    ensures RegistrosFiscal["C100"][..4] == ["REG", "IND_OPER", "IND_EMIT", "COD_PART"]
  {
    assert RegistrosFiscal["C100"] == LayoutC100;
  }

  /** Binding a layout that starts `REG`, `IND_OPER`, ... to the fields of `|C100|0|` from field 0. */
  lemma {:induction false} BindDeslocado(estrutura: seq<string>, campos: seq<string>)
    requires |estrutura| >= 4 && estrutura[..4] == ["REG", "IND_OPER", "IND_EMIT", "COD_PART"]
    requires campos == ["", "C100", "0", ""]
    ensures Get(Bind(estrutura, campos), "REG") == "" && Get(Bind(estrutura, campos), "IND_OPER") == "C100"
  {
    assert estrutura[0] == estrutura[..4][0] && estrutura[1] == estrutura[..4][1];
    assert estrutura[2] == estrutura[..4][2] && estrutura[3] == estrutura[..4][3];
    assert MinNat(|estrutura|, |campos|) == 4;
    assert "IND_EMIT" != "IND_OPER" by { assert "IND_EMIT"[4] != "IND_OPER"[4]; }
    assert "COD_PART" != "IND_OPER" by { assert "COD_PART"[0] != "IND_OPER"[0]; }
    assert "IND_OPER" != "REG" && "IND_EMIT" != "REG" && "COD_PART" != "REG";
    BindLast(estrutura, campos, 4, 0);
    BindLast(estrutura, campos, 4, 1);
    TrimVazio();
    TrimC100();
  }

  lemma {:induction false} TrimVazio()
    ensures Trim("") == ""
  {
  }

  lemma {:induction false} TrimC100()
    ensures Trim("C100") == "C100"
  {
    assert !IsWhite('C') && !IsWhite('0');
    assert TrimStart("C100") == "C100";
    assert TrimEnd("C100") == "C100";
  }

  /**
   * The intended binding: the record code is field 1, so the layout's `i`-th name takes field
   * `i + 1` and `REG` holds the record code.
   */
  function LinhaRegistro(linha: string, mapeamento: map<string, seq<string>>): (r: Option<Registro>)
    ensures r.Some? ==> r.value.tipo in mapeamento && r.value.linha == linha
  {
    var campos := Split(linha, '|');
    if |campos| < 2 || campos[1] !in mapeamento then None
    else Some(Registro(campos[1], linha, Bind(mapeamento[campos[1]], campos[1..])))
  }

  /** With the intended binding the record's `REG` field is its trimmed record code. */
  lemma {:induction false} RegGuardaCodigo(linha: string, mapeamento: map<string, seq<string>>)
    requires var campos := Split(linha, '|');
      |campos| >= 2 && campos[1] in mapeamento && |mapeamento[campos[1]]| > 0
      && mapeamento[campos[1]][0] == "REG"
      && forall j :: 0 < j < |mapeamento[campos[1]]| ==> mapeamento[campos[1]][j] != "REG"
    ensures var r := LinhaRegistro(linha, mapeamento);
      r.Some? && Get(r.value.dados, "REG") == Trim(r.value.tipo)
  {
    var campos := Split(linha, '|');
    var estrutura := mapeamento[campos[1]];
    BindLast(estrutura, campos[1..], MinNat(|estrutura|, |campos[1..]|), 0);
  }

  /**
   * `processarLinha` with the intended binding, as a loop; no layout or fewer than two fields
   * gives no record.
   */
  method ProcessarLinha(linha: string, mapeamento: map<string, seq<string>>) returns (r: Option<Registro>)
    ensures r == LinhaRegistro(linha, mapeamento)
  {
    var campos := Split(linha, '|');
    if |campos| < 2 {
      return None;
    }
    var tipoRegistro := campos[1];
    if tipoRegistro !in mapeamento {
      return None;
    }
    var estrutura := mapeamento[tipoRegistro];
    var valores := campos[1..];
    var n := MinNat(|valores|, |estrutura|);
    var dados: Dados := map[];
    var i := 0;
    while i < n
      invariant 0 <= i <= n
      invariant dados == BindUpTo(estrutura, valores, i)
    {
      dados := dados[estrutura[i] := Trim(valores[i])];
      i := i + 1;
    }
    return Some(Registro(tipoRegistro, linha, dados));
  }

  // ---------------------------------------------------------------- collecting the records

  /** The records collected for one record code, empty when there are none. */
  function Lista(m: map<string, seq<Dados>>, tipo: string): seq<Dados>
  {
    if tipo in m then m[tipo] else []
  }

  /** `adicionarRegistro`: the record's fields go at the end of the list of its own code. */
  function Adicionar(m: map<string, seq<Dados>>, r: Registro): map<string, seq<Dados>>
  {
    m[r.tipo := Lista(m, r.tipo) + [r.dados]]
  }

  /** Adding a record creates its code's list if needed, appends to it, and leaves every other list alone. */
  lemma {:induction false} AdicionarListas(m: map<string, seq<Dados>>, r: Registro, t: string)
    ensures Adicionar(m, r).Keys == m.Keys + {r.tipo}
    ensures Lista(Adicionar(m, r), t) == if t == r.tipo then Lista(m, t) + [r.dados] else Lista(m, t)
  {
  }

  /** Adding several records in turn. */
  function AdicionarTodos(m: map<string, seq<Dados>>, rs: seq<Registro>): map<string, seq<Dados>>
  {
    if |rs| == 0 then m else Adicionar(AdicionarTodos(m, rs[..|rs| - 1]), rs[|rs| - 1])
  }

  /** The fields of the records of one code, in order. */
  function DadosDe(rs: seq<Registro>, tipo: string): seq<Dados>
  {
    if |rs| == 0 then []
    else DadosDe(rs[..|rs| - 1], tipo) + (if rs[|rs| - 1].tipo == tipo then [rs[|rs| - 1].dados] else [])
  }

  /** After adding records, each code's list is its old list followed by its own records in order. */
  lemma {:induction false} AdicionarTodosListas(m: map<string, seq<Dados>>, rs: seq<Registro>, tipo: string)
    ensures Lista(AdicionarTodos(m, rs), tipo) == Lista(m, tipo) + DadosDe(rs, tipo)
  {
    if |rs| > 0 {
      AdicionarTodosListas(m, rs[..|rs| - 1], tipo);
      AdicionarListas(AdicionarTodos(m, rs[..|rs| - 1]), rs[|rs| - 1], tipo);
    }
  }

  /** A line is looked at when, trimmed, it has at least 5 characters. */
  predicate Considerada(linha: string)
  {
    |Trim(linha)| >= 5
  }

  /** The number of lines looked at (`registrosEncontrados`). */
  function Encontrados(ls: seq<string>): (n: nat)
    ensures n <= |ls|
  {
    if |ls| == 0 then 0 else Encontrados(ls[..|ls| - 1]) + (if Considerada(ls[|ls| - 1]) then 1 else 0)
  }

  /** The records the lines yield, in order (`registrosValidos` is their number). */
  function Extraidos(ls: seq<string>, mapeamento: map<string, seq<string>>): seq<Registro>
  {
    if |ls| == 0 then []
    else
      Extraidos(ls[..|ls| - 1], mapeamento) + Extraido(ls[|ls| - 1], mapeamento)
  }

  /** The record one line yields: none when it is too short or not understood. */
  function Extraido(l: string, mapeamento: map<string, seq<string>>): (e: seq<Registro>)
    ensures |e| <= (if Considerada(l) then 1 else 0)
  {
    if Considerada(l) && LinhaRegistro(Trim(l), mapeamento).Some? then [LinhaRegistro(Trim(l), mapeamento).value] else []
  }

  /** One more line: it counts when looked at and adds the record it yields, if any. */
  lemma {:induction false} LinhasPasso(ls: seq<string>, i: nat, mapeamento: map<string, seq<string>>)
    requires i < |ls|
    ensures Encontrados(ls[..i + 1]) == Encontrados(ls[..i]) + (if Considerada(ls[i]) then 1 else 0)
    ensures Extraidos(ls[..i + 1], mapeamento) == Extraidos(ls[..i], mapeamento) + Extraido(ls[i], mapeamento)
  {
    assert ls[..i + 1][..i] == ls[..i];
    assert ls[..i + 1][i] == ls[i];
  }

  /** Adding one more record after several is adding it to the result. */
  /** Adding the records of one more line: none, or one added after the others. */
  lemma {:induction false} AdicionarExtraido(m: map<string, seq<Dados>>, rs: seq<Registro>, e: seq<Registro>)
    requires |e| <= 1
    ensures AdicionarTodos(m, rs + e) == if e == [] then AdicionarTodos(m, rs) else Adicionar(AdicionarTodos(m, rs), e[0])
  {
    if e == [] {
      assert rs + e == rs;
    } else {
      assert e == [e[0]];
      AdicionarTodosPasso(m, rs, e[0]);
    }
  }

  lemma {:induction false} AdicionarTodosPasso(m: map<string, seq<Dados>>, rs: seq<Registro>, r: Registro)
    ensures AdicionarTodos(m, rs + [r]) == Adicionar(AdicionarTodos(m, rs), r)
  {
    assert (rs + [r])[..|rs|] == rs;
  }

  /** Every record comes from a line that was looked at. */
  lemma {:induction false} ExtraidosLimite(ls: seq<string>, mapeamento: map<string, seq<string>>)
    ensures |Extraidos(ls, mapeamento)| <= Encontrados(ls)
  {
    if |ls| > 0 {
      ExtraidosLimite(ls[..|ls| - 1], mapeamento);
    }
  }

  // ---------------------------------------------------------------- numbers and dates

  /** `formatarData`: `DDMMYYYY` becomes `YYYY-MM-DD`; text of any other length becomes `''`. */
  function FormatarData(d: string): (r: string)
    ensures |d| != 8 <==> r == ""
    ensures |d| == 8 ==> |r| == 10 && r[4] == '-' && r[7] == '-'
  {
    if |d| != 8 then "" else d[4..8] + "-" + d[2..4] + "-" + d[0..2]
  }

  /** Reading a formatted date back gives the original text. */
  lemma {:induction false} FormatarDataInversa(d: string)
    requires |d| == 8
    ensures var r := FormatarData(d); r[8..10] + r[5..7] + r[0..4] == d
  {
    var r := FormatarData(d);
    assert r[8..10] == d[0..2] && r[5..7] == d[2..4] && r[0..4] == d[4..8];
    assert d == d[0..2] + d[2..4] + d[4..8];
  }

  /** The text `converterParaNumero` hands to `parseFloat`: points deleted, the first comma a point. */
  function Limpo(s: string): string
  {
    ReplaceFirst(RemoveAll(s, '.'), ',', '.')
  }

  /** `converterParaNumero`: Brazilian-formatted text to a number; empty text and NaN give 0. */
  function ConverterParaNumero(s: string): (r: real)
    ensures s == "" ==> r == 0.0
    ensures ParseFloat(Limpo(s)).None? ==> r == 0.0
  {
    if s == "" then 0.0
    else match ParseFloat(Limpo(s))
      case None => 0.0
      case Some(x) => x
  }

  /** Thousands separators do not matter: deleting the points first changes nothing. */
  lemma {:induction false} ConverterIgnoraPontos(s: string)
    ensures ConverterParaNumero(RemoveAll(s, '.')) == ConverterParaNumero(s)
  {
    var t := RemoveAll(s, '.');
    RemoveAllCount(t, '.');
    assert RemoveAll(t, '.') == t;
    if s == "" {
      assert t == "";
    } else if t == "" {
      RemoveAllCount(s, '.');
      assert Limpo(s) == "";
      assert ParseFloat("") == None;
    }
  }

  /** A Brazilian decimal `"1234,56"` reads as 1234.56. */
  lemma {:induction false} ConverterDecimal(w: string, f: string)
    requires |w| > 0 && |f| > 0 && AllDigits(w) && AllDigits(f)
    ensures ConverterParaNumero(w + "," + f) == DigitsValue(w, 0) as real + Shifted(DigitsValue(f, 0), |f|)
  {
    LimpoDecimal(w, f);
    ParseDecimal(w, f);
  }

  /** Cleaning `"1234,56"` gives `"1234.56"`. */
  lemma {:induction false} LimpoDecimal(w: string, f: string)
    requires AllDigits(w) && AllDigits(f)
    ensures Limpo(w + "," + f) == w + "." + f
  {
    var s := w + "," + f;
    assert forall i :: 0 <= i < |s| ==> s[i] != '.' by {
      forall i | 0 <= i < |s| ensures s[i] != '.' {
        if i < |w| {
          AllDigitsAt(w, i);
          assert s[i] == w[i];
        } else if i > |w| {
          AllDigitsAt(f, i - |w| - 1);
          assert s[i] == f[i - |w| - 1];
        }
      }
    }
    RemoveAllCount(s, '.');
    assert RemoveAll(s, '.') == s;
    assert IndexOfChar(s, ',') == |w| by {
      assert s[|w|] == ',';
      forall j | 0 <= j < |w| ensures s[j] != ',' {
        AllDigitsAt(w, j);
        assert s[j] == w[j];
      }
    }
    assert s[..|w|] == w && s[|w| + 1..] == f;
  }

  // ---------------------------------------------------------------- tax sums

  /** The five taxes the parser tracks, each an amount. */
  datatype Tributos = Tributos(pis: real, cofins: real, icms: real, ipi: real, iss: real)

  const SemTributos := Tributos(0.0, 0.0, 0.0, 0.0, 0.0)

  function Somar(a: Tributos, b: Tributos): (c: Tributos)
  {
    Tributos(a.pis + b.pis, a.cofins + b.cofins, a.icms + b.icms, a.ipi + b.ipi, a.iss + b.iss)
  }

  /** Adding to the zero totals gives the amounts added, and adding twice is adding the sum. */
  lemma {:induction false} SomarNeutro(a: Tributos, b: Tributos, c: Tributos)
    ensures Somar(SemTributos, a) == a
    ensures Somar(Somar(a, b), c) == Somar(a, Somar(b, c))
  {
  }

  /** The effective rates, in percent of the turnover. */
  datatype Aliquotas = Aliquotas(pis: real, cofins: real, icms: real, ipi: real, iss: real, total: real)

  /** A field read as a number. */
  function Num(d: Dados, campo: string): real
  {
    ConverterParaNumero(Get(d, campo))
  }

  /** The sum of a field over the records satisfying `p`, in order. */
  function SomaSe(recs: seq<Dados>, p: Filtro, campo: string): real
  {
    if |recs| == 0 then 0.0
    else SomaSe(recs[..|recs| - 1], p, campo) + (if Passa(p, recs[|recs| - 1]) then Num(recs[|recs| - 1], campo) else 0.0)
  }

  /** One more record adds its field exactly when it satisfies `p`. */
  lemma {:induction false} SomaSeAppend(recs: seq<Dados>, d: Dados, p: Filtro, campo: string)
    ensures SomaSe(recs + [d], p, campo) == SomaSe(recs, p, campo) + (if Passa(p, d) then Num(d, campo) else 0.0)
  {
    assert (recs + [d])[..|recs|] == recs;
  }

  lemma {:induction false} SomaSePasso(recs: seq<Dados>, i: nat, p: Filtro, campo: string)
    requires i < |recs|
    ensures SomaSe(recs[..i + 1], p, campo) == SomaSe(recs[..i], p, campo) + (if Passa(p, recs[i]) then Num(recs[i], campo) else 0.0)
  {
    assert recs[..i + 1][..i] == recs[..i];
  }

  /** Cancelled or denied documents (`COD_SIT` 02, 03 or 04). */
  predicate Cancelado(d: Dados) { Get(d, "COD_SIT") == "02" || Get(d, "COD_SIT") == "03" || Get(d, "COD_SIT") == "04" }

  predicate OperEntrada(d: Dados) { Get(d, "IND_OPER") == "0" }
  predicate OperSaida(d: Dados) { Get(d, "IND_OPER") == "1" }
  predicate EntradaValida(d: Dados) { !Cancelado(d) && OperEntrada(d) }
  predicate SaidaValida(d: Dados) { !Cancelado(d) && OperSaida(d) }

  /** A CST between `'50'` and `'66'` in string order gives the right to a credit. */
  predicate CstCredito(cst: string) { LexLessEq("50", cst) && LexLessEq(cst, "66") }
  predicate CreditaPis(d: Dados) { CstCredito(Get(d, "CST_PIS")) }
  predicate CreditaCofins(d: Dados) { CstCredito(Get(d, "CST_COFINS")) }
  predicate TemCredPis(d: Dados) { Get(d, "VL_CRED_PIS") != "" }
  predicate TemCredCofins(d: Dados) { Get(d, "VL_CRED_COFINS") != "" }

  /** The record filters the sums use. */
  datatype Filtro = Todos | EntradasValidas | SaidasValidas | Entradas | Saidas | CstPis | CstCofins | ComCredPis | ComCredCofins

  predicate Passa(f: Filtro, d: Dados)
  {
    match f
    case Todos => true
    case EntradasValidas => EntradaValida(d)
    case SaidasValidas => SaidaValida(d)
    case Entradas => OperEntrada(d)
    case Saidas => OperSaida(d)
    case CstPis => CreditaPis(d)
    case CstCofins => CreditaCofins(d)
    case ComCredPis => TemCredPis(d)
    case ComCredCofins => TemCredCofins(d)
  }

  /** The debits a fiscal file adds: E110 ICMS, E210 IPI, and PIS/COFINS of valid outgoing C100. */
  function DebitosFiscal(m: map<string, seq<Dados>>): Tributos
  {
    Tributos(
      SomaSe(Lista(m, "C100"), SaidasValidas, "VL_PIS"),
      SomaSe(Lista(m, "C100"), SaidasValidas, "VL_COFINS"),
      SomaSe(Lista(m, "E110"), Todos, "VL_TOT_DEBITOS"),
      SomaSe(Lista(m, "E210"), Todos, "VL_TOT_DEBITOS_IPI"),
      0.0)
  }

  /** The credits a fiscal file adds: E110/E210 totals, valid incoming C100, and C170 items with a credit CST. */
  function CreditosFiscal(m: map<string, seq<Dados>>): Tributos
  {
    Tributos(
      SomaSe(Lista(m, "C100"), EntradasValidas, "VL_PIS") + SomaSe(Lista(m, "C170"), CstPis, "VL_PIS"),
      SomaSe(Lista(m, "C100"), EntradasValidas, "VL_COFINS") + SomaSe(Lista(m, "C170"), CstCofins, "VL_COFINS"),
      SomaSe(Lista(m, "E110"), Todos, "VL_TOT_CREDITOS") + SomaSe(Lista(m, "C100"), EntradasValidas, "VL_ICMS"),
      SomaSe(Lista(m, "E210"), Todos, "VL_TOT_CREDITOS_IPI") + SomaSe(Lista(m, "C100"), EntradasValidas, "VL_IPI"),
      0.0)
  }

  /** `fonte.push(rotulo)` when the file has records of type `codigo`. */
  function ComFonte(fontes: seq<string>, m: map<string, seq<Dados>>, codigo: string, rotulo: string): seq<string>
  {
    if codigo in m then fontes + [rotulo] else fontes
  }

  /** The sources a fiscal file appends to `fontes`, one per record type it has. */
  function FontesFiscal(fontes: seq<string>, m: map<string, seq<Dados>>): seq<string>
  {
    ComFonte(ComFonte(ComFonte(fontes, m, "E110", "SPED Fiscal - E110"), m, "E210", "SPED Fiscal - E210"),
      m, "C100", "SPED Fiscal - C100")
  }

  /** The debits a contributions file adds: M200/M600 totals and outgoing F100. */
  function DebitosContribuicoes(m: map<string, seq<Dados>>): Tributos
  {
    Tributos(
      SomaSe(Lista(m, "M200"), Todos, "VL_TOT_CONT_NC_PER") + SomaSe(Lista(m, "M200"), Todos, "VL_TOT_CONT_CUM_PER")
        + SomaSe(Lista(m, "F100"), Saidas, "VL_PIS"),
      SomaSe(Lista(m, "M600"), Todos, "VL_TOT_CONT_NC_PER") + SomaSe(Lista(m, "M600"), Todos, "VL_TOT_CONT_CUM_PER")
        + SomaSe(Lista(m, "F100"), Saidas, "VL_COFINS"),
      0.0, 0.0, 0.0)
  }

  /** The credits a contributions file adds: M100/M500, C170 credit fields and incoming F100. */
  function CreditosContribuicoes(m: map<string, seq<Dados>>): Tributos
  {
    Tributos(
      SomaSe(Lista(m, "M100"), Todos, "VL_CRED") + SomaSe(Lista(m, "C170"), ComCredPis, "VL_CRED_PIS")
        + SomaSe(Lista(m, "F100"), Entradas, "VL_PIS"),
      SomaSe(Lista(m, "M500"), Todos, "VL_CRED") + SomaSe(Lista(m, "C170"), ComCredCofins, "VL_CRED_COFINS")
        + SomaSe(Lista(m, "F100"), Entradas, "VL_COFINS"),
      0.0, 0.0, 0.0)
  }

  /** The sources a contributions file appends to `fontes`; C170 is summed but never listed. */
  function FontesContribuicoes(fontes: seq<string>, m: map<string, seq<Dados>>): seq<string>
  {
    var f := ComFonte(ComFonte(fontes, m, "M200", "SPED Contribuições - M200"), m, "M600", "SPED Contribuições - M600");
    ComFonte(ComFonte(ComFonte(f, m, "M100", "SPED Contribuições - M100"), m, "M500", "SPED Contribuições - M500"),
      m, "F100", "SPED Contribuições - F100")
  }

  /** The debits, credits and sources `extrairDadosTributarios` collects for a kind of file. */
  function DebitosDe(k: Kind, m: map<string, seq<Dados>>): Tributos
  {
    match k
    case Fiscal => DebitosFiscal(m)
    case Contribuicoes => DebitosContribuicoes(m)
    case _ => SemTributos
  }

  function CreditosDe(k: Kind, m: map<string, seq<Dados>>): Tributos
  {
    match k
    case Fiscal => CreditosFiscal(m)
    case Contribuicoes => CreditosContribuicoes(m)
    case _ => SemTributos
  }

  function FontesDe(k: Kind, m: map<string, seq<Dados>>): seq<string>
  {
    match k
    case Fiscal => FontesFiscal([], m)
    case Contribuicoes => FontesContribuicoes([], m)
    case _ => []
  }

  /** A cancelled C100 document adds neither debits nor credits. */
  lemma {:induction false} CanceladoNaoConta(m: map<string, seq<Dados>>, d: Dados)
    requires Cancelado(d)
    ensures var m' := m["C100" := Lista(m, "C100") + [d]];
      DebitosFiscal(m') == DebitosFiscal(m) && CreditosFiscal(m') == CreditosFiscal(m)
  {
    var recs := Lista(m, "C100");
    ListasFiscalC100(m, recs + [d]);
    SomaSeAppend(recs, d, SaidasValidas, "VL_PIS");
    SomaSeAppend(recs, d, SaidasValidas, "VL_COFINS");
    SomaSeAppend(recs, d, EntradasValidas, "VL_PIS");
    SomaSeAppend(recs, d, EntradasValidas, "VL_COFINS");
    SomaSeAppend(recs, d, EntradasValidas, "VL_ICMS");
    SomaSeAppend(recs, d, EntradasValidas, "VL_IPI");
  }

  /** Replacing the C100 list leaves the other lists a fiscal file sums untouched. */
  lemma {:induction false} ListasFiscalC100(m: map<string, seq<Dados>>, l: seq<Dados>)
    ensures var m' := m["C100" := l];
      Lista(m', "C100") == l && Lista(m', "E110") == Lista(m, "E110")
      && Lista(m', "E210") == Lista(m, "E210") && Lista(m', "C170") == Lista(m, "C170")
  {
    assert "C100"[0] != "E110"[0] && "C100"[0] != "E210"[0] && "C100"[2] != "C170"[2];
  }

  /** A valid incoming C100 adds its ICMS, IPI, PIS and COFINS to the credits and no debit. */
  lemma {:induction false} EntradaCredita(m: map<string, seq<Dados>>, d: Dados)
    requires !Cancelado(d) && Get(d, "IND_OPER") == "0"
    ensures var m' := m["C100" := Lista(m, "C100") + [d]];
      DebitosFiscal(m') == DebitosFiscal(m)
      && CreditosFiscal(m') == Somar(CreditosFiscal(m), Tributos(Num(d, "VL_PIS"), Num(d, "VL_COFINS"), Num(d, "VL_ICMS"), Num(d, "VL_IPI"), 0.0))
  {
    var recs := Lista(m, "C100");
    ListasFiscalC100(m, recs + [d]);
    assert Get(d, "IND_OPER") != "1" by { assert "1"[0] != "0"[0]; }
    assert !Passa(SaidasValidas, d) && Passa(EntradasValidas, d);
    SomaSeAppend(recs, d, SaidasValidas, "VL_PIS");
    SomaSeAppend(recs, d, SaidasValidas, "VL_COFINS");
    SomaSeAppend(recs, d, EntradasValidas, "VL_PIS");
    SomaSeAppend(recs, d, EntradasValidas, "VL_COFINS");
    SomaSeAppend(recs, d, EntradasValidas, "VL_ICMS");
    SomaSeAppend(recs, d, EntradasValidas, "VL_IPI");
  }

  /** A valid outgoing C100 adds only its PIS and COFINS, to the debits. */
  lemma {:induction false} SaidaDebita(m: map<string, seq<Dados>>, d: Dados)
    requires !Cancelado(d) && Get(d, "IND_OPER") == "1"
    ensures var m' := m["C100" := Lista(m, "C100") + [d]];
      CreditosFiscal(m') == CreditosFiscal(m)
      && DebitosFiscal(m') == Somar(DebitosFiscal(m), Tributos(Num(d, "VL_PIS"), Num(d, "VL_COFINS"), 0.0, 0.0, 0.0))
  {
    var recs := Lista(m, "C100");
    ListasFiscalC100(m, recs + [d]);
    assert Get(d, "IND_OPER") != "0" by { assert "1"[0] != "0"[0]; }
    assert Passa(SaidasValidas, d) && !Passa(EntradasValidas, d);
    SomaSeAppend(recs, d, SaidasValidas, "VL_PIS");
    SomaSeAppend(recs, d, SaidasValidas, "VL_COFINS");
    SomaSeAppend(recs, d, EntradasValidas, "VL_PIS");
    SomaSeAppend(recs, d, EntradasValidas, "VL_COFINS");
    SomaSeAppend(recs, d, EntradasValidas, "VL_ICMS");
    SomaSeAppend(recs, d, EntradasValidas, "VL_IPI");
  }

  /** A C170 item credits PIS (COFINS) exactly when its CST lies in `'50'..'66'`; it never adds debits. */
  lemma {:induction false} ItemCstCredita(m: map<string, seq<Dados>>, d: Dados)
    ensures var m' := m["C170" := Lista(m, "C170") + [d]];
      DebitosFiscal(m') == DebitosFiscal(m)
      && CreditosFiscal(m').pis == CreditosFiscal(m).pis + (if CstCredito(Get(d, "CST_PIS")) then Num(d, "VL_PIS") else 0.0)
      && CreditosFiscal(m').cofins == CreditosFiscal(m).cofins + (if CstCredito(Get(d, "CST_COFINS")) then Num(d, "VL_COFINS") else 0.0)
      && CreditosFiscal(m').icms == CreditosFiscal(m).icms && CreditosFiscal(m').ipi == CreditosFiscal(m).ipi
  {
    var recs := Lista(m, "C170");
    SomaSeAppend(recs, d, CstPis, "VL_PIS");
    SomaSeAppend(recs, d, CstCofins, "VL_COFINS");
  }

  /** A CST outside the range, such as `'70'` or `'1'`, gives no credit; `'50'`, `'6'` and `'66'` do. */
  lemma {:induction false} CstFaixa()
    ensures !CstCredito("70") && !CstCredito("49") && !CstCredito("")
    ensures CstCredito("50") && CstCredito("66") && CstCredito("6") && CstCredito("501")
  {
    assert LexLess("50", "6");
    assert LexLess("6", "66");
    assert LexLess("50", "501");
    assert LexLess("501", "66");
  }

  /** Net tax, never negative. */
  function Liquido(debito: real, credito: real): (r: real)
    ensures r >= 0.0 && r >= debito - credito
    ensures debito >= credito ==> r == debito - credito
    ensures debito <= credito ==> r == 0.0
  {
    Max(0.0, debito - credito)
  }

  function Percentual(valor: real, faturamento: real): real
    requires faturamento > 0.0
  {
    valor / faturamento * 100.0
  }

  lemma {:induction false} PercentualVezes(v: real, f: real)
    requires f > 0.0
    ensures Percentual(v, f) * f == v * 100.0
  {
    assert v / f * f == v;
  }

  lemma {:induction false} PercentualSoma(a: real, b: real, f: real)
    requires f > 0.0
    ensures Percentual(a + b, f) == Percentual(a, f) + Percentual(b, f)
  {
    assert (a + b) / f == a / f + b / f;
  }

  lemma {:induction false} PercentualNaoNeg(v: real, f: real)
    requires f > 0.0 && v >= 0.0
    ensures Percentual(v, f) >= 0.0
  {
    assert v / f >= 0.0;
  }

  /** `calcularAliquotasEfetivas` for a positive turnover: each net tax as a percentage of it. */
  function AliquotasDe(d: Tributos, c: Tributos, faturamento: real): (a: Aliquotas)
    requires faturamento > 0.0
  {
    var pis := Liquido(d.pis, c.pis);
    var cofins := Liquido(d.cofins, c.cofins);
    var icms := Liquido(d.icms, c.icms);
    var ipi := Liquido(d.ipi, c.ipi);
    var iss := Liquido(d.iss, c.iss);
    Aliquotas(Percentual(pis, faturamento), Percentual(cofins, faturamento), Percentual(icms, faturamento),
              Percentual(ipi, faturamento), Percentual(iss, faturamento),
              Percentual(pis + cofins + icms + ipi + iss, faturamento))
  }

  /**
   * The rates are never negative, each one times the turnover is a hundred times its net tax,
   * and the total rate is the sum of the five.
   */
  lemma {:induction false} AliquotasProporcionais(d: Tributos, c: Tributos, faturamento: real)
    requires faturamento > 0.0
    ensures var a := AliquotasDe(d, c, faturamento);
      a.pis >= 0.0 && a.cofins >= 0.0 && a.icms >= 0.0 && a.ipi >= 0.0 && a.iss >= 0.0
      && a.total == a.pis + a.cofins + a.icms + a.ipi + a.iss
      && a.pis * faturamento == Liquido(d.pis, c.pis) * 100.0
      && a.cofins * faturamento == Liquido(d.cofins, c.cofins) * 100.0
      && a.icms * faturamento == Liquido(d.icms, c.icms) * 100.0
      && a.ipi * faturamento == Liquido(d.ipi, c.ipi) * 100.0
      && a.iss * faturamento == Liquido(d.iss, c.iss) * 100.0
  {
    var pis := Liquido(d.pis, c.pis);
    var cofins := Liquido(d.cofins, c.cofins);
    var icms := Liquido(d.icms, c.icms);
    var ipi := Liquido(d.ipi, c.ipi);
    var iss := Liquido(d.iss, c.iss);
    PercentualNaoNeg(pis, faturamento);
    PercentualNaoNeg(cofins, faturamento);
    PercentualNaoNeg(icms, faturamento);
    PercentualNaoNeg(ipi, faturamento);
    PercentualNaoNeg(iss, faturamento);
    PercentualVezes(pis, faturamento);
    PercentualVezes(cofins, faturamento);
    PercentualVezes(icms, faturamento);
    PercentualVezes(ipi, faturamento);
    PercentualVezes(iss, faturamento);
    PercentualSoma(pis, cofins, faturamento);
    PercentualSoma(pis + cofins, icms, faturamento);
    PercentualSoma(pis + cofins + icms, ipi, faturamento);
    PercentualSoma(pis + cofins + icms + ipi, iss, faturamento);
  }

  /** Financial figures the parser keeps (`dadosFinanceiros`). */
  datatype Financeiro = Financeiro(
    receitaBruta: real, receitaLiquida: real, custoTotal: real,
    despesasOperacionais: real, lucroOperacional: real, margemOperacional: real)

  /**
   * `calcularIndicadoresFinanceiros`: a missing net revenue is 95 % of the gross revenue, the
   * operating profit is net revenue less costs and expenses, and the margin is set only for a
   * positive net revenue.
   */
  function Indicadores(f: Financeiro): (g: Financeiro)
    ensures g.receitaBruta == f.receitaBruta && g.custoTotal == f.custoTotal && g.despesasOperacionais == f.despesasOperacionais
    ensures g.receitaLiquida == if f.receitaLiquida == 0.0 && f.receitaBruta > 0.0 then f.receitaBruta * 0.95 else f.receitaLiquida
    ensures g.lucroOperacional == g.receitaLiquida - f.custoTotal - f.despesasOperacionais
    ensures g.receitaLiquida > 0.0 ==> g.margemOperacional * g.receitaLiquida == g.lucroOperacional * 100.0
    ensures g.receitaLiquida <= 0.0 ==> g.margemOperacional == f.margemOperacional
  {
    var rl := if f.receitaLiquida == 0.0 && f.receitaBruta > 0.0 then f.receitaBruta * 0.95 else f.receitaLiquida;
    var lucro := rl - f.custoTotal - f.despesasOperacionais;
    var margem := if rl > 0.0 then Percentual(lucro, rl) else f.margemOperacional;
    f.(receitaLiquida := rl, lucroOperacional := lucro, margemOperacional := margem)
  }

  /** Computing the indicators twice is computing them once. */
  lemma {:induction false} IndicadoresIdempotente(f: Financeiro)
    ensures Indicadores(Indicadores(f)) == Indicadores(f)
  {
    var g := Indicadores(f);
    assert g.receitaLiquida == 0.0 ==> f.receitaBruta <= 0.0;
  }

  /** `calcularFaturamentoBase`: a positive revenue on file, else the outgoing C100 documents. */
  function FaturamentoBase(receitaFinanceira: real, receitaEmpresa: real, m: map<string, seq<Dados>>): real
  {
    if receitaFinanceira > 0.0 then receitaFinanceira
    else if receitaEmpresa > 0.0 then receitaEmpresa
    else SomaSe(Lista(m, "C100"), Saidas, "VL_DOC")
  }

  /** The turnover the rates use: `receitaBruta || receitaBrutaEmpresa || calcularFaturamentoBase()`. */
  function Faturamento(receitaFinanceira: real, receitaEmpresa: real, m: map<string, seq<Dados>>): (f: real)
    ensures receitaFinanceira != 0.0 ==> f == receitaFinanceira
    ensures receitaFinanceira == 0.0 && receitaEmpresa != 0.0 ==> f == receitaEmpresa
    ensures receitaFinanceira == 0.0 && receitaEmpresa == 0.0 ==> f == SomaSe(Lista(m, "C100"), Saidas, "VL_DOC")
  {
    if receitaFinanceira != 0.0 then receitaFinanceira
    else if receitaEmpresa != 0.0 then receitaEmpresa
    else FaturamentoBase(receitaFinanceira, receitaEmpresa, m)
  }

  // ---------------------------------------------------------------- the parser object

  class SpedParserAprimorado {
    /** Records per record code, in file order. */
    var registrosExtraidos: map<string, seq<Dados>>
    var linhasProcessadas: nat
    var registrosEncontrados: nat
    var registrosValidos: nat
    var tipoSped: Option<TipoSped>
    var debitos: Tributos
    var creditos: Tributos
    var aliquotasEfetivas: Aliquotas
    var fonteTributaria: seq<string>
    var financeiro: Financeiro
    /** `dadosEmpresa.receitaBruta`, 0 when the company record has none. */
    var receitaBrutaEmpresa: real

    /** The line counters are ordered: valid records, lines looked at, lines read. */
    ghost predicate Valid()
      reads this
    {
      registrosValidos <= registrosEncontrados <= linhasProcessadas
    }

    constructor()
      ensures Valid()
      ensures registrosExtraidos == map[] && linhasProcessadas == 0 && registrosEncontrados == 0 && registrosValidos == 0
      ensures tipoSped == None && debitos == SemTributos && creditos == SemTributos && fonteTributaria == []
      ensures aliquotasEfetivas == Aliquotas(0.0, 0.0, 0.0, 0.0, 0.0, 0.0)
      ensures financeiro == Financeiro(0.0, 0.0, 0.0, 0.0, 0.0, 0.0) && receitaBrutaEmpresa == 0.0
    {
      registrosExtraidos := map[];
      linhasProcessadas := 0;
      registrosEncontrados := 0;
      registrosValidos := 0;
      tipoSped := None;
      debitos := SemTributos;
      creditos := SemTributos;
      aliquotasEfetivas := Aliquotas(0.0, 0.0, 0.0, 0.0, 0.0, 0.0);
      fonteTributaria := [];
      financeiro := Financeiro(0.0, 0.0, 0.0, 0.0, 0.0, 0.0);
      receitaBrutaEmpresa := 0.0;
    }

    /** `adicionarRegistro`. */
    method AdicionarRegistro(r: Registro)
      modifies this`registrosExtraidos
      ensures registrosExtraidos == Adicionar(old(registrosExtraidos), r)
    {
      var tipo := r.tipo;
      if tipo !in registrosExtraidos {
        registrosExtraidos := registrosExtraidos[tipo := []];
      }
      registrosExtraidos := registrosExtraidos[tipo := registrosExtraidos[tipo] + [r.dados]];
    }

    /**
     * `processarLinhas`: every line is counted, short or empty lines are skipped, and each line
     * that yields a record adds it under its code.
     */
    method ProcessarLinhas(conteudo: string)
      requires Valid() && tipoSped.Some?
      modifies this`registrosExtraidos, this`linhasProcessadas, this`registrosEncontrados, this`registrosValidos
      ensures Valid()
      ensures var ls := Linhas(conteudo); var rs := Extraidos(ls, Mapeamento(tipoSped.value.tipo));
        linhasProcessadas == old(linhasProcessadas) + |ls|
        && registrosEncontrados == old(registrosEncontrados) + Encontrados(ls)
        && registrosValidos == old(registrosValidos) + |rs|
        && registrosExtraidos == AdicionarTodos(old(registrosExtraidos), rs)
    {
      ProcessarTodas(Linhas(conteudo), Mapeamento(tipoSped.value.tipo));
    }

    /** The loop of `processarLinhas` over the lines, with the layouts of the file's kind. */
    method ProcessarTodas(linhas: seq<string>, mapeamento: map<string, seq<string>>)
      requires Valid()
      modifies this`registrosExtraidos, this`linhasProcessadas, this`registrosEncontrados, this`registrosValidos
      ensures Valid()
      ensures var rs := Extraidos(linhas, mapeamento);
        linhasProcessadas == old(linhasProcessadas) + |linhas|
        && registrosEncontrados == old(registrosEncontrados) + Encontrados(linhas)
        && registrosValidos == old(registrosValidos) + |rs|
        && registrosExtraidos == AdicionarTodos(old(registrosExtraidos), rs)
    {
      var i := 0;
      ghost var feitos: seq<Registro> := [];
      while i < |linhas|
        invariant 0 <= i <= |linhas|
        invariant feitos == Extraidos(linhas[..i], mapeamento)
        invariant linhasProcessadas == old(linhasProcessadas) + i
        invariant registrosEncontrados == old(registrosEncontrados) + Encontrados(linhas[..i])
        invariant registrosValidos == old(registrosValidos) + |feitos|
        invariant registrosExtraidos == AdicionarTodos(old(registrosExtraidos), feitos)
        invariant Valid()
      {
        ghost var e := Extraido(linhas[i], mapeamento);
        LinhasPasso(linhas, i, mapeamento);
        ExtraidosLimite(linhas[..i + 1], mapeamento);
        AdicionarExtraido(old(registrosExtraidos), feitos, e);
        ProcessarUmaLinha(linhas[i], mapeamento);
        feitos := feitos + e;
        i := i + 1;
      }
      assert linhas[..|linhas|] == linhas;
    }

    /** One pass of the loop of `processarLinhas`: the line is counted and may yield a record. */
    method ProcessarUmaLinha(bruta: string, mapeamento: map<string, seq<string>>)
      requires Valid()
      modifies this`registrosExtraidos, this`linhasProcessadas, this`registrosEncontrados, this`registrosValidos
      ensures var e := Extraido(bruta, mapeamento);
        linhasProcessadas == old(linhasProcessadas) + 1
        && registrosEncontrados == old(registrosEncontrados) + (if Considerada(bruta) then 1 else 0)
        && registrosValidos == old(registrosValidos) + |e|
        && registrosExtraidos == (if e == [] then old(registrosExtraidos) else Adicionar(old(registrosExtraidos), e[0]))
    {
      var linha := Trim(bruta);
      linhasProcessadas := linhasProcessadas + 1;
      if |linha| >= 5 {
        var registro := ProcessarLinha(linha, mapeamento);
        if registro.Some? {
          AdicionarRegistro(registro.value);
          registrosValidos := registrosValidos + 1;
        }
        registrosEncontrados := registrosEncontrados + 1;
      }
    }

    /** `extrairTributariosFiscal`: E110, E210, C100 and C170 add to the debits and credits. */
    method ExtrairTributariosFiscal()
      modifies this`debitos, this`creditos, this`fonteTributaria
      ensures debitos == Somar(old(debitos), DebitosFiscal(registrosExtraidos))
      ensures creditos == Somar(old(creditos), CreditosFiscal(registrosExtraidos))
      ensures fonteTributaria == FontesFiscal(old(fonteTributaria), registrosExtraidos)
    {
      var deb, cred := TributosFiscal(registrosExtraidos);
      var fontes := RegistrarFontesFiscal(registrosExtraidos, fonteTributaria);
      debitos := Somar(debitos, deb);
      creditos := Somar(creditos, cred);
      fonteTributaria := fontes;
    }

    /** `extrairTributariosContribuicoes`: M200, M600, M100, M500, C170 and F100 add to PIS and COFINS. */
    method ExtrairTributariosContribuicoes()
      modifies this`debitos, this`creditos, this`fonteTributaria
      ensures debitos == Somar(old(debitos), DebitosContribuicoes(registrosExtraidos))
      ensures creditos == Somar(old(creditos), CreditosContribuicoes(registrosExtraidos))
      ensures fonteTributaria == FontesContribuicoes(old(fonteTributaria), registrosExtraidos)
    {
      var deb, cred := TributosContribuicoes(registrosExtraidos);
      var fontes := RegistrarFontesContribuicoes(registrosExtraidos, fonteTributaria);
      debitos := Somar(debitos, deb);
      creditos := Somar(creditos, cred);
      fonteTributaria := fontes;
    }

    /** `calcularFaturamentoBase`. */
    method CalcularFaturamentoBase() returns (faturamento: real)
      ensures faturamento == FaturamentoBase(financeiro.receitaBruta, receitaBrutaEmpresa, registrosExtraidos)
    {
      if financeiro.receitaBruta > 0.0 {
        faturamento := financeiro.receitaBruta;
      } else if receitaBrutaEmpresa > 0.0 {
        faturamento := receitaBrutaEmpresa;
      } else {
        var ignorado;
        faturamento, ignorado := SomarPar(Lista(registrosExtraidos, "C100"), Saidas, "VL_DOC", Saidas, "VL_DOC");
      }
    }

    /** `calcularAliquotasEfetivas`: the rates change only for a positive turnover. */
    method CalcularAliquotasEfetivas()
      modifies this`aliquotasEfetivas
      ensures var f := Faturamento(financeiro.receitaBruta, receitaBrutaEmpresa, registrosExtraidos);
        (f > 0.0 ==> aliquotasEfetivas == AliquotasDe(debitos, creditos, f))
        && (f <= 0.0 ==> aliquotasEfetivas == old(aliquotasEfetivas))
    {
      var faturamento: real;
      if financeiro.receitaBruta != 0.0 {
        faturamento := financeiro.receitaBruta;
      } else if receitaBrutaEmpresa != 0.0 {
        faturamento := receitaBrutaEmpresa;
      } else {
        faturamento := CalcularFaturamentoBase();
      }
      if faturamento > 0.0 {
        aliquotasEfetivas := AliquotasDe(debitos, creditos, faturamento);
      }
    }

    /** `extrairDadosTributarios`: start from zero, add the file's taxes, then compute the rates. */
    method ExtrairDadosTributarios()
      requires tipoSped.Some?
      modifies this`debitos, this`creditos, this`fonteTributaria, this`aliquotasEfetivas
      ensures var k := tipoSped.value.tipo;
        debitos == DebitosDe(k, registrosExtraidos) && creditos == CreditosDe(k, registrosExtraidos)
        && fonteTributaria == FontesDe(k, registrosExtraidos)
      ensures var f := Faturamento(financeiro.receitaBruta, receitaBrutaEmpresa, registrosExtraidos);
        aliquotasEfetivas == if f > 0.0 then AliquotasDe(debitos, creditos, f) else Aliquotas(0.0, 0.0, 0.0, 0.0, 0.0, 0.0)
    {
      debitos := SemTributos;
      creditos := SemTributos;
      aliquotasEfetivas := Aliquotas(0.0, 0.0, 0.0, 0.0, 0.0, 0.0);
      fonteTributaria := [];
      ExtrairPorTipo();
      CalcularAliquotasEfetivas();
    }

    /** The `switch` of `extrairDadosTributarios`, run on zeroed totals: only fiscal and contributions files add taxes. */
    method ExtrairPorTipo()
      requires tipoSped.Some? && debitos == SemTributos && creditos == SemTributos && fonteTributaria == []
      modifies this`debitos, this`creditos, this`fonteTributaria
      ensures var k := tipoSped.value.tipo;
        debitos == DebitosDe(k, registrosExtraidos) && creditos == CreditosDe(k, registrosExtraidos)
        && fonteTributaria == FontesDe(k, registrosExtraidos)
    {
      match tipoSped.value.tipo {
        case Fiscal =>
          ExtrairTributariosFiscal();
          SomarNeutro(DebitosFiscal(registrosExtraidos), SemTributos, SemTributos);
          SomarNeutro(CreditosFiscal(registrosExtraidos), SemTributos, SemTributos);
        case Contribuicoes =>
          ExtrairTributariosContribuicoes();
          SomarNeutro(DebitosContribuicoes(registrosExtraidos), SemTributos, SemTributos);
          SomarNeutro(CreditosContribuicoes(registrosExtraidos), SemTributos, SemTributos);
        case _ =>
      }
    }

    /** `calcularIndicadoresFinanceiros`. */
    method CalcularIndicadoresFinanceiros()
      modifies this`financeiro
      ensures financeiro == Indicadores(old(financeiro))
    {
      if financeiro.receitaLiquida == 0.0 && financeiro.receitaBruta > 0.0 {
        financeiro := financeiro.(receitaLiquida := financeiro.receitaBruta * 0.95);
      }
      financeiro := financeiro.(lucroOperacional := financeiro.receitaLiquida - financeiro.custoTotal - financeiro.despesasOperacionais);
      if financeiro.receitaLiquida > 0.0 {
        financeiro := financeiro.(margemOperacional := financeiro.lucroOperacional / financeiro.receitaLiquida * 100.0);
      }
    }
  }

  /** The passes of `extrairTributariosFiscal` over the records of a fiscal file. */
  method TributosFiscal(m: map<string, seq<Dados>>) returns (deb: Tributos, cred: Tributos)
    ensures deb == DebitosFiscal(m) && cred == CreditosFiscal(m)
  {
    var debIcms, credIcms := SomarPar(Lista(m, "E110"), Todos, "VL_TOT_DEBITOS", Todos, "VL_TOT_CREDITOS");
    var debIpi, credIpi := SomarPar(Lista(m, "E210"), Todos, "VL_TOT_DEBITOS_IPI", Todos, "VL_TOT_CREDITOS_IPI");
    var d, c := SomarC100(Lista(m, "C100"));
    var credPis, credCofins := SomarPar(Lista(m, "C170"), CstPis, "VL_PIS", CstCofins, "VL_COFINS");
    deb := Tributos(d.pis, d.cofins, debIcms, debIpi, 0.0);
    cred := Tributos(c.pis + credPis, c.cofins + credCofins, credIcms + c.icms, credIpi + c.ipi, 0.0);
  }

  /** The sources `extrairTributariosFiscal` records: E110, E210 and C100, when present. */
  method RegistrarFontesFiscal(m: map<string, seq<Dados>>, fontes0: seq<string>) returns (fontes: seq<string>)
    ensures fontes == FontesFiscal(fontes0, m)
  {
    fontes := fontes0;
    if "E110" in m {
      fontes := fontes + ["SPED Fiscal - E110"];
    }
    if "E210" in m {
      fontes := fontes + ["SPED Fiscal - E210"];
    }
    if "C100" in m {
      fontes := fontes + ["SPED Fiscal - C100"];
    }
  }

  /** The passes of `extrairTributariosContribuicoes` over the records of a contributions file. */
  method TributosContribuicoes(m: map<string, seq<Dados>>) returns (deb: Tributos, cred: Tributos)
    ensures deb == DebitosContribuicoes(m) && cred == CreditosContribuicoes(m)
  {
    var pisNc, pisCum := SomarPar(Lista(m, "M200"), Todos, "VL_TOT_CONT_NC_PER", Todos, "VL_TOT_CONT_CUM_PER");
    var cofinsNc, cofinsCum := SomarPar(Lista(m, "M600"), Todos, "VL_TOT_CONT_NC_PER", Todos, "VL_TOT_CONT_CUM_PER");
    var credM100, _ := SomarPar(Lista(m, "M100"), Todos, "VL_CRED", Todos, "VL_CRED");
    var credM500, _ := SomarPar(Lista(m, "M500"), Todos, "VL_CRED", Todos, "VL_CRED");
    var credPis, credCofins := SomarPar(Lista(m, "C170"), ComCredPis, "VL_CRED_PIS", ComCredCofins, "VL_CRED_COFINS");
    var ent, sai := SomarF100(Lista(m, "F100"));
    deb := Tributos(pisNc + pisCum + sai.pis, cofinsNc + cofinsCum + sai.cofins, 0.0, 0.0, 0.0);
    cred := Tributos(credM100 + credPis + ent.pis, credM500 + credCofins + ent.cofins, 0.0, 0.0, 0.0);
  }

  /** The sources `extrairTributariosContribuicoes` records: M200, M600, M100, M500 and F100, when present. */
  method RegistrarFontesContribuicoes(m: map<string, seq<Dados>>, fontes0: seq<string>) returns (fontes: seq<string>)
    ensures fontes == FontesContribuicoes(fontes0, m)
  {
    fontes := fontes0;
    if "M200" in m {
      fontes := fontes + ["SPED Contribuições - M200"];
    }
    if "M600" in m {
      fontes := fontes + ["SPED Contribuições - M600"];
    }
    if "M100" in m {
      fontes := fontes + ["SPED Contribuições - M100"];
    }
    if "M500" in m {
      fontes := fontes + ["SPED Contribuições - M500"];
    }
    if "F100" in m {
      fontes := fontes + ["SPED Contribuições - F100"];
    }
  }

  /** One pass over records, summing field `a` where `p` holds and field `b` where `q` holds. */
  method SomarPar(recs: seq<Dados>, p: Filtro, a: string, q: Filtro, b: string) returns (sa: real, sb: real)
    ensures sa == SomaSe(recs, p, a) && sb == SomaSe(recs, q, b)
  {
    sa, sb := 0.0, 0.0;
    var i := 0;
    while i < |recs|
      invariant 0 <= i <= |recs|
      invariant sa == SomaSe(recs[..i], p, a) && sb == SomaSe(recs[..i], q, b)
    {
      SomaSePasso(recs, i, p, a);
      SomaSePasso(recs, i, q, b);
      if Passa(p, recs[i]) {
        sa := sa + Num(recs[i], a);
      }
      if Passa(q, recs[i]) {
        sb := sb + Num(recs[i], b);
      }
      i := i + 1;
    }
    assert recs[..|recs|] == recs;
  }

  /** The C100 pass of the fiscal extraction: cancelled documents skipped, incoming credited, outgoing debited. */
  method SomarC100(recs: seq<Dados>) returns (deb: Tributos, cred: Tributos)
    ensures deb.pis == SomaSe(recs, SaidasValidas, "VL_PIS") && deb.cofins == SomaSe(recs, SaidasValidas, "VL_COFINS")
    ensures cred.pis == SomaSe(recs, EntradasValidas, "VL_PIS") && cred.cofins == SomaSe(recs, EntradasValidas, "VL_COFINS")
    ensures cred.icms == SomaSe(recs, EntradasValidas, "VL_ICMS") && cred.ipi == SomaSe(recs, EntradasValidas, "VL_IPI")
  {
    deb, cred := SemTributos, SemTributos;
    var i := 0;
    while i < |recs|
      invariant 0 <= i <= |recs|
      invariant deb.pis == SomaSe(recs[..i], SaidasValidas, "VL_PIS") && deb.cofins == SomaSe(recs[..i], SaidasValidas, "VL_COFINS")
      invariant cred.pis == SomaSe(recs[..i], EntradasValidas, "VL_PIS") && cred.cofins == SomaSe(recs[..i], EntradasValidas, "VL_COFINS")
      invariant cred.icms == SomaSe(recs[..i], EntradasValidas, "VL_ICMS") && cred.ipi == SomaSe(recs[..i], EntradasValidas, "VL_IPI")
    {
      var r := recs[i];
      SomaSePasso(recs, i, SaidasValidas, "VL_PIS");
      SomaSePasso(recs, i, SaidasValidas, "VL_COFINS");
      SomaSePasso(recs, i, EntradasValidas, "VL_PIS");
      SomaSePasso(recs, i, EntradasValidas, "VL_COFINS");
      SomaSePasso(recs, i, EntradasValidas, "VL_ICMS");
      SomaSePasso(recs, i, EntradasValidas, "VL_IPI");
      if !Cancelado(r) {
        if Get(r, "IND_OPER") == "0" {
          cred := cred.(icms := cred.icms + Num(r, "VL_ICMS"), ipi := cred.ipi + Num(r, "VL_IPI"),
                        pis := cred.pis + Num(r, "VL_PIS"), cofins := cred.cofins + Num(r, "VL_COFINS"));
        } else if Get(r, "IND_OPER") == "1" {
          deb := deb.(pis := deb.pis + Num(r, "VL_PIS"), cofins := deb.cofins + Num(r, "VL_COFINS"));
        }
      }
      i := i + 1;
    }
    assert recs[..|recs|] == recs;
  }

  /** The F100 pass: incoming operations credit PIS/COFINS, outgoing ones debit them. */
  method SomarF100(recs: seq<Dados>) returns (ent: Tributos, sai: Tributos)
    ensures ent.pis == SomaSe(recs, Entradas, "VL_PIS") && ent.cofins == SomaSe(recs, Entradas, "VL_COFINS")
    ensures sai.pis == SomaSe(recs, Saidas, "VL_PIS") && sai.cofins == SomaSe(recs, Saidas, "VL_COFINS")
  {
    ent, sai := SemTributos, SemTributos;
    var i := 0;
    while i < |recs|
      invariant 0 <= i <= |recs|
      invariant ent.pis == SomaSe(recs[..i], Entradas, "VL_PIS") && ent.cofins == SomaSe(recs[..i], Entradas, "VL_COFINS")
      invariant sai.pis == SomaSe(recs[..i], Saidas, "VL_PIS") && sai.cofins == SomaSe(recs[..i], Saidas, "VL_COFINS")
    {
      var r := recs[i];
      SomaSePasso(recs, i, Entradas, "VL_PIS");
      SomaSePasso(recs, i, Entradas, "VL_COFINS");
      SomaSePasso(recs, i, Saidas, "VL_PIS");
      SomaSePasso(recs, i, Saidas, "VL_COFINS");
      if Get(r, "IND_OPER") == "0" {
        ent := ent.(pis := ent.pis + Num(r, "VL_PIS"), cofins := ent.cofins + Num(r, "VL_COFINS"));
      } else if Get(r, "IND_OPER") == "1" {
        sai := sai.(pis := sai.pis + Num(r, "VL_PIS"), cofins := sai.cofins + Num(r, "VL_COFINS"));
      }
      i := i + 1;
    }
    assert recs[..|recs|] == recs;
  }

  /** Without a layout for M500, no M500 line ever becomes a record of a contributions file. */
  lemma {:induction false} LinhaM500Ignorada(linha: string)
    requires |Split(linha, '|')| >= 2 && Split(linha, '|')[1] == "M500"
    ensures LinhaRegistro(linha, Mapeamento(Contribuicoes)) == None
  {
    SemLayoutM500();
  }

  /** The contributions layouts have no entry for M500. */
  lemma {:induction false} SemLayoutM500()
    ensures "M500" !in Mapeamento(Contribuicoes)
  {
    assert "M500"[1] == '5' && "M505"[3] == '5' && "M510"[2] == '1' && "M515"[2] == '1';
    assert Mapeamento(Contribuicoes) == RegistrosContribuicoes;
  }

  // ---------------------------------------------------------------- file validation

  datatype ErroArquivo = ArquivoVazio | ArquivoMuitoGrande(tamanho: nat)
  datatype Validacao = Validacao(valido: bool, erros: seq<ErroArquivo>, avisos: seq<string>)

  /** The text after the last `.` of the lower-cased name (the whole name when there is none). */
  function Extensao(nome: string): string
  {
    var partes := Split(ToLower(nome), '.');
    partes[|partes| - 1]
  }

  /**
   * `validarArquivoSped`: an empty file or one over 500 MB is invalid, with one error for each
   * reason; an extension other than `txt` or `sped` only adds a warning naming it.
   */
  function ValidarArquivoSped(tamanho: nat, nome: string): (v: Validacao)
    ensures v.valido <==> 0 < tamanho <= TamanhoMaximoArquivo
    ensures (ArquivoVazio in v.erros <==> tamanho == 0) && (|v.erros| <= 1)
    ensures (v.erros == [] <==> v.valido)
    ensures (v.avisos == [] <==> Extensao(nome) == "txt" || Extensao(nome) == "sped")
    ensures v.avisos != [] ==> v.avisos == [Extensao(nome)]
  {
    var erros := (if tamanho == 0 then [ArquivoVazio] else [])
                 + (if tamanho > TamanhoMaximoArquivo then [ArquivoMuitoGrande(tamanho)] else []);
    var ext := Extensao(nome);
    Validacao(erros == [], erros, if ext == "txt" || ext == "sped" then [] else [ext])
  }

  /** The error list of the result: the first 50 errors. */
  function ErrosExpostos<T>(erros: seq<T>): (r: seq<T>)
    ensures |r| <= 50 && |r| <= |erros| && r == erros[..|r|]
    ensures |erros| <= 50 ==> r == erros
    ensures |erros| > 50 ==> |r| == 50
  {
    if |erros| <= 50 then erros else erros[..50]
  }

  // ---------------------------------------------------------------- layouts

  /** The C100 layout, shared by the fiscal and the contributions files. */
  const LayoutC100: seq<string> := ["REG", "IND_OPER", "IND_EMIT", "COD_PART", "COD_MOD", "COD_SIT", "SER", "NUM_DOC", "CHV_NFE", "DT_DOC", "DT_E_S", "VL_DOC", "IND_PGTO", "VL_DESC", "VL_ABAT_NT", "VL_MERC", "IND_FRT", "VL_FRT", "VL_SEG", "VL_OUT_DA", "VL_BC_ICMS", "VL_ICMS", "VL_BC_ICMS_ST", "VL_ICMS_ST", "VL_IPI", "VL_PIS", "VL_COFINS", "VL_PIS_ST", "VL_COFINS_ST"]

  const RegistrosFiscal: map<string, seq<string>> := map[
    "0000" := ["REG", "COD_VER", "COD_FIN", "DT_INI", "DT_FIN", "NOME", "CNPJ", "CPF", "UF", "IE", "COD_MUN", "IM", "SUFRAMA"],
    "0001" := ["REG", "IND_MOV"],
    "0005" := ["REG", "FANTASIA", "CEP", "END", "NUM", "COMPL", "BAIRRO", "FONE", "FAX", "EMAIL"],
    "0200" := ["REG", "COD_ITEM", "DESCR_ITEM", "COD_BARRA", "COD_ANT_ITEM", "UNID_INV", "TIPO_ITEM", "COD_NCM", "EX_IPI", "COD_GEN", "COD_LST", "ALIQ_ICMS"],
    "C100" := LayoutC100,
    "C170" := ["REG", "NUM_ITEM", "COD_ITEM", "DESCR_COMPL", "QTD", "UNID", "VL_ITEM", "VL_DESC", "IND_MOV", "CST_ICMS", "CFOP", "COD_NAT", "VL_BC_ICMS", "ALIQ_ICMS", "VL_ICMS", "VL_BC_ICMS_ST", "ALIQ_ST", "VL_ICMS_ST", "IND_APUR", "CST_IPI", "COD_ENQ", "VL_BC_IPI", "ALIQ_IPI", "VL_IPI", "CST_PIS", "VL_BC_PIS", "ALIQ_PIS", "QUANT_BC_PIS", "ALIQ_PIS_QUANT", "VL_PIS", "CST_COFINS", "VL_BC_COFINS", "ALIQ_COFINS", "QUANT_BC_COFINS", "ALIQ_COFINS_QUANT", "VL_COFINS", "COD_CTA"],
    "C300" := ["REG", "COD_MOD", "SER", "SUB", "NUM_DOC_INI", "NUM_DOC_FIN", "DT_DOC", "VL_DOC", "VL_PIS", "VL_COFINS", "COD_CTA"],
    "C370" := ["REG", "NUM_ITEM", "COD_ITEM", "QTD", "UNID", "VL_ITEM", "VL_DESC", "CST_ICMS", "CFOP", "VL_BC_ICMS", "ALIQ_ICMS", "VL_ICMS", "VL_BC_ICMS_ST", "ALIQ_ST", "VL_ICMS_ST", "VL_BC_IPI", "ALIQ_IPI", "VL_IPI", "CST_PIS", "VL_BC_PIS", "ALIQ_PIS", "VL_PIS", "CST_COFINS", "VL_BC_COFINS", "ALIQ_COFINS", "VL_COFINS"],
    "E110" := ["REG", "VL_TOT_DEBITOS", "VL_AJ_DEBITOS", "VL_TOT_AJ_DEBITOS", "VL_ESTORNOS_CRED", "VL_TOT_CREDITOS", "VL_AJ_CREDITOS", "VL_TOT_AJ_CREDITOS", "VL_ESTORNOS_DEB", "VL_SLD_CREDOR_ANT", "VL_SLD_APURADO", "VL_TOT_DED", "VL_ICMS_RECOLHER", "VL_SLD_CREDOR_TRANSPORTAR", "DEB_ESP"],
    "E111" := ["REG", "COD_AJ_APUR", "DESCR_COMPL_AJ", "VL_AJ_APUR"],
    "E116" := ["REG", "COD_OR", "VL_OR", "DT_VCTO", "COD_REC", "NUM_PROC", "IND_PROC", "PROC", "TXT_COMPL", "MES_REF"],
    "E200" := ["REG", "UF", "DT_INI", "DT_FIN"],
    "E210" := ["REG", "IND_MOV_IPI", "VL_SLD_CRED_ANT_IPI", "VL_TOT_DEBITOS_IPI", "VL_OUT_DEB_IPI", "VL_TOT_CREDITOS_IPI", "VL_OUT_CRED_IPI", "VL_SLD_DEVEDOR_IPI", "VL_SLD_CRED_IPI_A_TRANSP", "DEB_ESP_IPI"]
  ]

  const RegistrosContribuicoes: map<string, seq<string>> := map[
    "0000" := ["REG", "COD_VER", "TIPO_ESCRIT", "IND_SIT_ESP", "NUM_REC_ANTERIOR", "DT_INI", "DT_FIN", "NOME", "CNPJ", "UF", "IE", "COD_MUN", "SUFRAMA", "IND_NAT_PJ", "IND_ATIV"],
    "A100" := ["REG", "IND_OPER", "IND_EMIT", "COD_PART", "COD_SIT", "SER", "SUB", "NUM_DOC", "CHV_NFSE", "DT_DOC", "DT_E_S", "VL_DOC", "IND_PGTO", "VL_DESC", "VL_SERV", "VL_SERV_NT", "VL_TERC", "VL_DA", "VL_BC_ICMS", "VL_ICMS", "VL_BC_ICMS_ST", "VL_ICMS_ST", "COD_INF_COMPL", "VL_PIS", "VL_COFINS"],
    "A110" := ["REG", "COD_INF", "TXT_COMPL"],
    "A120" := ["REG", "VL_TOT_SERV", "VL_BC_PIS", "VL_PIS_IMP", "DT_PAG_PIS", "VL_BC_COFINS", "VL_COFINS_IMP", "DT_PAG_COFINS", "LOC_EXE_SERV"],
    "A200" := ["REG", "NUM_CAMPO", "COD_REC", "VL_REC_BRT", "VL_BC_CONT", "VL_AJUS_ACRES", "VL_AJUS_REDUC", "VL_BC_CONT_AJUS", "ALIQ_PIS", "QUANT_BC_PIS", "ALIQ_PIS_QUANT", "VL_CONT", "VL_AJUS_ACRES", "VL_AJUS_REDUC", "VL_CONT_DIFER", "VL_CONT_DIFER_ANT", "VL_CONT_PER"],
    "C100" := LayoutC100,
    "C170" := ["REG", "NUM_ITEM", "COD_ITEM", "DESCR_COMPL", "QTD", "UNID", "VL_ITEM", "VL_DESC", "IND_MOV", "CST_ICMS", "CFOP", "COD_NAT", "VL_BC_ICMS", "ALIQ_ICMS", "VL_ICMS", "VL_BC_ICMS_ST", "ALIQ_ST", "VL_ICMS_ST", "IND_APUR", "CST_IPI", "COD_ENQ", "VL_BC_IPI", "ALIQ_IPI", "VL_IPI", "CST_PIS", "VL_BC_PIS", "ALIQ_PIS", "QUANT_BC_PIS", "ALIQ_PIS_QUANT", "VL_PIS", "VL_CRED_PIS", "CST_COFINS", "VL_BC_COFINS", "ALIQ_COFINS", "QUANT_BC_COFINS", "ALIQ_COFINS_QUANT", "VL_COFINS", "VL_CRED_COFINS", "COD_CTA"],
    "M100" := ["REG", "COD_CRED", "IND_CRED_ORI", "VL_BC_PIS", "ALIQ_PIS", "QUANT_BC_PIS", "ALIQ_PIS_QUANT", "VL_CRED", "VL_AJUS_ACRES", "VL_AJUS_REDUC", "VL_CRED_DIF", "VL_CRED_DISP", "IND_DESC_CRED", "VL_CRED_DESC", "SLD_CRED"],
    "M200" := ["REG", "VL_TOT_CONT_NC_PER", "VL_TOT_CRED_DESC", "VL_TOT_CRED_DESC_ANT", "VL_TOT_CONT_NC_DEV", "VL_RET_NC", "VL_OUT_DED_NC", "VL_CONT_NC_REC", "VL_TOT_CONT_CUM_PER", "VL_RET_CUM", "VL_OUT_DED_CUM", "VL_CONT_CUM_REC", "VL_TOT_CONT_REC"],
    "M210" := ["REG", "COD_CONT", "VL_REC_BRT", "VL_BC_CONT", "ALIQ_PIS", "QUANT_BC_PIS", "ALIQ_PIS_QUANT", "VL_CONT", "VL_AJUS_ACRES", "VL_AJUS_REDUC", "VL_CONT_DIFER", "VL_CONT_DIFER_ANT", "VL_CONT_PER"],
    "M600" := ["REG", "VL_TOT_CONT_NC_PER", "VL_TOT_CRED_DESC", "VL_TOT_CRED_DESC_ANT", "VL_TOT_CONT_NC_DEV", "VL_RET_NC", "VL_OUT_DED_NC", "VL_CONT_NC_REC", "VL_TOT_CONT_CUM_PER", "VL_RET_CUM", "VL_OUT_DED_CUM", "VL_CONT_CUM_REC", "VL_TOT_CONT_REC"],
    "M605" := ["REG", "NAT_BC_CRED", "CST_COFINS", "VL_BC_COFINS_TOT", "VL_BC_COFINS_CUM", "VL_BC_COFINS_NC", "VL_BC_COFINS", "QUANT_BC_COFINS_TOT", "QUANT_BC_COFINS", "DESC_CRED"],
    "M610" := ["REG", "COD_CONT", "VL_REC_BRT", "VL_BC_CONT", "ALIQ_COFINS", "QUANT_BC_COFINS", "ALIQ_COFINS_QUANT", "VL_CONT", "VL_AJUS_ACRES", "VL_AJUS_REDUC", "VL_CONT_DIFER", "VL_CONT_DIFER_ANT", "VL_CONT_PER"],
    "C191" := ["REG", "CNPJ_CPF_PART", "CST_PIS", "CFOP", "VL_ITEM", "VL_DESC", "VL_BC_PIS", "ALIQ_PIS", "QUANT_BC_PIS", "ALIQ_PIS_QUANT", "VL_PIS", "CST_COFINS", "VL_BC_COFINS", "ALIQ_COFINS", "QUANT_BC_COFINS", "ALIQ_COFINS_QUANT", "VL_COFINS", "COD_CTA"],
    "C195" := ["REG", "CNPJ_CPF_PART", "CST_PIS", "CFOP", "VL_ITEM", "VL_DESC", "VL_BC_PIS", "ALIQ_PIS", "QUANT_BC_PIS", "ALIQ_PIS_QUANT", "VL_PIS", "CST_COFINS", "VL_BC_COFINS", "ALIQ_COFINS", "QUANT_BC_COFINS", "ALIQ_COFINS_QUANT", "VL_COFINS", "COD_CTA"],
    "D100" := ["REG", "IND_OPER", "IND_EMIT", "COD_PART", "COD_MOD", "COD_SIT", "SER", "SUB", "NUM_DOC", "CHV_CTE", "DT_DOC", "DT_A_P", "TP_CT_E", "CHV_CTE_REF", "VL_DOC", "VL_DESC", "IND_FRT", "VL_SERV", "VL_BC_ICMS", "VL_ICMS", "VL_NT", "COD_INF", "COD_CTA"],
    "D101" := ["REG", "IND_NAT_FRT", "VL_ITEM", "CST_PIS", "NAT_BC_CRED", "VL_BC_PIS", "ALIQ_PIS", "VL_PIS", "CST_COFINS", "VL_BC_COFINS", "ALIQ_COFINS", "VL_COFINS", "COD_CTA"],
    "F100" := ["REG", "IND_OPER", "COD_PART", "COD_ITEM", "DT_OPER", "VL_OPER", "CST_PIS", "VL_BC_PIS", "ALIQ_PIS", "VL_PIS", "CST_COFINS", "VL_BC_COFINS", "ALIQ_COFINS", "VL_COFINS", "NAT_BC_CRED", "IND_ORIG_CRED", "COD_CTA", "COD_CCUS", "DESC_DOC_OPER"],
    "M105" := ["REG", "NAT_BC_CRED", "CST_PIS", "VL_BC_PIS_TOT", "VL_BC_PIS_CUM", "VL_BC_PIS_NC", "VL_BC_PIS", "QUANT_BC_PIS_TOT", "QUANT_BC_PIS", "DESC_CRED"],
    "M110" := ["REG", "IND_AJ", "VL_AJ", "COD_AJ", "NUM_DOC", "DESCR_AJ", "DT_REF"],
    "M115" := ["REG", "DET_VALOR_AJ", "CST_PIS", "DET_BC_CRED", "DET_ALIQ", "DT_OPER_AJ", "DESC_AJ", "COD_CTA", "INFO_COMPL"],
    "M505" := ["REG", "NAT_BC_CRED", "CST_COFINS", "VL_BC_COFINS_TOT", "VL_BC_COFINS_CUM", "VL_BC_COFINS_NC", "VL_BC_COFINS", "QUANT_BC_COFINS_TOT", "QUANT_BC_COFINS", "DESC_CRED"],
    "M510" := ["REG", "IND_AJ", "VL_AJ", "COD_AJ", "NUM_DOC", "DESCR_AJ", "DT_REF"],
    "M515" := ["REG", "DET_VALOR_AJ", "CST_COFINS", "DET_BC_CRED", "DET_ALIQ", "DT_OPER_AJ", "DESC_AJ", "COD_CTA", "INFO_COMPL"]
  ]

  const RegistrosEcf: map<string, seq<string>> := map[
    "J001" := ["REG", "NUM_ORD", "NAT_LIVR", "NOME", "NIRE", "CNPJ", "DT_ARQ", "DT_ARQ_CONV", "DESC_MUN", "VL_REC_BRT"],
    "J100" := ["REG", "COD_AGL", "NIVEL_AGL", "IND_GRP_BAL", "DESCR_COD_AGL", "VL_CTA_INI_PER", "IND_DC_INI_PER", "VL_CTA_FIN_PER", "IND_DC_FIN_PER"],
    "J150" := ["REG", "COD_AGL", "NIVEL_AGL", "DESCR_COD_AGL", "VL_CTA", "IND_VL"],
    "J200" := ["REG", "COD_HISTR_FAT_GER", "VAL_FAT_CONT", "IND_VAL_FAT_CONT", "VAL_EXC_BC_EAC", "IND_VAL_EXC_BC_EAC", "VAL_EXC_BC_SUSP", "IND_VAL_EXC_BC_SUSP", "VAL_BC_EAC", "IND_VAL_BC_EAC", "VAL_BC_EAC_ADC", "IND_VAL_BC_EAC_ADC", "VAL_EAC", "IND_VAL_EAC", "VAL_EAC_ADC", "IND_VAL_EAC_ADC"],
    "J210" := ["REG", "IND_TIP_INFO_ADIC", "VL_INF_ADIC", "DESCR_COMPL_AJ", "VL_AJ", "IND_VL_AJ"],
    "J930" := ["REG", "IDENT_NOM", "IDENT_CPF_CNPJ", "IND_RESP_LEGAL", "IDENT_QUALIF", "COD_ASSIN_DIG", "IND_CRC", "EMAIL", "FONE", "UF_CRC", "NUM_SEQ_CRC", "DT_CRC"],
    "L100" := ["REG", "DT_INI", "DT_FIN", "TIPO_ESCR", "COD_QUAL_PJ", "COD_FORM_TRIB", "FORMA_TRIB", "PERIODO_PREV", "OPT_REFIS", "OPT_PAES", "FORMA_APUR"],
    "L200" := ["REG", "IND_TIT_UTIL", "TIT_UTIL"],
    "L210" := ["REG", "CODIGO", "DESCRICAO", "VALOR", "IND_VALOR"],
    "L300" := ["REG", "CODIGO", "DESCRICAO", "VALOR", "IND_VALOR"]
  ]

  const RegistrosEcd: map<string, seq<string>> := map[
    "I001" := ["REG", "NUM_ORD", "NAT_LIVR", "NOME", "NIRE", "CNPJ", "DT_ARQ", "DT_ARQ_CONV", "SIT_ESP", "MOEDA", "VL_CAP", "IND_ATIV", "QTDE_SCP"],
    "I010" := ["REG", "IND_ESC", "COD_VER_LC"],
    "I012" := ["REG", "NUM_ORD", "NAT_LIVR", "TIPO_ESC", "COD_ESC_DETAL", "NUM_ESC", "DESCR_ESC"],
    "J100" := ["REG", "DT_ALT", "COD_CCUS", "COD_CTA", "COD_CTA_SUP", "COD_NAT_CC", "IND_CTA", "NIVEL", "COD_GRP_CTA", "NOME_CTA"],
    "J150" := ["REG", "NIVEL", "COD_CTA", "COD_CTA_SUP", "COD_CTA_INF", "VL_SLD_INI", "IND_DC_INI", "VL_DEB", "VL_CRED", "VL_SLD_FIN", "IND_DC_FIN"],
    "J800" := ["REG", "ARQ_RTF", "IND_FIN_RTF"],
    "J801" := ["REG", "DESCR_UND_HASH", "HASH_UND"],
    "J900" := ["REG", "DNRC_ENC", "DNRC_INI", "DNRC_FIN", "NOME_AC", "COD_QUALIF_AC", "CNPJ_AC", "CRC_AC", "EMAIL_AC", "FONE_AC", "UF_CRC_AC", "NUM_SEQ_CRC_AC", "DT_CRC_AC"],
    "J930" := ["REG", "IDENT_NOM", "IDENT_CPF_CNPJ", "IND_CRC", "EMAIL", "FONE", "UF_CRC", "NUM_SEQ_CRC", "DT_CRC"],
    "I050" := ["REG", "DT_ALT", "COD_NAT", "IND_CTA", "NIVEL", "COD_CTA", "COD_CTA_SUP", "CTA"],
    "I051" := ["REG", "COD_ENT_REF", "COD_CCUS", "COD_CTA_REF"],
    "I052" := ["REG", "COD_CCUS", "COD_AGL"],
    "I053" := ["REG", "COD_IDT", "COD_CNT_CORR", "NAT_SUB_CNT"],
    "I155" := ["REG", "COD_CTA", "COD_CCUS", "VL_SLD_INI", "IND_DC_INI", "VL_DEB", "VL_CRED", "VL_SLD_FIN", "IND_DC_FIN", "VL_SLD_INI_MF", "IND_DC_INI_MF", "VL_DEB_MF", "VL_CRED_MF", "VL_SLD_FIN_MF", "IND_DC_FIN_MF"]
  ]
}
