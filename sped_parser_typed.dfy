/**
 * The second-generation SPED parser: each known record of a file kind becomes a typed object
 * (a map from property names to values) and is routed into the buckets of one extraction result.
 */
module SpedParserTyped {
  import opened JsText
  import opened JsNumber

  /** A JavaScript object with scalar properties; a key may be present with the value `undefined`. */
  type Obj = map<string, JsVal>

  /** `o.k`: `undefined` when the property is absent. */
  function Prop(o: Obj, k: string): JsVal
  {
    if k in o then o[k] else Undefined
  }

  /** The text of a value used as a property key, as JavaScript converts it. */
  function Chave(v: JsVal): string
  {
    match v
    case Str(s) => s
    case Undefined => "undefined"
    case Null => "null"
    case Bool(b) => if b then "true" else "false"
    case NaN => "NaN"
    case Num(_) => "0"
  }

  /** A text property read as text; any other value reads as the empty text. */
  function Texto(v: JsVal): string
  {
    if v.Str? then v.s else ""
  }

  // ---------------------------------------------------------------- file kinds

  datatype TipoSped = Fiscal | Contribuicoes | Ecf | Ecd

  /** The key of `registrosMapeados` naming a kind, if the text names one. */
  function TipoDeNome(nome: string): (t: Option<TipoSped>)
    ensures t == Some(Fiscal) <==> nome == "fiscal"
    ensures t == Some(Contribuicoes) <==> nome == "contribuicoes"
    ensures t == Some(Ecf) <==> nome == "ecf"
    ensures t == Some(Ecd) <==> nome == "ecd"
  {
    if nome == "fiscal" then Some(Fiscal)
    else if nome == "contribuicoes" then Some(Contribuicoes)
    else if nome == "ecf" then Some(Ecf)
    else if nome == "ecd" then Some(Ecd)
    else None
  }

  /** What one of the first lines says about the kind; a later line is looked at when it says nothing. */
  function TipoDaLinha(linha: string): Option<TipoSped>
  {
    var campos := Split(linha, '|');
    if Trim(linha) == "" || |campos| < 2 || campos[1] != "0000" then None
    else if |campos| > 9 && campos[9] == "0" then Some(Fiscal)
    else if |campos| > 9 && campos[9] == "1" then Some(Contribuicoes)
    else if |campos| > 5 && campos[5] == "ECF" then Some(Ecf)
    else if |campos| > 5 && campos[5] == "ECD" then Some(Ecd)
    else None
  }

  /** `determinarTipoSped`: the first of the first 20 lines that names a kind decides. */
  method DeterminarTipoSped(linhas: seq<string>) returns (t: Option<TipoSped>)
    ensures var n := if |linhas| < 20 then |linhas| else 20;
      (t.None? <==> forall j :: 0 <= j < n ==> TipoDaLinha(linhas[j]).None?)
      && (t.Some? ==> exists i :: 0 <= i < n && TipoDaLinha(linhas[i]) == t
                                && forall j :: 0 <= j < i ==> TipoDaLinha(linhas[j]).None?)
  {
    var n := if |linhas| < 20 then |linhas| else 20;
    var i := 0;
    while i < n
      invariant 0 <= i <= n
      invariant forall j :: 0 <= j < i ==> TipoDaLinha(linhas[j]).None?
    {
      var linha := linhas[i];
      if Trim(linha) != "" {
        var campos := Split(linha, '|');
        if |campos| >= 2 {
          var registro := campos[1];
          if registro == "0000" {
            if |campos| > 9 {
              var finalidade := campos[9];
              if finalidade == "0" {
                return Some(Fiscal);
              }
              if finalidade == "1" {
                return Some(Contribuicoes);
              }
            }
            if |campos| > 5 && campos[5] == "ECF" {
              return Some(Ecf);
            }
            if |campos| > 5 && campos[5] == "ECD" {
              return Some(Ecd);
            }
          }
        }
      }
      i := i + 1;
    }
    return None;
  }

  /** The kind the first 20 lines name, as a function of the lines. */
  function TipoDetectado(linhas: seq<string>, n: nat): (t: Option<TipoSped>)
    requires n <= |linhas|
  {
    if n == 0 then None
    else if TipoDetectado(linhas, n - 1).Some? then TipoDetectado(linhas, n - 1)
    else TipoDaLinha(linhas[n - 1])
  }

  /** The detected kind is the one of the first line that names a kind. */
  lemma {:induction false} TipoDetectadoPrimeiro(linhas: seq<string>, n: nat)
    requires n <= |linhas|
    ensures TipoDetectado(linhas, n).None? <==> forall j :: 0 <= j < n ==> TipoDaLinha(linhas[j]).None?
    ensures forall i :: 0 <= i < n && TipoDaLinha(linhas[i]).Some? && (forall j :: 0 <= j < i ==> TipoDaLinha(linhas[j]).None?)
                  ==> TipoDetectado(linhas, n) == TipoDaLinha(linhas[i])
  {
    if n > 0 {
      TipoDetectadoPrimeiro(linhas, n - 1);
      forall i | 0 <= i < n && TipoDaLinha(linhas[i]).Some? && (forall j :: 0 <= j < i ==> TipoDaLinha(linhas[j]).None?)
        ensures TipoDetectado(linhas, n) == TipoDaLinha(linhas[i])
      {
        if i == n - 1 {
          assert TipoDetectado(linhas, n - 1).None?;
        }
      }
    }
  }

  /**
   * The kind `extrairDados` works with: the given one, or the detected one when none is given,
   * and `fiscal` when that names no kind of `registrosMapeados`.
   */
  function TipoEfetivo(linhas: seq<string>, tipo: string): (k: TipoSped)
    ensures tipo != "" && TipoDeNome(tipo).Some? ==> k == TipoDeNome(tipo).value
    ensures tipo != "" && TipoDeNome(tipo).None? ==> k == Fiscal
    ensures tipo == "" && TipoDetectado(linhas, MinNat(|linhas|, 20)).None? ==> k == Fiscal
  {
    if tipo != "" then
      (if TipoDeNome(tipo).Some? then TipoDeNome(tipo).value else Fiscal)
    else
      var d := TipoDetectado(linhas, MinNat(|linhas|, 20));
      if d.Some? then d.value else Fiscal
  }

  function MinNat(a: nat, b: nat): (m: nat)
    ensures m <= a && m <= b && (m == a || m == b)
  {
    if a <= b then a else b
  }

  // ---------------------------------------------------------------- field conversions

  /** `campos[i]`: `undefined` past the end. */
  function CampoEm(campos: seq<string>, i: nat): (v: JsVal)
    ensures i < |campos| <==> v.Str?
  {
    if i < |campos| then Str(campos[i]) else Undefined
  }

  /** `validarCampo(campos, indice, valorPadrao)`: the field, or the default when it is absent or empty. */
  function ValidarCampo(campos: seq<string>, indice: nat, valorPadrao: string): (r: string)
    ensures indice >= |campos| ==> r == valorPadrao
    ensures indice < |campos| && campos[indice] == "" ==> r == valorPadrao
    ensures indice < |campos| && campos[indice] != "" ==> r == campos[indice]
  {
    if indice >= |campos| || campos[indice] == "" then valorPadrao else campos[indice]
  }

  /** `parseFloat(s)` as a JavaScript number: NaN when no number starts the text. */
  function NumeroDe(s: string): (v: JsVal)
    ensures v.Num? || v == NaN
  {
    match ParseFloat(s)
    case None => NaN
    case Some(x) => Num(x)
  }

  /** `converterValorMonetario(valor)`: 0 for anything but non-empty text; the first `,` is the decimal point; NaN is 0. */
  function ConverterValorMonetario(valor: JsVal): (r: real)
  {
    if Falsy(valor) || !valor.Str? then 0.0
    else
      match ParseFloat(ReplaceFirst(valor.s, ',', '.'))
      case None => 0.0
      case Some(x) => x
  }

  /** Non-text and empty values convert to 0. */
  lemma {:induction false} ConverterSemTexto(valor: JsVal)
    requires !valor.Str? || valor.s == ""
    ensures ConverterValorMonetario(valor) == 0.0
  {
  }

  /** A Brazilian decimal `w,f` converts to its value. */
  lemma {:induction false} ConverterVirgula(w: string, f: string)
    requires |w| > 0 && AllDigits(w) && AllDigits(f)
    ensures ConverterValorMonetario(Str(w + "," + f)) == DigitsValue(w, 0) as real + Shifted(DigitsValue(f, 0), |f|)
  {
    var s := w + "," + f;
    assert s[|w|] == ',';
    assert forall j :: 0 <= j < |w| ==> s[j] == w[j];
    forall j | 0 <= j < |w| ensures s[j] != ',' {
      AllDigitsAt(w, j);
    }
    assert IndexOfChar(s, ',') == |w|;
    var t := ReplaceFirst(s, ',', '.');
    assert t == w + "." + f by {
      assert |t| == |w + "." + f|;
      forall j | 0 <= j < |t| ensures t[j] == (w + "." + f)[j] {
      }
    }
    ParseDecimal(w, f);
  }

  /** `validarEstruturaRegistro(campos, tamanhoMinimo)`. */
  predicate ValidarEstruturaRegistro(campos: seq<string>, tamanhoMinimo: nat)
  {
    |campos| >= tamanhoMinimo
  }

  /** How a property of a parsed record is computed from the fields. */
  datatype Conv =
    | Fixo(valor: JsVal)            // a constant (`tipo`, `categoria`, `descricao`)
    | Bruto(i: nat)                 // `campos[i]`
    | OuVazio(i: nat)               // `campos[i] || ''`, `validarCampo(campos, i)`
    | OuOutro(i: nat, j: nat)       // `campos[i] || campos[j]`
    | IgualA(i: nat, t: string)     // `campos[i] === t`
    | Monetario(i: nat)             // `converterValorMonetario(validarCampo(campos, i, '0'))`
    | Decimal(i: nat)               // `parseFloat(campos[i].replace(',', '.'))`
    | DecimalOuZero(i: nat)         // `parseFloat(campos[i].replace(',', '.')) || 0`
    | DecimalSePresente(i: nat)     // `parseFloat(campos[i] ? campos[i].replace(',', '.') : '0')`

  /** The value of one property; `None` when computing it throws (a method called on `undefined`). */
  function Valor(c: Conv, campos: seq<string>): Option<JsVal>
  {
    match c
    case Fixo(v) => Some(v)
    case Bruto(i) => Some(CampoEm(campos, i))
    case OuVazio(i) => Some(Str(ValidarCampo(campos, i, "")))
    case OuOutro(i, j) => Some(Or(CampoEm(campos, i), CampoEm(campos, j)))
    case IgualA(i, t) => Some(Bool(CampoEm(campos, i) == Str(t)))
    case Monetario(i) => Some(Num(ConverterValorMonetario(Str(ValidarCampo(campos, i, "0")))))
    case Decimal(i) =>
      if i < |campos| then Some(NumeroDe(ReplaceFirst(campos[i], ',', '.'))) else None
    case DecimalOuZero(i) =>
      if i < |campos| then Some(Or(NumeroDe(ReplaceFirst(campos[i], ',', '.')), Num(0.0))) else None
    case DecimalSePresente(i) =>
      if i < |campos| && campos[i] != "" then Some(NumeroDe(ReplaceFirst(campos[i], ',', '.'))) else Some(Num(0.0))
  }

  /** A conversion that reads only fields it checks for (never throws). */
  predicate Segura(c: Conv)
  {
    !c.Decimal? && !c.DecimalOuZero?
  }

  lemma {:induction false} SeguraNaoFalha(c: Conv, campos: seq<string>)
    requires Segura(c)
    ensures Valor(c, campos).Some?
  {
  }

  /** One property of an object literal. */
  datatype Def = Def(nome: string, conv: Conv)

  /** The layout of a record: the least number of fields (`validarEstruturaRegistro`) and its properties. */
  datatype Layout = Layout(minimo: nat, defs: seq<Def>)

  /** What a `parseRegistro*` function gives: an object, `null`, or a thrown error. */
  datatype Saida = Objeto(o: Obj) | Nulo | Falha

  /** The object literal of the first `n` properties, written left to right (a later key overrides). */
  function Montar(defs: seq<Def>, campos: seq<string>): (r: Option<Obj>)
    decreases |defs|
  {
    if |defs| == 0 then Some(map[])
    else
      var d := defs[|defs| - 1];
      match (Montar(defs[..|defs| - 1], campos), Valor(d.conv, campos))
      case (Some(o), Some(v)) => Some(o[d.nome := v])
      case _ => None
  }

  /** The object has exactly the layout's names, and it is built unless some property throws. */
  lemma {:induction false} MontarChaves(defs: seq<Def>, campos: seq<string>)
    ensures Montar(defs, campos).Some? <==> forall i :: 0 <= i < |defs| ==> Valor(defs[i].conv, campos).Some?
    ensures Montar(defs, campos).Some? ==>
      forall k :: k in Montar(defs, campos).value <==> exists i :: 0 <= i < |defs| && defs[i].nome == k
    decreases |defs|
  {
    if |defs| > 0 {
      var p := defs[..|defs| - 1];
      MontarChaves(p, campos);
      assert forall i :: 0 <= i < |p| ==> p[i] == defs[i];
      if Montar(defs, campos).Some? {
        forall k ensures k in Montar(defs, campos).value <==> exists i :: 0 <= i < |defs| && defs[i].nome == k {
          if k in Montar(defs, campos).value && k != defs[|defs| - 1].nome {
            var i :| 0 <= i < |p| && p[i].nome == k;
            assert defs[i].nome == k;
          }
          if exists i :: 0 <= i < |defs| && defs[i].nome == k {
            var i :| 0 <= i < |defs| && defs[i].nome == k;
            if i < |p| {
              assert p[i].nome == k;
            }
          }
        }
      }
    }
  }

  /** A property not named again later holds its own conversion. */
  lemma {:induction false} MontarValor(defs: seq<Def>, campos: seq<string>, i: nat)
    requires i < |defs| && Montar(defs, campos).Some?
    requires forall j :: i < j < |defs| ==> defs[j].nome != defs[i].nome
    ensures defs[i].nome in Montar(defs, campos).value
    ensures Valor(defs[i].conv, campos).Some? && Montar(defs, campos).value[defs[i].nome] == Valor(defs[i].conv, campos).value
    decreases |defs|
  {
    var p := defs[..|defs| - 1];
    if i < |defs| - 1 {
      assert p[i] == defs[i];
      assert forall j :: i < j < |p| ==> p[j] == defs[j];
      MontarValor(p, campos, i);
    }
  }

  /** `parseRegistro*` on a layout: `null` below the least number of fields, then the object or the error. */
  function Parse(l: Layout, campos: seq<string>): (s: Saida)
    ensures !ValidarEstruturaRegistro(campos, l.minimo) ==> s == Nulo
    ensures ValidarEstruturaRegistro(campos, l.minimo) ==> (s.Objeto? <==> Montar(l.defs, campos).Some?)
    ensures s != Nulo ==> ValidarEstruturaRegistro(campos, l.minimo)
  {
    if !ValidarEstruturaRegistro(campos, l.minimo) then Nulo
    else match Montar(l.defs, campos)
      case Some(o) => Objeto(o)
      case None => Falha
  }

  /** The record parsers: a layout, or the branch on the account code of N500. */
  datatype Parser = PorLayout(l: Layout) | DreN500

  /** `parseRegistroN500ECF`: four account codes of the income statement, `null` for any other. */
  function ParseN500(campos: seq<string>): (s: Saida)
    ensures !(CampoEm(campos, 2) in {Str("3.03"), Str("3.05"), Str("3.01"), Str("3.11")}) ==> s == Nulo
  {
    var conta := CampoEm(campos, 2);
    if conta == Str("3.03") then Parse(LinhaDre("lucro_bruto", "Lucro bruto"), campos)
    else if conta == Str("3.05") then Parse(LinhaDre("resultado_operacional", "Resultado operacional"), campos)
    else if conta == Str("3.01") then Parse(LinhaDre("receita_liquida", "Receita líquida"), campos)
    else if conta == Str("3.11") then Parse(LinhaDre("lucro_liquido", "Lucro líquido"), campos)
    else Nulo
  }

  function LinhaDre(categoria: string, descricao: string): Layout
  {
    Layout(0, [Def("tipo", Fixo(Str("dre"))), Def("categoria", Fixo(Str(categoria))),
               Def("descricao", Fixo(Str(descricao))), Def("valor", DecimalOuZero(4))])
  }

  function Executar(p: Parser, campos: seq<string>): Saida
  {
    match p
    case PorLayout(l) => Parse(l, campos)
    case DreN500 => ParseN500(campos)
  }

  /** `registrosMapeados[tipo]`: the parser of each record code of a kind. */
  function Parsers(k: TipoSped): map<string, Parser>
  {
    match k
    case Fiscal => ParsersFiscal
    case Contribuicoes => ParsersContribuicoes
    case Ecf => ParsersEcf
    case Ecd => ParsersEcd
  }

  function T(s: string): Conv { Fixo(Str(s)) }

  const L0000Fiscal := Layout(0, [Def("tipo", T("empresa")), Def("cnpj", OuVazio(7)), Def("nome", OuVazio(8)),
    Def("ie", OuVazio(10)), Def("municipio", OuVazio(11)), Def("uf", OuVazio(12)), Def("codMunicipio", OuVazio(14))])
  const LC100 := Layout(13, [Def("tipo", T("documento")), Def("indOper", OuVazio(2)), Def("indEmit", OuVazio(3)),
    Def("codPart", OuVazio(4)), Def("modelo", OuVazio(5)), Def("situacao", OuVazio(6)), Def("serie", OuVazio(7)),
    Def("numero", OuVazio(8)), Def("chaveNFe", OuVazio(9)), Def("dataEmissao", OuVazio(10)),
    Def("dataSaidaEntrada", OuVazio(11)), Def("valorTotal", Monetario(12)), Def("valorProdutos", Monetario(16))])
  const LC170 := Layout(0, [Def("tipo", T("item")), Def("itemId", Bruto(3)), Def("descricao", Bruto(4)),
    Def("quantidade", Decimal(5)), Def("unidade", Bruto(6)), Def("valorItem", Decimal(7)),
    Def("valorDesconto", DecimalSePresente(8)), Def("cfop", Bruto(11)), Def("cstIcms", Bruto(10))])
  const LC190 := Layout(0, [Def("tipo", T("item_analitico")), Def("categoria", T("icms")), Def("cfop", Bruto(3)),
    Def("cstIcms", Bruto(2)), Def("aliquotaIcms", DecimalOuZero(4)), Def("valorOperacao", DecimalOuZero(5)),
    Def("valorBaseCalculo", DecimalOuZero(6)), Def("valorIcms", DecimalOuZero(7))])
  const LE110 := Layout(12, [Def("tipo", T("debito")), Def("categoria", T("icms")),
    Def("valorTotalDebitos", Monetario(4)), Def("valorTotalCreditos", Monetario(5)),
    Def("valorSaldoApurado", Monetario(11)), Def("valorDebitosPeriodo", Monetario(6)),
    Def("valorCreditosPeriodo", Monetario(7)), Def("valorSaldoDevedor", Monetario(8)),
    Def("valorSaldoCredor", Monetario(9))])
  const LE111 := Layout(0, [Def("tipo", T("ajuste")), Def("categoria", T("icms")), Def("codigoAjuste", Bruto(2)),
    Def("descricaoComplementar", Bruto(3)), Def("valorAjuste", DecimalOuZero(4))])
  const LE200 := Layout(10, [Def("tipo", T("imposto")), Def("categoria", T("ipi")),
    Def("valorTotalDebitos", Monetario(4)), Def("valorTotalCreditos", Monetario(5)),
    Def("valorAPagar", Monetario(8)), Def("saldoCredorAnterior", Monetario(6))])
  const LE210 := Layout(5, [Def("tipo", T("ajuste")), Def("categoria", T("ipi")), Def("codigoAjuste", OuVazio(3)),
    Def("descricaoComplementar", OuVazio(4)), Def("valorAjuste", Monetario(5))])
  const LC197 := Layout(0, [Def("tipo", T("obrigacao")), Def("categoria", T("outros")),
    Def("codigoObrigacao", Bruto(2)), Def("valorObrigacao", DecimalOuZero(3)), Def("dataVencimento", Bruto(4)),
    Def("codigoReceita", Bruto(5))])
  const LH010 := Layout(0, [Def("tipo", T("inventario")), Def("codigoItem", Bruto(2)), Def("unidade", Bruto(3)),
    Def("quantidade", DecimalOuZero(4)), Def("valorUnitario", DecimalOuZero(5)), Def("valorItem", DecimalOuZero(6))])
  const L0150 := Layout(0, [Def("tipo", T("participante")), Def("codigo", Bruto(2)), Def("nome", Bruto(3)),
    Def("cnpjCpf", OuOutro(5, 6)), Def("inscricaoEstadual", Bruto(7)), Def("codMunicipio", Bruto(8)),
    Def("suframa", Bruto(9)), Def("endereco", Bruto(10)), Def("numero", Bruto(11)), Def("complemento", Bruto(12)),
    Def("bairro", Bruto(13))])

  const ParsersFiscal: map<string, Parser> := map[
    "0000" := PorLayout(L0000Fiscal), "C100" := PorLayout(LC100), "C170" := PorLayout(LC170),
    "C190" := PorLayout(LC190), "E110" := PorLayout(LE110), "E111" := PorLayout(LE111),
    "E200" := PorLayout(LE200), "E210" := PorLayout(LE210), "C197" := PorLayout(LC197),
    "H010" := PorLayout(LH010), "0150" := PorLayout(L0150)]

  const L0000Contribuicoes := Layout(0, [Def("tipo", T("empresa")), Def("cnpj", OuVazio(7)), Def("nome", OuVazio(8)),
    Def("ie", OuVazio(10)), Def("municipio", OuVazio(11)), Def("uf", OuVazio(12)), Def("regimeTributacao", OuVazio(16))])
  const L0110 := Layout(0, [Def("tipo", T("regime")), Def("categoria", T("pis_cofins")),
    Def("codigoIncidencia", Bruto(2)), Def("metodoCreditoRateado", Bruto(3))])
  const LM100 := Layout(0, [Def("tipo", T("credito")), Def("categoria", T("pis")), Def("codigoCredito", Bruto(2)),
    Def("valorBaseCreditoTotal", Decimal(4)), Def("aliquotaPis", Decimal(5)), Def("valorCredito", Decimal(6))])
  function CreditoDetalhe(categoria: string): Layout
  {
    Layout(0, [Def("tipo", T("credito_detalhe")), Def("categoria", T(categoria)), Def("codigoCredito", Bruto(2)),
      Def("baseCalculoCredito", DecimalOuZero(3)), Def("aliquotaCredito", DecimalOuZero(4)),
      Def("valorCredito", DecimalOuZero(5))])
  }
  function Contribuicao(categoria: string): Layout
  {
    Layout(14, [Def("tipo", T("debito")), Def("categoria", T(categoria)),
      Def("valorTotalContribuicao", Monetario(10)), Def("valorTotalRetencoes", Monetario(11)),
      Def("valorTotalDeducoes", Monetario(12)), Def("valorTotalPago", Monetario(13))])
  }
  function AjusteConsolidacao(categoria: string): Layout
  {
    Layout(8, [Def("tipo", T("ajuste_consolidacao")), Def("categoria", T(categoria)),
      Def("codigoAjuste", OuVazio(3)), Def("valorAjuste", Monetario(4)), Def("codigoReceita", OuVazio(5)),
      Def("indicadorNatureza", OuVazio(6)), Def("valorDeducao", Monetario(7))])
  }
  function DetalhamentoConsolidacao(categoria: string): Layout
  {
    Layout(8, [Def("tipo", T("detalhamento_consolidacao")), Def("categoria", T(categoria)),
      Def("codigoReceita", OuVazio(3)), Def("valorContribuicao", Monetario(4)), Def("valorMulta", Monetario(5)),
      Def("valorJuros", Monetario(6)), Def("dataVencimento", OuVazio(7))])
  }
  function Totalizacao(categoria: string): Layout
  {
    Layout(10, [Def("tipo", T("totalizacao")), Def("categoria", T(categoria)),
      Def("valorContribuicaoAPagar", Monetario(3)), Def("valorCredutoCompensado", Monetario(4)),
      Def("valorContribuicaoPaga", Monetario(5)), Def("saldoCredorPeriodo", Monetario(6))])
  }
  const LM500 := Layout(0, [Def("tipo", T("credito")), Def("categoria", T("cofins")), Def("codigoCredito", Bruto(2)),
    Def("valorBaseCalculoTotal", DecimalOuZero(4)), Def("aliquotaCofins", DecimalOuZero(5)),
    Def("valorCredito", DecimalOuZero(6))])
  const LM400 := Layout(0, [Def("tipo", T("receita_nao_tributada")), Def("categoria", T("pis")), Def("cstPis", Bruto(2)),
    Def("valorReceitaNaoTributada", DecimalOuZero(3)), Def("codigoContaContabil", Bruto(4))])
  const LM800 := Layout(0, [Def("tipo", T("receita_nao_tributada")), Def("categoria", T("cofins")),
    Def("cstCofins", Bruto(2)), Def("valorReceitaNaoTributada", DecimalOuZero(3)), Def("codigoContaContabil", Bruto(4))])
  const L1001 := Layout(0, [Def("tipo", T("encerramento")), Def("indicadorMovimento", OuVazio(2)),
    Def("valorTotalCreditos", Monetario(3)), Def("valorTotalDebitos", Monetario(4))])

  const ParsersContribuicoes: map<string, Parser> := map[
    "0000" := PorLayout(L0000Contribuicoes), "0110" := PorLayout(L0110), "M100" := PorLayout(LM100),
    "M105" := PorLayout(CreditoDetalhe("pis")), "M200" := PorLayout(Contribuicao("pis")),
    "M205" := PorLayout(AjusteConsolidacao("pis")), "M210" := PorLayout(DetalhamentoConsolidacao("pis")),
    "M500" := PorLayout(LM500), "M505" := PorLayout(CreditoDetalhe("cofins")),
    "M600" := PorLayout(Contribuicao("cofins")), "M605" := PorLayout(AjusteConsolidacao("cofins")),
    "M610" := PorLayout(DetalhamentoConsolidacao("cofins")), "M400" := PorLayout(LM400),
    "M800" := PorLayout(LM800), "1001" := PorLayout(L1001), "1100" := PorLayout(Totalizacao("pis")),
    "1500" := PorLayout(Totalizacao("cofins"))]

  const L0000Ecf := Layout(0, [Def("tipo", T("empresa")), Def("dataInicial", Bruto(6)), Def("dataFinal", Bruto(7)),
    Def("cnpj", Bruto(8)), Def("nome", Bruto(9)), Def("indicadorSituacaoInicial", Bruto(10)),
    Def("situacaoEspecial", Bruto(11))])
  const L0010Ecf := Layout(0, [Def("tipo", T("parametros")), Def("categoria", T("ecf")), Def("formaApuracao", Bruto(2)),
    Def("qualificacaoPJ", Bruto(3)), Def("formaTributacao", Bruto(4))])
  const LM010Ecf := Layout(0, [Def("tipo", T("incentivo_fiscal")), Def("codIncentivo", Bruto(2)),
    Def("descricaoIncentivo", Bruto(3)), Def("valorIncentivo", DecimalOuZero(4))])
  const LN660Ecf := Layout(6, [Def("tipo", T("calculo_irpj")), Def("baseCalculoIRPJ", Monetario(5)),
    Def("aliquotaIRPJ", Monetario(6)), Def("valorIRPJ", Monetario(7)), Def("baseCalculoAdicional", Monetario(8)),
    Def("valorAdicional", Monetario(9))])
  const LN670Ecf := Layout(6, [Def("tipo", T("calculo_csll")), Def("baseCalculoCSLL", Monetario(5)),
    Def("aliquotaCSLL", Monetario(6)), Def("valorCSLL", Monetario(7))])
  const LY540Ecf := Layout(0, [Def("tipo", T("discriminacao_receita")), Def("tipoReceita", Bruto(2)),
    Def("valorReceita", DecimalOuZero(3)), Def("isExportacao", IgualA(2, "04"))])

  const ParsersEcf: map<string, Parser> := map[
    "0000" := PorLayout(L0000Ecf), "0010" := PorLayout(L0010Ecf), "M010" := PorLayout(LM010Ecf),
    "N500" := DreN500, "N660" := PorLayout(LN660Ecf), "N670" := PorLayout(LN670Ecf), "Y540" := PorLayout(LY540Ecf)]

  const L0000Ecd := Layout(0, [Def("tipo", T("empresa")), Def("dataInicial", Bruto(6)), Def("dataFinal", Bruto(7)),
    Def("cnpj", Bruto(8)), Def("nome", Bruto(9)), Def("indicadorSituacaoEspecial", Bruto(17))])
  const LI200Ecd := Layout(0, [Def("tipo", T("lancamento_contabil")), Def("numeroLancamento", Bruto(2)),
    Def("dataLancamento", Bruto(3)), Def("valorLancamento", DecimalOuZero(5))])
  function Conta(tipo: string): Layout
  {
    Layout(0, [Def("tipo", T(tipo)), Def("codigoConta", Bruto(2)), Def("descricaoConta", Bruto(3)),
      Def("saldoInicial", DecimalOuZero(4)), Def("debitosPeriodo", DecimalOuZero(5)),
      Def("creditosPeriodo", DecimalOuZero(6)), Def("saldoFinal", DecimalOuZero(7)), Def("naturezaSaldo", Bruto(8))])
  }
  const LI250Ecd := Layout(0, [Def("tipo", T("partida_lancamento")), Def("codigoConta", Bruto(2)),
    Def("codigoCentroCusto", Bruto(3)), Def("valorPartida", DecimalOuZero(4)), Def("naturezaPartida", Bruto(5)),
    Def("historico", Bruto(6))])

  const ParsersEcd: map<string, Parser> := map[
    "0000" := PorLayout(L0000Ecd), "I200" := PorLayout(LI200Ecd), "J100" := PorLayout(Conta("balanco_patrimonial")),
    "J150" := PorLayout(Conta("demonstracao_resultado")), "I250" := PorLayout(LI250Ecd)]

  // ---------------------------------------------------------------- properties of the parsers

  /** A layout whose every property is safe never throws, whatever the fields. */
  lemma {:induction false} SeguroNaoFalha(l: Layout, campos: seq<string>)
    requires forall i :: 0 <= i < |l.defs| ==> Segura(l.defs[i].conv)
    ensures Parse(l, campos) != Falha
  {
    MontarChaves(l.defs, campos);
  }

  /** A C100 line with fewer than 13 fields gives `null`; with 13 or more it gives a document. */
  lemma {:induction false} C100Minimo(campos: seq<string>)
    ensures "C100" in Parsers(Fiscal) && Parsers(Fiscal)["C100"] == PorLayout(LC100)
    ensures |campos| < 13 ==> Executar(PorLayout(LC100), campos) == Nulo
    ensures |campos| >= 13 ==> Executar(PorLayout(LC100), campos).Objeto?
  {
    SeguroNaoFalha(LC100, campos);
  }

  /** A C170 item throws exactly when a quantity or a value field (5 or 7) is missing. */
  lemma {:induction false} C170Falha(campos: seq<string>)
    ensures Executar(PorLayout(LC170), campos) == Falha <==> |campos| < 8
  {
    MontarChaves(LC170.defs, campos);
    if |campos| < 8 {
      assert LC170.defs[5].conv == Decimal(7);
      assert Valor(LC170.defs[5].conv, campos).None?;
    } else {
      forall i | 0 <= i < |LC170.defs| ensures Valor(LC170.defs[i].conv, campos).Some? {
      }
    }
  }

  /** An account of the balance sheet or of the income statement carries its code and name as text. */
  lemma {:induction false} ContaTemCodigo(tipo: string, campos: seq<string>)
    requires Executar(PorLayout(Conta(tipo)), campos).Objeto?
    ensures var o := Executar(PorLayout(Conta(tipo)), campos).o;
      Prop(o, "tipo") == Str(tipo) && Prop(o, "codigoConta").Str? && Prop(o, "descricaoConta").Str?
      && Prop(o, "saldoFinal").Num?
  {
    var defs := Conta(tipo).defs;
    MontarChaves(defs, campos);
    assert Valor(defs[6].conv, campos).Some?;
    assert |campos| > 7;
    MontarValor(defs, campos, 0);
    MontarValor(defs, campos, 1);
    MontarValor(defs, campos, 2);
    MontarValor(defs, campos, 6);
  }

  // ---------------------------------------------------------------- the extraction result

  /** A document, with the items and the participant attached to it once the relations are made. */
  datatype Documento = Documento(dados: Obj, itens: Option<seq<Obj>>, participante: Option<Obj>)

  /** The list buckets that collect records in the order they are read. */
  datatype Lista = ItensAnaliticos | Inventario | Participantes | IncentivosFiscais | DiscriminacaoReceita
    | LancamentosContabeis | PartidasLancamento | BalancoPatrimonial | DemonstracaoResultado

  /** The buckets that keep a list of records per category. */
  datatype Agrupamento = Impostos | Creditos | Debitos | Ajustes | ReceitasNaoTributadas

  /** The buckets that keep one record per key, the last one stored. */
  datatype Indice = Regimes | Dre | CalculoImposto

  /**
   * The `resultado` of `extrairDados`: the company, the documents and items, the buckets records
   * are routed into, and the totals computed afterwards. A bucket the source creates on first use
   * is absent here until then, and reads as empty.
   */
  datatype Extracao = Extracao(
    empresa: Obj, documentos: seq<Documento>, itens: seq<Obj>,
    porCategoria: map<Agrupamento, map<string, seq<Obj>>>, porChave: map<Indice, map<string, Obj>>,
    listas: map<Lista, seq<Obj>>, totais: map<string, real>)

  /** The result before the first line is read. */
  function Vazia(): Extracao
  {
    Extracao(map[], [], [], map[], map[], map[], map[])
  }

  function ListaDe(e: Extracao, l: Lista): seq<Obj>
  {
    if l in e.listas then e.listas[l] else []
  }

  function GrupoDe(e: Extracao, g: Agrupamento): map<string, seq<Obj>>
  {
    Grupo(e.porCategoria, g)
  }

  function Grupo(porCategoria: map<Agrupamento, map<string, seq<Obj>>>, g: Agrupamento): map<string, seq<Obj>>
  {
    if g in porCategoria then porCategoria[g] else map[]
  }

  function IndiceDe(e: Extracao, u: Indice): map<string, Obj>
  {
    Indexado(e.porChave, u)
  }

  function Indexado(porChave: map<Indice, map<string, Obj>>, u: Indice): map<string, Obj>
  {
    if u in porChave then porChave[u] else map[]
  }

  /** `m[c]`, the empty list when there is none yet. */
  function Bucket(m: map<string, seq<Obj>>, c: string): seq<Obj>
  {
    if c in m then m[c] else []
  }

  /** Where a record goes, named by its `tipo` (the cases of the `switch`). */
  datatype Destino = AEmpresa | ADocumento | AItem | AImposto | AAgrupar(g: Agrupamento) | AIndexar(u: Indice)
    | ACalculo(nome: string) | ALista(l: Lista) | Nenhum

  function DestinoDe(tipo: string): Destino
  {
    if tipo == "empresa" then AEmpresa
    else if tipo == "documento" then ADocumento
    else if tipo == "item" then AItem
    else if tipo == "item_analitico" then ALista(ItensAnaliticos)
    else if tipo == "ajuste" then AAgrupar(Ajustes)
    else if tipo == "debito" then AAgrupar(Debitos)
    else if tipo == "imposto" then AImposto
    else if tipo == "credito" || tipo == "credito_detalhe" then AAgrupar(Creditos)
    else if tipo == "receita_nao_tributada" then AAgrupar(ReceitasNaoTributadas)
    else if tipo == "regime" then AIndexar(Regimes)
    else if tipo == "inventario" then ALista(Inventario)
    else if tipo == "participante" then ALista(Participantes)
    else if tipo == "incentivo_fiscal" then ALista(IncentivosFiscais)
    else if tipo == "dre" then AIndexar(Dre)
    else if tipo == "calculo_irpj" then ACalculo("irpj")
    else if tipo == "calculo_csll" then ACalculo("csll")
    else if tipo == "discriminacao_receita" then ALista(DiscriminacaoReceita)
    else if tipo == "lancamento_contabil" then ALista(LancamentosContabeis)
    else if tipo == "partida_lancamento" then ALista(PartidasLancamento)
    else if tipo == "balanco_patrimonial" then ALista(BalancoPatrimonial)
    else if tipo == "demonstracao_resultado" then ALista(DemonstracaoResultado)
    else Nenhum
  }

  /** The destination of a record: none when `tipo` is falsy or is not one of the texts of the `switch`. */
  function DestinoObj(d: Obj): Destino
  {
    var tipo := Prop(d, "tipo");
    if Falsy(tipo) || !tipo.Str? then Nenhum else DestinoDe(tipo.s)
  }

  /** The key a record is stored under in a bucket keyed by category. */
  function Categoria(d: Obj): string
  {
    Chave(Prop(d, "categoria"))
  }

  predicate EmpresaValida(d: Obj) { !Falsy(Prop(d, "nome")) || !Falsy(Prop(d, "cnpj")) }
  predicate DocumentoValido(d: Obj) { Prop(d, "indOper") != Undefined }
  predicate ItemValido(d: Obj) { !Falsy(Prop(d, "itemId")) || !Falsy(Prop(d, "descricao")) }

  /** An `imposto` record that is really the ICMS debit total. */
  predicate DebitoDisfarcado(d: Obj)
  {
    Prop(d, "categoria") == Str("icms") && Prop(d, "valorTotalDebitos") != Undefined
  }

  /** Where a record lands among the buckets kept per category, and in what form. */
  function Rumo(d: Obj): Option<(Agrupamento, Obj)>
  {
    match DestinoObj(d)
    case AAgrupar(g) => Some((g, d))
    case AImposto => if DebitoDisfarcado(d) then Some((Debitos, d["tipo" := Str("debito")])) else Some((Impostos, d))
    case _ => None
  }

  /** The key a record is stored under in a bucket that keeps one record per key. */
  function ChaveIndice(d: Obj): Option<(Indice, string)>
  {
    match DestinoObj(d)
    case AIndexar(u) => Some((u, Categoria(d)))
    case ACalculo(nome) => Some((CalculoImposto, nome))
    case _ => None
  }

  // The effect of one record on each part of the result.

  function NovaEmpresa(empresa: Obj, d: Obj): Obj
  {
    if DestinoObj(d) == AEmpresa && EmpresaValida(d) then empresa + d else empresa
  }

  function NovosDocumentos(documentos: seq<Documento>, d: Obj): seq<Documento>
  {
    if DestinoObj(d) == ADocumento && DocumentoValido(d) then documentos + [Documento(d, None, None)] else documentos
  }

  function NovosItens(itens: seq<Obj>, d: Obj): seq<Obj>
  {
    if DestinoObj(d) == AItem && ItemValido(d) then itens + [d] else itens
  }

  /** `if (!bucket[c]) bucket[c] = []; bucket[c].push(d)` in the group the record is routed to. */
  function NovoPorCategoria(porCategoria: map<Agrupamento, map<string, seq<Obj>>>, d: Obj): map<Agrupamento, map<string, seq<Obj>>>
  {
    match Rumo(d)
    case Some((g, o)) =>
      var m := Grupo(porCategoria, g);
      porCategoria[g := m[Categoria(d) := Bucket(m, Categoria(d)) + [o]]]
    case None => porCategoria
  }

  /** `bucket[c] = d` in the bucket the record is keyed in. */
  function NovoPorChave(porChave: map<Indice, map<string, Obj>>, d: Obj): map<Indice, map<string, Obj>>
  {
    match ChaveIndice(d)
    case Some((u, c)) => porChave[u := Indexado(porChave, u)[c := d]]
    case None => porChave
  }

  function NovasListas(listas: map<Lista, seq<Obj>>, d: Obj): map<Lista, seq<Obj>>
  {
    match DestinoObj(d)
    case ALista(l) => listas[l := (if l in listas then listas[l] else []) + [d]]
    case _ => listas
  }

  /** `integrarDados(resultado, dados)` on the value of the result: each part takes the record in its own way. */
  function Integrar(e: Extracao, d: Obj): Extracao
  {
    Extracao(NovaEmpresa(e.empresa, d), NovosDocumentos(e.documentos, d), NovosItens(e.itens, d),
      NovoPorCategoria(e.porCategoria, d), NovoPorChave(e.porChave, d), NovasListas(e.listas, d), e.totais)
  }

  /** The records integrated one after the other. */
  function IntegrarTodos(e: Extracao, ds: seq<Obj>): Extracao
    decreases |ds|
  {
    if |ds| == 0 then e else Integrar(IntegrarTodos(e, ds[..|ds| - 1]), ds[|ds| - 1])
  }

  // ---------------------------------------------------------------- what integration keeps

  /** The records of `ds` bound for destination `x`, in order. */
  function ComDestino(ds: seq<Obj>, x: Destino): (r: seq<Obj>)
    ensures |r| <= |ds|
    decreases |ds|
  {
    if |ds| == 0 then []
    else ComDestino(ds[..|ds| - 1], x) + (if DestinoObj(ds[|ds| - 1]) == x then [ds[|ds| - 1]] else [])
  }

  /** Records without a usable `tipo` change nothing, however many there are. */
  lemma {:induction false} IntegrarSemTipo(e: Extracao, ds: seq<Obj>)
    requires forall i :: 0 <= i < |ds| ==> Falsy(Prop(ds[i], "tipo"))
    ensures IntegrarTodos(e, ds) == e
    decreases |ds|
  {
    if |ds| > 0 {
      var p := ds[..|ds| - 1];
      assert forall i :: 0 <= i < |p| ==> p[i] == ds[i];
      IntegrarSemTipo(e, p);
    }
  }

  /** A list bucket holds the records of its `tipo`, appended in the order they were read. */
  lemma {:induction false} IntegrarTodosLista(e: Extracao, ds: seq<Obj>, l: Lista)
    ensures ListaDe(IntegrarTodos(e, ds), l) == ListaDe(e, l) + ComDestino(ds, ALista(l))
    decreases |ds|
  {
    if |ds| > 0 {
      var p := ds[..|ds| - 1];
      var d := ds[|ds| - 1];
      IntegrarTodosLista(e, p, l);
      assert IntegrarTodos(e, ds).listas == NovasListas(IntegrarTodos(e, p).listas, d);
      ListaPasso(IntegrarTodos(e, p).listas, d, l);
      assert ComDestino(ds, ALista(l)) == ComDestino(p, ALista(l)) + (if DestinoObj(d) == ALista(l) then [d] else []);
    }
  }

  lemma {:induction false} ListaPasso(listas: map<Lista, seq<Obj>>, d: Obj, l: Lista)
    ensures var antes := if l in listas then listas[l] else [];
      var depois := NovasListas(listas, d);
      (if l in depois then depois[l] else []) == antes + (if DestinoObj(d) == ALista(l) then [d] else [])
  {
    match DestinoObj(d)
    case ALista(m) =>
    case _ =>
  }

  /** What the records of `ds` add to `bucket[c]` of group `g`, in order. */
  function AgrupadosEm(ds: seq<Obj>, g: Agrupamento, c: string): seq<Obj>
    decreases |ds|
  {
    if |ds| == 0 then []
    else
      var d := ds[|ds| - 1];
      AgrupadosEm(ds[..|ds| - 1], g, c) + AgrupadoEm(d, g, c)
  }

  /** Stored records of one record per group and category. */
  function AgrupadoEm(d: Obj, g: Agrupamento, c: string): seq<Obj>
  {
    if Rumo(d).Some? && Rumo(d).value.0 == g && Categoria(d) == c then [Rumo(d).value.1] else []
  }

  lemma {:induction false} GrupoPasso(porCategoria: map<Agrupamento, map<string, seq<Obj>>>, d: Obj, g: Agrupamento, c: string)
    ensures Bucket(Grupo(NovoPorCategoria(porCategoria, d), g), c) == Bucket(Grupo(porCategoria, g), c) + AgrupadoEm(d, g, c)
  {
    match Rumo(d)
    case Some((h, o)) =>
    case None =>
  }

  /** Each bucket kept per category holds the records routed to it, in the order they were read. */
  lemma {:induction false} IntegrarTodosGrupo(e: Extracao, ds: seq<Obj>, g: Agrupamento, c: string)
    ensures Bucket(GrupoDe(IntegrarTodos(e, ds), g), c) == Bucket(GrupoDe(e, g), c) + AgrupadosEm(ds, g, c)
    decreases |ds|
  {
    if |ds| > 0 {
      var p := ds[..|ds| - 1];
      var d := ds[|ds| - 1];
      IntegrarTodosGrupo(e, p, g, c);
      assert IntegrarTodos(e, ds).porCategoria == NovoPorCategoria(IntegrarTodos(e, p).porCategoria, d);
      GrupoPasso(IntegrarTodos(e, p).porCategoria, d, g, c);
      assert AgrupadosEm(ds, g, c) == AgrupadosEm(p, g, c) + AgrupadoEm(d, g, c);
    }
  }

  /** A `credito` and a `credito_detalhe` of the same category end up in the same list, in order. */
  lemma {:induction false} CreditosCompartilhados(e: Extracao, a: Obj, b: Obj)
    requires Prop(a, "tipo") == Str("credito") && Prop(b, "tipo") == Str("credito_detalhe")
    requires Categoria(a) == Categoria(b)
    ensures Bucket(GrupoDe(IntegrarTodos(e, [a, b]), Creditos), Categoria(a))
         == Bucket(GrupoDe(e, Creditos), Categoria(a)) + [a, b]
  {
    var ds := [a, b];
    assert ds[..1] == [a] && ds[..1][..0] == [];
    assert DestinoDe("credito") == AAgrupar(Creditos);
    assert DestinoDe("credito_detalhe") == AAgrupar(Creditos);
    assert Rumo(a) == Some((Creditos, a)) && Rumo(b) == Some((Creditos, b));
    assert AgrupadoEm(a, Creditos, Categoria(a)) == [a] && AgrupadoEm(b, Creditos, Categoria(a)) == [b];
    assert AgrupadosEm([a], Creditos, Categoria(a)) == [a];
    assert AgrupadosEm(ds, Creditos, Categoria(a)) == AgrupadosEm([a], Creditos, Categoria(a)) + [b];
    IntegrarTodosGrupo(e, ds, Creditos, Categoria(a));
  }

  /** The ICMS debit total read as an `imposto` goes to `debitos.icms` as a `debito`, and nowhere else. */
  lemma {:induction false} DebitoIcms(e: Extracao, d: Obj)
    requires Prop(d, "tipo") == Str("imposto") && DebitoDisfarcado(d)
    ensures Bucket(GrupoDe(Integrar(e, d), Debitos), "icms") == Bucket(GrupoDe(e, Debitos), "icms") + [d["tipo" := Str("debito")]]
    ensures Prop(d["tipo" := Str("debito")], "tipo") == Str("debito")
    ensures GrupoDe(Integrar(e, d), Impostos) == GrupoDe(e, Impostos)
  {
    assert DestinoDe("imposto") == AImposto;
    assert Categoria(d) == "icms";
  }

  /** The last record of `ds` stored under key `c` of bucket `u`. */
  function Ultimo(ds: seq<Obj>, u: Indice, c: string): Option<Obj>
    decreases |ds|
  {
    if |ds| == 0 then None
    else if ChaveIndice(ds[|ds| - 1]) == Some((u, c)) then Some(ds[|ds| - 1])
    else Ultimo(ds[..|ds| - 1], u, c)
  }

  /** `regimes`, `dre` and `calculoImposto` keep, for each key, the last record stored under it. */
  lemma {:induction false} IntegrarTodosIndice(e: Extracao, ds: seq<Obj>, u: Indice, c: string)
    ensures var r := IndiceDe(IntegrarTodos(e, ds), u);
      match Ultimo(ds, u, c)
      case Some(d) => c in r && r[c] == d
      case None => (c in r <==> c in IndiceDe(e, u)) && (c in r ==> r[c] == IndiceDe(e, u)[c])
    decreases |ds|
  {
    if |ds| > 0 {
      var p := ds[..|ds| - 1];
      var d := ds[|ds| - 1];
      IntegrarTodosIndice(e, p, u, c);
      assert IntegrarTodos(e, ds).porChave == NovoPorChave(IntegrarTodos(e, p).porChave, d);
      IndicePasso(IntegrarTodos(e, p).porChave, d, u, c);
    }
  }

  lemma {:induction false} IndicePasso(porChave: map<Indice, map<string, Obj>>, d: Obj, u: Indice, c: string)
    ensures ChaveIndice(d) == Some((u, c)) ==> c in Indexado(NovoPorChave(porChave, d), u) && Indexado(NovoPorChave(porChave, d), u)[c] == d
    ensures ChaveIndice(d) != Some((u, c)) ==>
      (c in Indexado(NovoPorChave(porChave, d), u) <==> c in Indexado(porChave, u))
      && (c in Indexado(porChave, u) ==> Indexado(NovoPorChave(porChave, d), u)[c] == Indexado(porChave, u)[c])
  {
    match ChaveIndice(d)
    case Some((v, k)) =>
    case None =>
  }

  /** The documents and items kept: those with `indOper`, and those with an id or a description. */
  function DocumentosDe(ds: seq<Obj>): (r: seq<Documento>)
    ensures |r| <= |ds|
    ensures forall i :: 0 <= i < |r| ==> r[i].itens.None? && r[i].participante.None?
    decreases |ds|
  {
    if |ds| == 0 then [] else NovosDocumentos(DocumentosDe(ds[..|ds| - 1]), ds[|ds| - 1])
  }

  function ItensDe(ds: seq<Obj>): (r: seq<Obj>)
    ensures |r| <= |ds|
    decreases |ds|
  {
    if |ds| == 0 then [] else NovosItens(ItensDe(ds[..|ds| - 1]), ds[|ds| - 1])
  }

  /** Documents and items are appended in order, and only the valid ones. */
  lemma {:induction false} IntegrarTodosDocumentos(e: Extracao, ds: seq<Obj>)
    ensures IntegrarTodos(e, ds).documentos == e.documentos + DocumentosDe(ds)
    ensures IntegrarTodos(e, ds).itens == e.itens + ItensDe(ds)
    decreases |ds|
  {
    if |ds| > 0 {
      var p := ds[..|ds| - 1];
      IntegrarTodosDocumentos(e, p);
      var d := ds[|ds| - 1];
      assert e.documentos + NovosDocumentos(DocumentosDe(p), d) == NovosDocumentos(e.documentos + DocumentosDe(p), d);
      assert e.itens + NovosItens(ItensDe(p), d) == NovosItens(e.itens + ItensDe(p), d);
    }
  }

  /** The value the company ends with for property `k`: the one of the last valid `empresa` record having it. */
  function EmpresaCom(base: Obj, ds: seq<Obj>, k: string): Option<JsVal>
    decreases |ds|
  {
    if |ds| == 0 then (if k in base then Some(base[k]) else None)
    else
      var d := ds[|ds| - 1];
      if DestinoObj(d) == AEmpresa && EmpresaValida(d) && k in d then Some(d[k])
      else EmpresaCom(base, ds[..|ds| - 1], k)
  }

  /** Company records are merged only when they name the company, later properties overriding earlier ones. */
  lemma {:induction false} IntegrarTodosEmpresa(e: Extracao, ds: seq<Obj>, k: string)
    ensures var emp := IntegrarTodos(e, ds).empresa;
      match EmpresaCom(e.empresa, ds, k)
      case Some(v) => k in emp && emp[k] == v
      case None => k !in emp
    decreases |ds|
  {
    if |ds| > 0 {
      IntegrarTodosEmpresa(e, ds[..|ds| - 1], k);
    }
  }

  // ---------------------------------------------------------------- from lines to records

  /**
   * What one line contributes: nothing for a blank line or an unmapped record code, nothing when
   * the parser gives `null` or throws (the error is caught), and otherwise the parsed object.
   */
  function ObjetoDaLinha(linha: string, k: TipoSped): (r: seq<Obj>)
    ensures |r| <= 1
  {
    var campos := Split(linha, '|');
    if Trim(linha) == "" || |campos| < 2 || campos[1] !in Parsers(k) then []
    else match Executar(Parsers(k)[campos[1]], campos)
      case Objeto(o) => [o]
      case _ => []
  }

  /** The objects of the lines, in order. */
  function Objetos(linhas: seq<string>, k: TipoSped): (r: seq<Obj>)
    ensures |r| <= |linhas|
    decreases |linhas|
  {
    if |linhas| == 0 then [] else Objetos(linhas[..|linhas| - 1], k) + ObjetoDaLinha(linhas[|linhas| - 1], k)
  }

  /** A C100 line with fewer than 13 fields is never integrated. */
  lemma {:induction false} C100CurtoIgnorado(linha: string)
    requires var campos := Split(linha, '|'); |campos| >= 2 && campos[1] == "C100" && |campos| < 13
    ensures ObjetoDaLinha(linha, Fiscal) == []
  {
    C100Minimo(Split(linha, '|'));
  }

  /** A C170 line missing a quantity or a value field is dropped. */
  lemma {:induction false} C170CurtoIgnorado(linha: string)
    requires var campos := Split(linha, '|'); |campos| >= 2 && campos[1] == "C170" && |campos| < 8
    ensures ObjetoDaLinha(linha, Fiscal) == []
  {
    C170Falha(Split(linha, '|'));
    assert "C170" in Parsers(Fiscal) && Parsers(Fiscal)["C170"] == PorLayout(LC170);
  }

  /** The objects of two runs of lines are those of each run, one after the other. */
  lemma {:induction false} ObjetosConcat(a: seq<string>, b: seq<string>, k: TipoSped)
    ensures Objetos(a + b, k) == Objetos(a, k) + Objetos(b, k)
    decreases |b|
  {
    if |b| == 0 {
      assert a + b == a;
    } else {
      assert (a + b)[..|a + b| - 1] == a + b[..|b| - 1];
      assert (a + b)[|a + b| - 1] == b[|b| - 1];
      ObjetosConcat(a, b[..|b| - 1], k);
    }
  }

  /** A line that gives nothing does not stop the lines after it from being read. */
  lemma {:induction false} LinhaSemObjeto(antes: seq<string>, linha: string, depois: seq<string>, k: TipoSped)
    requires ObjetoDaLinha(linha, k) == []
    ensures Objetos(antes + [linha] + depois, k) == Objetos(antes, k) + Objetos(depois, k)
  {
    ObjetosConcat(antes, [linha], k);
    ObjetosConcat(antes + [linha], depois, k);
    assert [linha][..0] == [];
  }

  // ---------------------------------------------------------------- relations between records

  /** The key an item is grouped under: its `documentoId`, `''` when that is falsy. */
  function ChaveItem(item: Obj): string
  {
    Chave(Or(Prop(item, "documentoId"), Str("")))
  }

  /** The key a document looks its items up by: its `id`. */
  function ChaveDocumento(doc: Documento): string
  {
    Chave(Prop(doc.dados, "id"))
  }

  /** `itensPorDocumento`: the items grouped by key, each group in the order of the items. */
  function ItensPorDocumento(itens: seq<Obj>): map<string, seq<Obj>>
    decreases |itens|
  {
    if |itens| == 0 then map[]
    else
      var g := ItensPorDocumento(itens[..|itens| - 1]);
      var item := itens[|itens| - 1];
      g[ChaveItem(item) := Bucket(g, ChaveItem(item)) + [item]]
  }

  /** The items with key `c`, in order. */
  function ItensComChave(itens: seq<Obj>, c: string): (r: seq<Obj>)
    ensures |r| <= |itens|
    ensures forall i :: 0 <= i < |r| ==> ChaveItem(r[i]) == c
    decreases |itens|
  {
    if |itens| == 0 then []
    else ItensComChave(itens[..|itens| - 1], c) + (if ChaveItem(itens[|itens| - 1]) == c then [itens[|itens| - 1]] else [])
  }

  /** Each group is exactly the items of its key, in their original order; no group is empty. */
  lemma {:induction false} ItensPorDocumentoFiltra(itens: seq<Obj>, c: string)
    ensures Bucket(ItensPorDocumento(itens), c) == ItensComChave(itens, c)
    ensures c in ItensPorDocumento(itens) <==> |ItensComChave(itens, c)| > 0
    decreases |itens|
  {
    if |itens| > 0 {
      ItensPorDocumentoFiltra(itens[..|itens| - 1], c);
    }
  }

  /** `doc.itens = itensPorDocumento[doc.id] || []`. */
  function ComItens(doc: Documento, grupos: map<string, seq<Obj>>): Documento
  {
    doc.(itens := Some(Bucket(grupos, ChaveDocumento(doc))))
  }

  /** `participantesPorCodigo`: each code names the last participant with it. */
  function PorCodigo(participantes: seq<Obj>): map<string, Obj>
    decreases |participantes|
  {
    if |participantes| == 0 then map[]
    else
      var p := participantes[|participantes| - 1];
      PorCodigo(participantes[..|participantes| - 1])[Chave(Prop(p, "codigo")) := p]
  }

  /** The last participant with code `c`. */
  function UltimoParticipante(participantes: seq<Obj>, c: string): Option<Obj>
    decreases |participantes|
  {
    if |participantes| == 0 then None
    else if Chave(Prop(participantes[|participantes| - 1], "codigo")) == c then Some(participantes[|participantes| - 1])
    else UltimoParticipante(participantes[..|participantes| - 1], c)
  }

  /** A code looks up the last participant that has it. */
  lemma {:induction false} PorCodigoUltimo(participantes: seq<Obj>, c: string)
    ensures c in PorCodigo(participantes) <==> UltimoParticipante(participantes, c).Some?
    ensures c in PorCodigo(participantes) ==> PorCodigo(participantes)[c] == UltimoParticipante(participantes, c).value
    decreases |participantes|
  {
    if |participantes| > 0 {
      PorCodigoUltimo(participantes[..|participantes| - 1], c);
    }
  }

  /** `if (doc.codPart && porCodigo[doc.codPart]) doc.participante = porCodigo[doc.codPart]`. */
  function ComParticipante(doc: Documento, porCodigo: map<string, Obj>): Documento
  {
    var cod := Prop(doc.dados, "codPart");
    if !Falsy(cod) && Chave(cod) in porCodigo then doc.(participante := Some(porCodigo[Chave(cod)])) else doc
  }

  /** The documents with their items attached, when there are documents and items. */
  function RelacionarItens(e: Extracao): (r: Extracao)
    ensures |r.documentos| == |e.documentos|
  {
    if |e.documentos| > 0 && |e.itens| > 0 then
      var g := ItensPorDocumento(e.itens);
      e.(documentos := seq(|e.documentos|, i requires 0 <= i < |e.documentos| => ComItens(e.documentos[i], g)))
    else e
  }

  /** The documents with their participant attached, when there are documents and participants. */
  function RelacionarParticipantes(e: Extracao): (r: Extracao)
    ensures |r.documentos| == |e.documentos|
  {
    if |e.documentos| > 0 && |ListaDe(e, Participantes)| > 0 then
      var pc := PorCodigo(ListaDe(e, Participantes));
      e.(documentos := seq(|e.documentos|, i requires 0 <= i < |e.documentos| => ComParticipante(e.documentos[i], pc)))
    else e
  }

  /** After the relations are made, a document's items are exactly the items of its key, in order. */
  lemma {:induction false} ItensDoDocumento(e: Extracao, j: nat)
    requires j < |e.documentos| && |e.itens| > 0
    ensures RelacionarItens(e).documentos[j].itens == Some(ItensComChave(e.itens, ChaveDocumento(e.documentos[j])))
    ensures RelacionarItens(e).documentos[j].dados == e.documentos[j].dados
  {
    ItensPorDocumentoFiltra(e.itens, ChaveDocumento(e.documentos[j]));
  }

  /** A document whose code names a participant gets the last participant with that code. */
  lemma {:induction false} ParticipanteDoDocumento(e: Extracao, j: nat)
    requires j < |e.documentos|
    ensures var doc := RelacionarParticipantes(e).documentos[j];
      var cod := Prop(e.documentos[j].dados, "codPart");
      var u := UltimoParticipante(ListaDe(e, Participantes), Chave(cod));
      (!Falsy(cod) && u.Some? ==> doc.participante == u)
      && (Falsy(cod) || u.None? ==> doc == e.documentos[j])
  {
    var cod := Prop(e.documentos[j].dados, "codPart");
    PorCodigoUltimo(ListaDe(e, Participantes), Chave(cod));
    if |ListaDe(e, Participantes)| == 0 {
      assert UltimoParticipante(ListaDe(e, Participantes), Chave(cod)).None?;
    }
  }

  /** No document gets an item when no item names a document and no document has an `id`. */
  lemma {:induction false} SemIdNenhumItem(e: Extracao, j: nat)
    requires j < |e.documentos| && |e.itens| > 0
    requires forall i :: 0 <= i < |e.itens| ==> Falsy(Prop(e.itens[i], "documentoId"))
    requires "id" !in e.documentos[j].dados
    ensures RelacionarItens(e).documentos[j].itens == Some([])
  {
    ItensDoDocumento(e, j);
    assert ChaveDocumento(e.documentos[j]) == "undefined";
    SemChave(e.itens, "undefined");
  }

  lemma {:induction false} SemChave(itens: seq<Obj>, c: string)
    requires forall i :: 0 <= i < |itens| ==> Falsy(Prop(itens[i], "documentoId"))
    requires c != ""
    ensures ItensComChave(itens, c) == []
    decreases |itens|
  {
    if |itens| > 0 {
      var p := itens[..|itens| - 1];
      assert forall i :: 0 <= i < |p| ==> p[i] == itens[i];
      SemChave(p, c);
    }
  }

  // ---------------------------------------------------------------- accounting totals (ECD)

  /**
   * Which accounts a total adds up: a code group, optionally a word the lower-cased account name
   * may contain instead, and the balance side (`D` debit, `C` credit).
   */
  datatype Criterio = Criterio(prefixo: string, termo: string, natureza: string)

  const AtivoCirculante := Criterio("1.1", "", "D")
  const PassivoCirculante := Criterio("2.1", "", "C")
  const Clientes := Criterio("1.1.2", "client", "D")
  const Estoques := Criterio("1.1.3", "estoq", "D")
  const Fornecedores := Criterio("2.1.1", "fornece", "C")
  const ReceitaBruta := Criterio("3.1.1", "", "C")
  const ReceitaLiquida := Criterio("3.1", "", "C")
  const LucroBruto := Criterio("3.3", "", "C")
  const ResultadoOperacional := Criterio("3.5", "", "C")
  const LucroLiquido := Criterio("3.11", "", "C")

  /** A code inside group `g` of the chart of accounts: `g` itself or one of its sub-accounts. */
  predicate NoGrupo(codigo: string, g: string)
  {
    codigo == g || StartsWith(codigo, g + ".")
  }

  /**
   * Whether an account counts for a total. The source compares codes with `startsWith`
   * (`hierarquico` false), which also takes `3.11` for a member of `3.1`; the hierarchical reading
   * (`hierarquico` true) takes only the group and its sub-accounts.
   */
  predicate Casa(conta: Obj, c: Criterio, hierarquico: bool)
  {
    var codigo := Texto(Prop(conta, "codigoConta"));
    var porCodigo := if hierarquico then NoGrupo(codigo, c.prefixo) else StartsWith(codigo, c.prefixo);
    (porCodigo || (c.termo != "" && Includes(ToLower(Texto(Prop(conta, "descricaoConta"))), c.termo)))
      && Prop(conta, "naturezaSaldo") == Str(c.natureza)
  }

  /** `contas.filter(...).reduce((soma, conta) => soma + conta.saldoFinal, 0)`. */
  function SomaSaldo(contas: seq<Obj>, c: Criterio, hierarquico: bool): real
    decreases |contas|
  {
    if |contas| == 0 then 0.0
    else
      var conta := contas[|contas| - 1];
      SomaSaldo(contas[..|contas| - 1], c, hierarquico)
        + (if Casa(conta, c, hierarquico) then NumValue(Prop(conta, "saldoFinal")) else 0.0)
  }

  /** Totals add up across a split of the accounts. */
  lemma {:induction false} SomaSaldoConcat(a: seq<Obj>, b: seq<Obj>, c: Criterio, h: bool)
    ensures SomaSaldo(a + b, c, h) == SomaSaldo(a, c, h) + SomaSaldo(b, c, h)
    decreases |b|
  {
    if |b| == 0 {
      assert a + b == a;
    } else {
      assert (a + b)[..|a + b| - 1] == a + b[..|b| - 1];
      SomaSaldoConcat(a, b[..|b| - 1], c, h);
    }
  }

  /** A total over more inclusive criteria is no smaller when no balance is negative. */
  lemma {:induction false} SomaSaldoMonotona(contas: seq<Obj>, c: Criterio, d: Criterio, h: bool)
    requires forall i :: 0 <= i < |contas| ==> NumValue(Prop(contas[i], "saldoFinal")) >= 0.0
    requires forall i :: 0 <= i < |contas| && Casa(contas[i], c, h) ==> Casa(contas[i], d, h)
    ensures SomaSaldo(contas, c, h) <= SomaSaldo(contas, d, h)
    decreases |contas|
  {
    if |contas| > 0 {
      var p := contas[..|contas| - 1];
      assert forall i :: 0 <= i < |p| ==> p[i] == contas[i];
      SomaSaldoMonotona(p, c, d, h);
    }
  }

  /** Sub-groups: an account of `g.x` belongs to `g`. */
  lemma {:induction false} SubGrupo(codigo: string, g: string, x: string)
    requires NoGrupo(codigo, g + "." + x)
    ensures NoGrupo(codigo, g)
  {
    var h := g + "." + x;
    assert (g + ".")[..] == h[..|g + "."|];
    if codigo == h {
      assert codigo[..|g + "."|] == h[..|g + "."|];
    } else {
      assert codigo[..|h + "."|] == h + ".";
      assert codigo[..|g + "."|] == (h + ".")[..|g + "."|];
    }
  }

  /**
   * Gross revenue never exceeds net revenue when no balance is negative, under either matching:
   * `3.1.1` lies inside `3.1` as a group and as a prefix.
   */
  lemma {:induction false} ReceitaBrutaNaLiquida(contas: seq<Obj>, h: bool)
    requires forall i :: 0 <= i < |contas| ==> NumValue(Prop(contas[i], "saldoFinal")) >= 0.0
    ensures SomaSaldo(contas, ReceitaBruta, h) <= SomaSaldo(contas, ReceitaLiquida, h)
  {
    forall i | 0 <= i < |contas| && Casa(contas[i], ReceitaBruta, h) ensures Casa(contas[i], ReceitaLiquida, h) {
      var codigo := Texto(Prop(contas[i], "codigoConta"));
      if h {
        assert "3.1.1" == "3.1" + "." + "1";
        SubGrupo(codigo, "3.1", "1");
      } else if StartsWith(codigo, "3.1.1") {
        assert codigo[..3] == codigo[..5][..3];
      }
    }
    SomaSaldoMonotona(contas, ReceitaBruta, ReceitaLiquida, h);
  }

  /** An income-statement account with a code and a credit balance. */
  function ContaDre(codigo: string, saldo: real): Obj
  {
    map["tipo" := Str("demonstracao_resultado"), "codigoConta" := Str(codigo), "descricaoConta" := Str(""),
        "saldoFinal" := Num(saldo), "naturezaSaldo" := Str("C")]
  }

  /** As written, the net profit account `3.11` is counted again in the net revenue of `3.1`. */
  lemma {:induction false} LucroNaReceitaComoEscrito()
    ensures SomaSaldo([ContaDre("3.11", 100.0)], ReceitaLiquida, false) == 100.0
    ensures SomaSaldo([ContaDre("3.11", 100.0)], LucroLiquido, false) == 100.0
  {
    var conta := ContaDre("3.11", 100.0);
    assert [conta][..0] == [];
    assert Texto(Prop(conta, "codigoConta")) == "3.11";
    assert "3.11"[..3] == "3.1";
  }

  /** Read as groups, `3.1` and `3.11` share no account, and `3.11` is not net revenue. */
  lemma {:induction false} ReceitaSemLucro(codigo: string)
    ensures !(NoGrupo(codigo, "3.1") && NoGrupo(codigo, "3.11"))
    ensures SomaSaldo([ContaDre("3.11", 100.0)], ReceitaLiquida, true) == 0.0
  {
    var conta := ContaDre("3.11", 100.0);
    assert [conta][..0] == [];
    assert Texto(Prop(conta, "codigoConta")) == "3.11";
    assert "3.11" != "3.1" && "3.11"[3] != ("3.1" + ".")[3];
  }

  /**
   * `processarDadosContabeis`: the balance-sheet totals and the income-statement totals, each when its
   * list is not empty. With `hierarquico` false every total matches codes by `startsWith`, as the source
   * does; with `hierarquico` true every total reads its code as a group of the chart of accounts.
   */
  function Contabeis(e: Extracao, hierarquico: bool): (r: Extracao)
    ensures r.(totais := e.totais) == e
    ensures r.totais.Keys == e.totais.Keys
      + (if |ListaDe(e, BalancoPatrimonial)| > 0 then ChavesBalanco else {})
      + (if |ListaDe(e, DemonstracaoResultado)| > 0 then ChavesResultado else {})
    ensures forall k :: k in e.totais && k !in ChavesBalanco && k !in ChavesResultado ==> r.totais[k] == e.totais[k]
  {
    var bp := ListaDe(e, BalancoPatrimonial);
    var dr := ListaDe(e, DemonstracaoResultado);
    var t1 := if |bp| > 0 then TotaisBalanco(e.totais, bp, hierarquico) else e.totais;
    var t2 := if |dr| > 0 then TotaisResultado(t1, dr, hierarquico) else t1;
    e.(totais := t2)
  }

  /** The totals the balance sheet writes. */
  const ChavesBalanco: set<string> :=
    {"ativoCirculante", "passivoCirculante", "capitalGiro", "saldoClientes", "saldoEstoques", "saldoFornecedores"}

  /** The totals the income statement writes. */
  const ChavesResultado: set<string> :=
    {"receitaBruta", "receitaLiquida", "lucroBruto", "resultadoOperacional", "lucroLiquido"}

  /** The balance-sheet totals written over `t`. */
  function TotaisBalanco(t: map<string, real>, bp: seq<Obj>, h: bool): (r: map<string, real>)
    ensures r.Keys == t.Keys + ChavesBalanco
    ensures forall k :: k in t && k !in ChavesBalanco ==> r[k] == t[k]
  {
    var ativo := SomaSaldo(bp, AtivoCirculante, h);
    var passivo := SomaSaldo(bp, PassivoCirculante, h);
    t["ativoCirculante" := ativo]["passivoCirculante" := passivo]["capitalGiro" := ativo - passivo]
      ["saldoClientes" := SomaSaldo(bp, Clientes, h)]["saldoEstoques" := SomaSaldo(bp, Estoques, h)]
      ["saldoFornecedores" := SomaSaldo(bp, Fornecedores, h)]
  }

  /** The income-statement totals written over `t`. */
  function TotaisResultado(t: map<string, real>, dr: seq<Obj>, h: bool): (r: map<string, real>)
    ensures r.Keys == t.Keys + ChavesResultado
    ensures forall k :: k in t && k !in ChavesResultado ==> r[k] == t[k]
  {
    t["receitaBruta" := SomaSaldo(dr, ReceitaBruta, h)]["receitaLiquida" := SomaSaldo(dr, ReceitaLiquida, h)]
      ["lucroBruto" := SomaSaldo(dr, LucroBruto, h)]["resultadoOperacional" := SomaSaldo(dr, ResultadoOperacional, h)]
      ["lucroLiquido" := SomaSaldo(dr, LucroLiquido, h)]
  }

  /** The income-statement totals leave every balance-sheet key of `t` as it was. */
  lemma {:induction false} ResultadoPreservaBalanco(t: map<string, real>, dr: seq<Obj>, h: bool, k: string)
    requires k in ChavesBalanco
    requires k in t
    ensures k in TotaisResultado(t, dr, h) && TotaisResultado(t, dr, h)[k] == t[k]
  {
  }

  /**
   * Working capital is current assets less current liabilities, each the sum of the balances its criterion
   * selects; the six balance-sheet totals are written and nothing but the totals changes.
   */
  lemma {:induction false} CapitalDeGiro(e: Extracao, h: bool)
    requires |ListaDe(e, BalancoPatrimonial)| > 0
    ensures var t := Contabeis(e, h).totais; var bp := ListaDe(e, BalancoPatrimonial);
      "capitalGiro" in t && "ativoCirculante" in t && "passivoCirculante" in t
      && t["ativoCirculante"] == SomaSaldo(bp, AtivoCirculante, h)
      && t["passivoCirculante"] == SomaSaldo(bp, PassivoCirculante, h)
      && t["capitalGiro"] == t["ativoCirculante"] - t["passivoCirculante"]
      && t["saldoClientes"] == SomaSaldo(bp, Clientes, h) && t["saldoEstoques"] == SomaSaldo(bp, Estoques, h)
      && t["saldoFornecedores"] == SomaSaldo(bp, Fornecedores, h)
    ensures Contabeis(e, h).(totais := e.totais) == e
  {
    var bp := ListaDe(e, BalancoPatrimonial);
    var dr := ListaDe(e, DemonstracaoResultado);
    var t1 := TotaisBalanco(e.totais, bp, h);
    if |dr| > 0 {
      ResultadoPreservaBalanco(t1, dr, h, "ativoCirculante");
      ResultadoPreservaBalanco(t1, dr, h, "passivoCirculante");
      ResultadoPreservaBalanco(t1, dr, h, "capitalGiro");
      ResultadoPreservaBalanco(t1, dr, h, "saldoClientes");
      ResultadoPreservaBalanco(t1, dr, h, "saldoEstoques");
      ResultadoPreservaBalanco(t1, dr, h, "saldoFornecedores");
    }
  }

  /** The five income-statement totals are the sums of the balances their criteria select; nothing but the totals changes. */
  lemma {:induction false} TotaisDoResultado(e: Extracao, h: bool)
    requires |ListaDe(e, DemonstracaoResultado)| > 0
    ensures var t := Contabeis(e, h).totais; var dr := ListaDe(e, DemonstracaoResultado);
      && "receitaBruta" in t && t["receitaBruta"] == SomaSaldo(dr, ReceitaBruta, h)
      && "receitaLiquida" in t && t["receitaLiquida"] == SomaSaldo(dr, ReceitaLiquida, h)
      && "lucroBruto" in t && t["lucroBruto"] == SomaSaldo(dr, LucroBruto, h)
      && "resultadoOperacional" in t && t["resultadoOperacional"] == SomaSaldo(dr, ResultadoOperacional, h)
      && "lucroLiquido" in t && t["lucroLiquido"] == SomaSaldo(dr, LucroLiquido, h)
    ensures Contabeis(e, h).(totais := e.totais) == e
  {
  }

  /**
   * The two readings of the accounting totals on a file whose only income-statement account is `3.11`
   * with a credit balance of 100: as written the net revenue is 100, read as groups it is 0.
   */
  lemma {:induction false} ReceitaLiquidaDasLeituras(e: Extracao)
    requires ListaDe(e, DemonstracaoResultado) == [ContaDre("3.11", 100.0)]
    ensures Contabeis(e, false).totais["receitaLiquida"] == 100.0
    ensures Contabeis(e, true).totais["receitaLiquida"] == 0.0
  {
    TotaisDoResultado(e, false);
    TotaisDoResultado(e, true);
    LucroNaReceitaComoEscrito();
    ReceitaSemLucro("3.11");
  }

  // ---------------------------------------------------------------- tax figures (ECF)

  /** `lista.reduce((soma, x) => soma + x[k], 0)`, a missing or non-numeric value counting as 0. */
  function SomaProp(xs: seq<Obj>, k: string): real
    decreases |xs|
  {
    if |xs| == 0 then 0.0 else SomaProp(xs[..|xs| - 1], k) + NumValue(Prop(xs[|xs| - 1], k))
  }

  /** The revenue of the export lines (`isExportacao`). */
  function SomaExportacao(xs: seq<Obj>): real
    decreases |xs|
  {
    if |xs| == 0 then 0.0
    else
      var x := xs[|xs| - 1];
      SomaExportacao(xs[..|xs| - 1]) + (if !Falsy(Prop(x, "isExportacao")) then NumValue(Prop(x, "valorReceita")) else 0.0)
  }

  /** Export revenue is part of total revenue when no revenue is negative. */
  lemma {:induction false} ExportacaoNoTotal(xs: seq<Obj>)
    requires forall i :: 0 <= i < |xs| ==> NumValue(Prop(xs[i], "valorReceita")) >= 0.0
    ensures 0.0 <= SomaExportacao(xs) <= SomaProp(xs, "valorReceita")
    decreases |xs|
  {
    if |xs| > 0 {
      var p := xs[..|xs| - 1];
      assert forall i :: 0 <= i < |p| ==> p[i] == xs[i];
      ExportacaoNoTotal(p);
    }
  }

  /** `base > 0 ? valor / base : 0`. */
  function Razao(valor: real, base: real): real
  {
    if base > 0.0 then valor / base else 0.0
  }

  /** The totals the tax figures write. */
  const ChavesFiscais: set<string> :=
    {"valorTotalIncentivos", "aliquotaEfetivaIRPJ", "aliquotaEfetivaCSLL", "percentualExportacao"}

  /** `processarDadosFiscais`: incentives, effective IRPJ and CSLL rates, and the export share. */
  function Fiscais(e: Extracao): (r: Extracao)
    ensures r.(totais := e.totais) == e
    ensures var calculo := IndiceDe(e, CalculoImposto);
      var lucro := "lucro_liquido" in IndiceDe(e, Dre);
      forall k :: k in r.totais <==>
        k in e.totais
        || (k == "valorTotalIncentivos" && |ListaDe(e, IncentivosFiscais)| > 0)
        || (k == "aliquotaEfetivaIRPJ" && "irpj" in calculo && lucro)
        || (k == "aliquotaEfetivaCSLL" && "csll" in calculo && lucro)
        || (k == "percentualExportacao" && |ListaDe(e, DiscriminacaoReceita)| > 0)
    ensures forall k :: k in e.totais && k !in ChavesFiscais ==> r.totais[k] == e.totais[k]
    ensures |ListaDe(e, IncentivosFiscais)| > 0 ==>
      r.totais["valorTotalIncentivos"] == SomaProp(ListaDe(e, IncentivosFiscais), "valorIncentivo")
  {
    var inc := ListaDe(e, IncentivosFiscais);
    var calculo := IndiceDe(e, CalculoImposto);
    var lucro := "lucro_liquido" in IndiceDe(e, Dre);
    var disc := ListaDe(e, DiscriminacaoReceita);
    var t1 := if |inc| > 0 then e.totais["valorTotalIncentivos" := SomaProp(inc, "valorIncentivo")] else e.totais;
    var t2 :=
      if "irpj" in calculo && lucro then
        var irpj := calculo["irpj"];
        t1["aliquotaEfetivaIRPJ" := Razao(NumValue(Prop(irpj, "valorIRPJ")) + NumValue(Prop(irpj, "valorAdicional")),
                                          NumValue(Prop(irpj, "baseCalculoIRPJ")))]
      else t1;
    var t3 :=
      if "csll" in calculo && lucro then
        var csll := calculo["csll"];
        t2["aliquotaEfetivaCSLL" := Razao(NumValue(Prop(csll, "valorCSLL")), NumValue(Prop(csll, "baseCalculoCSLL")))]
      else t2;
    var t4 :=
      if |disc| > 0 then t3["percentualExportacao" := Razao(SomaExportacao(disc), SomaProp(disc, "valorReceita"))]
      else t3;
    e.(totais := t4)
  }

  /** The export share is a fraction between 0 and 1 when no revenue is negative. */
  lemma {:induction false} PercentualExportacao(e: Extracao)
    requires |ListaDe(e, DiscriminacaoReceita)| > 0
    requires var disc := ListaDe(e, DiscriminacaoReceita);
      forall i :: 0 <= i < |disc| ==> NumValue(Prop(disc[i], "valorReceita")) >= 0.0
    ensures "percentualExportacao" in Fiscais(e).totais
    ensures 0.0 <= Fiscais(e).totais["percentualExportacao"] <= 1.0
  {
    var disc := ListaDe(e, DiscriminacaoReceita);
    ExportacaoNoTotal(disc);
    var x := SomaExportacao(disc);
    var t := SomaProp(disc, "valorReceita");
    RazaoFracao(x, t);
  }

  /** A part of a non-negative whole over that whole is a fraction between 0 and 1. */
  lemma {:induction false} RazaoFracao(x: real, t: real)
    requires 0.0 <= x <= t
    ensures 0.0 <= Razao(x, t) <= 1.0
  {
    if t > 0.0 {
      var q := x / t;
      assert q * t == x;
      if q > 1.0 {
        assert q * t > t;
      }
    }
  }

  /**
   * `processarRelacoesEntreDados`: items, then participants, then the totals of the file kind;
   * `hierarquico` chooses how the accounting totals match codes, as in `Contabeis`.
   */
  function Relacionar(e: Extracao, k: TipoSped, hierarquico: bool): Extracao
  {
    var r := RelacionarParticipantes(RelacionarItens(e));
    match k
    case Ecd => Contabeis(r, hierarquico)
    case Ecf => Fiscais(r)
    case _ => r
  }

  // ---------------------------------------------------------------- the result object

  /** The growing `resultado` of `extrairDados`, updated in place record by record. */
  class Resultado {
    var empresa: Obj
    var documentos: seq<Documento>
    var itens: seq<Obj>
    var porCategoria: map<Agrupamento, map<string, seq<Obj>>>
    var porChave: map<Indice, map<string, Obj>>
    var listas: map<Lista, seq<Obj>>
    var totais: map<string, real>

    /** The value the object holds. */
    function Estado(): Extracao
      reads this
    {
      Extracao(empresa, documentos, itens, porCategoria, porChave, listas, totais)
    }

    constructor ()
      ensures Estado() == Vazia()
    {
      empresa, documentos, itens := map[], [], [];
      porCategoria, porChave, listas, totais := map[], map[], map[], map[];
    }

    /** `integrarDados(resultado, dados)`: the record lands where its `tipo` routes it. */
    method IntegrarDados(dados: Obj)
      modifies this
      ensures Estado() == Integrar(old(Estado()), dados)
    {
      match DestinoObj(dados)
      case AEmpresa =>
        if EmpresaValida(dados) {
          empresa := empresa + dados;
        }
      case ADocumento =>
        if DocumentoValido(dados) {
          documentos := documentos + [Documento(dados, None, None)];
        }
      case AItem =>
        if ItemValido(dados) {
          itens := itens + [dados];
        }
      case AImposto =>
        if DebitoDisfarcado(dados) {
          Empilhar(Debitos, Categoria(dados), dados["tipo" := Str("debito")]);
        } else {
          Empilhar(Impostos, Categoria(dados), dados);
        }
      case AAgrupar(g) =>
        Empilhar(g, Categoria(dados), dados);
      case AIndexar(u) =>
        porChave := porChave[u := Indexado(porChave, u)[Categoria(dados) := dados]];
      case ACalculo(nome) =>
        porChave := porChave[CalculoImposto := Indexado(porChave, CalculoImposto)[nome := dados]];
      case ALista(l) =>
        listas := listas[l := ListaDe(Estado(), l) + [dados]];
      case Nenhum =>
    }

    /** `if (!grupo[c]) grupo[c] = []; grupo[c].push(o)`. */
    method Empilhar(g: Agrupamento, c: string, o: Obj)
      modifies this
      ensures porCategoria == old(porCategoria)[g := Grupo(old(porCategoria), g)[c := Bucket(Grupo(old(porCategoria), g), c) + [o]]]
      ensures empresa == old(empresa) && documentos == old(documentos) && itens == old(itens)
      ensures porChave == old(porChave) && listas == old(listas) && totais == old(totais)
    {
      var m := Grupo(porCategoria, g);
      porCategoria := porCategoria[g := m[c := Bucket(m, c) + [o]]];
    }

    /** `processarRelacoesEntreDados`: attach items and participants, then compute the kind's totals. */
    method ProcessarRelacoesEntreDados(k: TipoSped, hierarquico: bool)
      modifies this
      ensures Estado() == Relacionar(old(Estado()), k, hierarquico)
    {
      RelacionarItensDocumentos();
      RelacionarParticipantesDocumentos();
      if k == Ecd {
        totais := Contabeis(Estado(), hierarquico).totais;
      } else if k == Ecf {
        totais := Fiscais(Estado()).totais;
      }
    }

    /** Each document's `itens` set from the items grouped by `documentoId`. */
    method RelacionarItensDocumentos()
      modifies this
      ensures Estado() == RelacionarItens(old(Estado()))
    {
      if |documentos| > 0 && |itens| > 0 {
        var grupos := AgruparItens(itens);
        var docs := documentos;
        var i := 0;
        while i < |docs|
          invariant 0 <= i <= |docs| && |docs| == |documentos|
          invariant forall j :: 0 <= j < i ==> docs[j] == ComItens(documentos[j], grupos)
          invariant forall j :: i <= j < |docs| ==> docs[j] == documentos[j]
        {
          docs := docs[i := ComItens(docs[i], grupos)];
          i := i + 1;
        }
        documentos := docs;
      }
    }

    /** Each document's `participante` set from the participants indexed by code. */
    method RelacionarParticipantesDocumentos()
      modifies this
      ensures Estado() == RelacionarParticipantes(old(Estado()))
    {
      var participantes := ListaDe(Estado(), Participantes);
      if |documentos| > 0 && |participantes| > 0 {
        var porCodigo := IndexarParticipantes(participantes);
        var docs := documentos;
        var i := 0;
        while i < |docs|
          invariant 0 <= i <= |docs| && |docs| == |documentos|
          invariant forall j :: 0 <= j < i ==> docs[j] == ComParticipante(documentos[j], porCodigo)
          invariant forall j :: i <= j < |docs| ==> docs[j] == documentos[j]
        {
          docs := docs[i := ComParticipante(docs[i], porCodigo)];
          i := i + 1;
        }
        documentos := docs;
      }
    }

    /** The loop of `extrairDados`: every line's record, if any, is integrated in order. */
    method ProcessarLinhasDados(linhas: seq<string>, k: TipoSped)
      modifies this
      ensures Estado() == IntegrarTodos(old(Estado()), Objetos(linhas, k))
    {
      ghost var e := Estado();
      var i := 0;
      while i < |linhas|
        invariant 0 <= i <= |linhas|
        invariant Estado() == IntegrarTodos(e, Objetos(linhas[..i], k))
      {
        ProcessarLinhaDados(linhas[i], k);
        IntegrarLinhaSeguinte(e, linhas, i, k);
        i := i + 1;
      }
      assert linhas[..|linhas|] == linhas;
    }

    /** One line of the loop of `extrairDados`: its record, if any, is integrated. */
    method ProcessarLinhaDados(linha: string, k: TipoSped)
      modifies this
      ensures var o := ObjetoDaLinha(linha, k);
        Estado() == if o == [] then old(Estado()) else Integrar(old(Estado()), o[0])
    {
      var campos := Split(linha, '|');
      if Trim(linha) != "" && |campos| >= 2 && campos[1] in Parsers(k) {
        var saida := Executar(Parsers(k)[campos[1]], campos);
        if saida.Objeto? {
          IntegrarDados(saida.o);
        }
      }
    }
  }

  /** The `forEach` that groups the items by document. */
  method AgruparItens(itens: seq<Obj>) returns (grupos: map<string, seq<Obj>>)
    ensures grupos == ItensPorDocumento(itens)
  {
    grupos := map[];
    var i := 0;
    while i < |itens|
      invariant 0 <= i <= |itens|
      invariant grupos == ItensPorDocumento(itens[..i])
    {
      assert itens[..i + 1][..i] == itens[..i];
      var c := ChaveItem(itens[i]);
      grupos := grupos[c := Bucket(grupos, c) + [itens[i]]];
      i := i + 1;
    }
    assert itens[..|itens|] == itens;
  }

  /** The `forEach` that indexes the participants by code. */
  method IndexarParticipantes(participantes: seq<Obj>) returns (porCodigo: map<string, Obj>)
    ensures porCodigo == PorCodigo(participantes)
  {
    porCodigo := map[];
    var i := 0;
    while i < |participantes|
      invariant 0 <= i <= |participantes|
      invariant porCodigo == PorCodigo(participantes[..i])
    {
      assert participantes[..i + 1][..i] == participantes[..i];
      porCodigo := porCodigo[Chave(Prop(participantes[i], "codigo")) := participantes[i]];
      i := i + 1;
    }
    assert participantes[..|participantes|] == participantes;
  }

  /**
   * `extrairDados(linhas, tipo)`: the kind (given, detected or `fiscal`), every line's record
   * integrated in order, then the relations. `tipo` is `''` when absent. With `hierarquico` false the
   * accounting totals are those the source computes; with `hierarquico` true they are the group totals.
   */
  method ExtrairDados(linhas: seq<string>, tipo: string, hierarquico: bool) returns (resultado: Resultado)
    ensures fresh(resultado)
    ensures var k := TipoEfetivo(linhas, tipo);
      resultado.Estado() == Relacionar(IntegrarTodos(Vazia(), Objetos(linhas, k)), k, hierarquico)
  {
    resultado := new Resultado();
    var k := TipoParaExtracao(linhas, tipo);
    resultado.ProcessarLinhasDados(linhas, k);
    resultado.ProcessarRelacoesEntreDados(k, hierarquico);
  }

  /** The kind `extrairDados` settles on: the given one, else the detected one, else `fiscal`. */
  method TipoParaExtracao(linhas: seq<string>, tipo: string) returns (k: TipoSped)
    ensures k == TipoEfetivo(linhas, tipo)
  {
    k := Fiscal;
    if tipo != "" {
      var t := TipoDeNome(tipo);
      if t.Some? {
        k := t.value;
      }
    } else {
      var t := DeterminarTipoSped(linhas);
      DetectadoPeloMetodo(linhas, t);
      if t.Some? {
        k := t.value;
      }
    }
  }

  /** The integration of the lines so far and one more line. */
  lemma {:induction false} IntegrarUmaLinha(e: Extracao, ls: seq<string>, linha: string, k: TipoSped)
    ensures IntegrarTodos(e, Objetos(ls + [linha], k))
         == (if ObjetoDaLinha(linha, k) == [] then IntegrarTodos(e, Objetos(ls, k))
             else Integrar(IntegrarTodos(e, Objetos(ls, k)), ObjetoDaLinha(linha, k)[0]))
  {
    assert (ls + [linha])[..|ls|] == ls;
    var a := Objetos(ls, k);
    var b := ObjetoDaLinha(linha, k);
    if b == [] {
      assert a + b == a;
    } else {
      assert (a + b)[..|a + b| - 1] == a;
    }
  }

  /** The integration of the first `i + 1` lines is that of the first `i` and then line `i`. */
  lemma {:induction false} IntegrarLinhaSeguinte(e: Extracao, linhas: seq<string>, i: nat, k: TipoSped)
    requires i < |linhas|
    ensures IntegrarTodos(e, Objetos(linhas[..i + 1], k))
         == (if ObjetoDaLinha(linhas[i], k) == [] then IntegrarTodos(e, Objetos(linhas[..i], k))
             else Integrar(IntegrarTodos(e, Objetos(linhas[..i], k)), ObjetoDaLinha(linhas[i], k)[0]))
  {
    assert linhas[..i + 1] == linhas[..i] + [linhas[i]];
    IntegrarUmaLinha(e, linhas[..i], linhas[i], k);
  }

  /** The method's answer is the detected kind of the first 20 lines. */
  lemma {:induction false} DetectadoPeloMetodo(linhas: seq<string>, t: Option<TipoSped>)
    requires var n := if |linhas| < 20 then |linhas| else 20;
      (t.None? <==> forall j :: 0 <= j < n ==> TipoDaLinha(linhas[j]).None?)
      && (t.Some? ==> exists i :: 0 <= i < n && TipoDaLinha(linhas[i]) == t
                                && forall j :: 0 <= j < i ==> TipoDaLinha(linhas[j]).None?)
    ensures t == TipoDetectado(linhas, MinNat(|linhas|, 20))
  {
    var n := MinNat(|linhas|, 20);
    TipoDetectadoPrimeiro(linhas, n);
    if t.Some? {
      var i :| 0 <= i < n && TipoDaLinha(linhas[i]) == t && forall j :: 0 <= j < i ==> TipoDaLinha(linhas[j]).None?;
    }
  }
}
