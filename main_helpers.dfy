/**
 * The pure helpers of the simulator's main script: dotted property paths, the per-year figures
 * read safely from a simulation, the export structure built once, the transition-table rows,
 * the visibility rule of the import log's filters and the merge of SPED data into the form data.
 */
module Principal {
  import opened JsText
  import opened JsNumber

  // ---------------------------------------------------------------------------------------------
  // Values and property paths (`obterValorDePropertyPath`)

  /** A JavaScript value: a primitive, or an object with its own properties. */
  datatype Valor = Primitivo(p: JsVal) | Objeto(campos: map<string, Valor>)

  const Indefinido: Valor := Primitivo(Undefined)

  /** `!v`: objects are truthy. */
  predicate FalsyValor(v: Valor)
  {
    v.Primitivo? && Falsy(v.p)
  }

  /** `v === undefined || v === null`. */
  predicate Ausente(v: Valor)
  {
    v == Primitivo(Undefined) || v == Primitivo(Null)
  }

  /** `v[k]` on an object or a primitive other than null and undefined: an own property of an object, else undefined. */
  function Membro(v: Valor, k: string): (r: Valor)
    ensures v.Primitivo? ==> r == Indefinido
  {
    if v.Objeto? && k in v.campos then v.campos[k] else Indefinido
  }

  /** Walking `partes` from `v`: undefined as soon as the value reached before a segment is null or undefined. */
  function Caminho(v: Valor, partes: seq<string>): Valor
    decreases |partes|
  {
    if |partes| == 0 then v
    else if Ausente(v) then Indefinido
    else Caminho(Membro(v, partes[0]), partes[1..])
  }

  /** A walk along `a + b` is the walk along `b` from where the walk along `a` ends. */
  lemma {:induction false} CaminhoConcat(v: Valor, a: seq<string>, b: seq<string>)
    ensures Caminho(v, a + b) == Caminho(Caminho(v, a), b)
    decreases |a|
  {
    if |a| == 0 {
      assert a + b == b;
    } else if Ausente(v) {
      if |b| > 0 {
        assert Caminho(Indefinido, b) == Indefinido;
      }
    } else {
      assert (a + b)[1..] == a[1..] + b;
      CaminhoConcat(Membro(v, a[0]), a[1..], b);
    }
  }

  /** Once a null or undefined is reached, a longer walk gives undefined whatever the remaining segments. */
  lemma {:induction false} CaminhoInterrompido(v: Valor, a: seq<string>, b: seq<string>)
    requires Ausente(Caminho(v, a)) && |b| > 0
    ensures Caminho(v, a + b) == Indefinido
  {
    CaminhoConcat(v, a, b);
  }

  /** A text without a dot splits into itself. */
  lemma {:induction false} SplitSemPonto(s: string)
    requires !Includes(s, ".")
    ensures Split(s, '.') == [s]
  {
    var i := IndexOfChar(s, '.');
    if i < |s| {
      assert s[i..i + 1] == ".";
      assert OccursAt(s, ".", i);
    }
  }

  /** For a dotless path the walk is a direct lookup. */
  lemma {:induction false} CaminhoSemPonto(objeto: Valor, caminho: string)
    requires !FalsyValor(objeto) && !Includes(caminho, ".")
    ensures Caminho(objeto, Split(caminho, '.')) == Membro(objeto, caminho)
  {
    SplitSemPonto(caminho);
    assert !Ausente(objeto);
    assert [caminho][1..] == [];
  }

  /**
   * `obterValorDePropertyPath`: undefined for a falsy object or an empty path; otherwise the walk along
   * the path's dot-separated segments.
   */
  method ObterValorDePropertyPath(objeto: Valor, caminho: string) returns (r: Valor)
    ensures FalsyValor(objeto) || caminho == "" ==> r == Indefinido
    ensures !FalsyValor(objeto) && caminho != "" ==> r == Caminho(objeto, Split(caminho, '.'))
  {
    if FalsyValor(objeto) || caminho == "" {
      return Indefinido;
    }
    if !Includes(caminho, ".") {
      CaminhoSemPonto(objeto, caminho);
      return Membro(objeto, caminho);
    }
    var partes := Split(caminho, '.');
    var atual := objeto;
    var i := 0;
    while i < |partes|
      invariant 0 <= i <= |partes|
      invariant Caminho(atual, partes[i..]) == Caminho(objeto, partes)
    {
      if Ausente(atual) {
        return Indefinido;
      }
      assert partes[i..][1..] == partes[i + 1..];
      atual := Membro(atual, partes[i]);
      i := i + 1;
    }
    r := atual;
  }

  // ---------------------------------------------------------------------------------------------
  // The simulation's result, as far as these helpers read it

  /** One scenario of a year: `impostos.total`, `valorImpostoTotal` and `capitalGiroDisponivel`. */
  datatype Cenario = Cenario(impostosTotal: Option<real>, valorImpostoTotal: Option<real>, capitalGiroDisponivel: Option<real>)

  /** One entry of `projecaoTemporal.resultadosAnuais`. */
  datatype AnoSimulado = AnoSimulado(
    atual: Option<Cenario>, split: Option<Cenario>, ivaSemSplit: Option<Cenario>,
    diferencaCapitalGiro: Option<real>, diferencaCapitalGiroIVASemSplit: Option<real>,
    necessidadeAdicionalCapitalGiro: Option<real>, percentualImpacto: Option<real>, impactoDiasFaturamento: Option<real>)

  /** `impactoBase`: the scenarios and indicators of the base year. */
  datatype ImpactoBase = ImpactoBase(
    atual: Option<Cenario>, split: Option<Cenario>, ivaSemSplit: Option<Cenario>,
    diferencaCapitalGiro: Option<real>, diferencaCapitalGiroIVASemSplit: Option<real>,
    necessidadeAdicionalCapitalGiro: Option<real>, margemOperacionalOriginal: Option<real>,
    margemOperacionalAjustada: Option<real>, impactoMargem: Option<real>,
    percentualImpacto: Option<real>, impactoDiasFaturamento: Option<real>)

  /** `projecaoTemporal.impactoAcumulado`. */
  datatype Acumulado = Acumulado(totalNecessidadeCapitalGiro: Option<real>, custoFinanceiroTotal: Option<real>)

  /** `projecaoTemporal`: the years by number and the accumulated impact. */
  datatype Projecao = Projecao(resultadosAnuais: Option<map<int, AnoSimulado>>, impactoAcumulado: Option<Acumulado>)

  /** A simulation's result; `faturamento` is `memoriaCalculo.dadosEntrada.empresa.faturamento`. */
  datatype Resultado = Resultado(projecaoTemporal: Option<Projecao>, impactoBase: Option<ImpactoBase>, faturamento: Option<real>)

  /** `resultado.projecaoTemporal?.resultadosAnuais`. */
  function AnuaisDe(r: Resultado): Option<map<int, AnoSimulado>>
  {
    if r.projecaoTemporal.Some? then r.projecaoTemporal.value.resultadosAnuais else None
  }

  /** `resultado.projecaoTemporal?.resultadosAnuais?.[ano]`. */
  function AnoDe(r: Resultado, ano: int): Option<AnoSimulado>
  {
    var anuais := AnuaisDe(r);
    if anuais.Some? && ano in anuais.value then Some(anuais.value[ano]) else None
  }

  /** `c?.impostos?.total || c?.valorImpostoTotal || padrao`. */
  function ImpostoDe(c: Option<Cenario>, padrao: real): real
  {
    if c.None? then padrao else NumOr(c.value.impostosTotal, NumOr(c.value.valorImpostoTotal, padrao))
  }

  /** `c?.capitalGiroDisponivel || padrao`. */
  function GiroDe(c: Option<Cenario>, padrao: real): real
  {
    if c.None? then padrao else NumOr(c.value.capitalGiroDisponivel, padrao)
  }

  /** `c?.impostos?.total || 0`. */
  function TotalDe(c: Option<Cenario>): real
  {
    if c.None? then 0.0 else NumOr(c.value.impostosTotal, 0.0)
  }

  function Abs(x: real): (r: real)
    ensures r >= 0.0 && (r == x || r == -x)
  {
    if x < 0.0 then -x else x
  }

  // ---------------------------------------------------------------------------------------------
  // `obterDadosAnoSeguro`

  /** The figures shown for one year. */
  datatype DadosAno = DadosAno(
    valorImpostoAtual: real, valorImpostoSplit: real, valorImpostoIVASemSplit: real,
    diferencaImposto: real, diferencaImpostoIVASemSplit: real,
    capitalGiroAtual: real, capitalGiroSplit: real, capitalGiroIVASemSplit: real,
    diferencaCapitalGiro: real, diferencaCapitalGiroIVASemSplit: real, necessidadeAdicionalCapitalGiro: real,
    margemOriginal: real, margemAjustada: real, impactoMargem: real,
    percentualImpacto: real, impactoDiasFaturamento: real, totalNecessidadeGiro: real, custoFinanceiroTotal: real)

  /** The safe defaults: every figure 0. */
  const Padrao: DadosAno := DadosAno(0.0, 0.0, 0.0, 0.0, 0.0, 0.0, 0.0, 0.0, 0.0, 0.0, 0.0, 0.0, 0.0, 0.0, 0.0, 0.0, 0.0, 0.0)

  /** The figures read from the year's own entry. */
  function DoAno(a: AnoSimulado): DadosAno
  {
    var impostoAtual := ImpostoDe(a.atual, 0.0);
    var giroAtual := GiroDe(a.atual, 0.0);
    var giroSplit := GiroDe(a.split, 0.0);
    var giroIva := GiroDe(a.ivaSemSplit, giroAtual);
    var diferenca := NumOr(a.diferencaCapitalGiro, giroSplit - giroAtual);
    Padrao.(
      valorImpostoAtual := impostoAtual, valorImpostoSplit := ImpostoDe(a.split, 0.0),
      valorImpostoIVASemSplit := ImpostoDe(a.ivaSemSplit, impostoAtual),
      capitalGiroAtual := giroAtual, capitalGiroSplit := giroSplit, capitalGiroIVASemSplit := giroIva,
      diferencaCapitalGiro := diferenca,
      diferencaCapitalGiroIVASemSplit := NumOr(a.diferencaCapitalGiroIVASemSplit, giroIva - giroAtual),
      necessidadeAdicionalCapitalGiro := NumOr(a.necessidadeAdicionalCapitalGiro, Abs(diferenca) * 1.2),
      percentualImpacto := NumOr(a.percentualImpacto, 0.0),
      impactoDiasFaturamento := NumOr(a.impactoDiasFaturamento, 0.0))
  }

  /** The figures read from `impactoBase` when the year has no entry. */
  function DoImpacto(b: ImpactoBase): DadosAno
  {
    var impostoAtual := ImpostoDe(b.atual, 0.0);
    var giroAtual := GiroDe(b.atual, 0.0);
    Padrao.(
      valorImpostoAtual := impostoAtual, valorImpostoSplit := ImpostoDe(b.split, 0.0),
      valorImpostoIVASemSplit := ImpostoDe(b.ivaSemSplit, impostoAtual),
      capitalGiroAtual := giroAtual, capitalGiroSplit := GiroDe(b.split, 0.0),
      capitalGiroIVASemSplit := GiroDe(b.ivaSemSplit, giroAtual),
      diferencaCapitalGiro := NumOr(b.diferencaCapitalGiro, 0.0),
      diferencaCapitalGiroIVASemSplit := NumOr(b.diferencaCapitalGiroIVASemSplit, 0.0),
      necessidadeAdicionalCapitalGiro := NumOr(b.necessidadeAdicionalCapitalGiro, 0.0),
      margemOriginal := NumOr(b.margemOperacionalOriginal, 0.0) * 100.0,
      margemAjustada := NumOr(b.margemOperacionalAjustada, 0.0) * 100.0,
      impactoMargem := NumOr(b.impactoMargem, 0.0),
      percentualImpacto := NumOr(b.percentualImpacto, 0.0),
      impactoDiasFaturamento := NumOr(b.impactoDiasFaturamento, 0.0))
  }

  /**
   * `obterDadosAnoSeguro`: the year's entry, else `impactoBase`; with neither, reading `impactoBase`
   * throws and the safe defaults are returned. The tax differences and the accumulated figures come last.
   */
  function ObterDadosAnoSeguro(r: Resultado, ano: int): (d: DadosAno)
    ensures AnoDe(r, ano).None? && r.impactoBase.None? ==> d == Padrao
    ensures AnoDe(r, ano).Some? || r.impactoBase.Some? ==>
      && d.diferencaImposto == d.valorImpostoSplit - d.valorImpostoAtual
      && d.diferencaImpostoIVASemSplit == d.valorImpostoIVASemSplit - d.valorImpostoAtual
  {
    if AnoDe(r, ano).None? && r.impactoBase.None? then Padrao
    else
      var base := if AnoDe(r, ano).Some? then DoAno(AnoDe(r, ano).value) else DoImpacto(r.impactoBase.value);
      var acumulado := if r.projecaoTemporal.Some? then r.projecaoTemporal.value.impactoAcumulado else None;
      var comDiferencas := base.(
        diferencaImposto := base.valorImpostoSplit - base.valorImpostoAtual,
        diferencaImpostoIVASemSplit := base.valorImpostoIVASemSplit - base.valorImpostoAtual);
      if acumulado.None? then comDiferencas
      else comDiferencas.(
        totalNecessidadeGiro := NumOr(acumulado.value.totalNecessidadeCapitalGiro, 0.0),
        custoFinanceiroTotal := NumOr(acumulado.value.custoFinanceiroTotal, 0.0))
  }

  /** A year with its own entry ignores `impactoBase` entirely and shows no margins. */
  lemma {:induction false} AnoPresenteIgnoraBase(r: Resultado, ano: int, outro: Option<ImpactoBase>)
    requires AnoDe(r, ano).Some?
    ensures ObterDadosAnoSeguro(r.(impactoBase := outro), ano) == ObterDadosAnoSeguro(r, ano)
    ensures ObterDadosAnoSeguro(r, ano).margemOriginal == 0.0 && ObterDadosAnoSeguro(r, ano).margemAjustada == 0.0
  {
    assert AnoDe(r.(impactoBase := outro), ano) == AnoDe(r, ano);
  }

  /** Without an IVA-without-split scenario its figures fall back to the current system's, with no difference. */
  lemma {:induction false} SemCenarioIvaSemSplit(r: Resultado, ano: int)
    requires || (AnoDe(r, ano).Some? && AnoDe(r, ano).value.ivaSemSplit.None?)
             || (AnoDe(r, ano).None? && r.impactoBase.Some? && r.impactoBase.value.ivaSemSplit.None?)
    ensures var d := ObterDadosAnoSeguro(r, ano);
      && d.valorImpostoIVASemSplit == d.valorImpostoAtual && d.diferencaImpostoIVASemSplit == 0.0
      && d.capitalGiroIVASemSplit == d.capitalGiroAtual
  {
  }

  /** A year without an entry shows the base year's figures, its margins in percent. */
  lemma {:induction false} AnoAusenteUsaBase(r: Resultado, ano: int)
    requires AnoDe(r, ano).None? && r.impactoBase.Some?
    ensures var d := ObterDadosAnoSeguro(r, ano);
      var b := r.impactoBase.value;
      && d.valorImpostoAtual == ImpostoDe(b.atual, 0.0) && d.valorImpostoSplit == ImpostoDe(b.split, 0.0)
      && d.diferencaCapitalGiro == NumOr(b.diferencaCapitalGiro, 0.0)
      && d.margemOriginal == NumOr(b.margemOperacionalOriginal, 0.0) * 100.0
  {
  }

  // ---------------------------------------------------------------------------------------------
  // Sorted years

  /** `xs` is in strictly increasing order. */
  predicate Crescente(xs: seq<int>)
  {
    forall i, j | 0 <= i < j < |xs| :: xs[i] < xs[j]
  }

  /** `m` is the least year of `s`. */
  predicate EhMinimo(m: int, s: set<int>)
  {
    m in s && forall x | x in s :: m <= x
  }

  /** A non-empty finite set of years has a least one. */
  lemma {:induction false} MinimoExiste(s: set<int>)
    requires s != {}
    ensures exists m :: EhMinimo(m, s)
    decreases |s|
  {
    Elemento(s);
    var x :| x in s;
    var resto := s - {x};
    if resto == {} {
      forall y | y in s ensures x <= y {
        assert y !in resto;
      }
      assert EhMinimo(x, s);
    } else {
      MinimoExiste(resto);
      var m :| EhMinimo(m, resto);
      var menor := if x < m then x else m;
      forall y | y in s ensures menor <= y {
        if y != x {
          assert y in resto;
        }
      }
      assert EhMinimo(menor, s);
    }
  }

  /** A set is empty or has an element. */
  lemma {:induction false} Elemento(s: set<int>)
    ensures s == {} || exists x :: x in s
  {
    if !exists x :: x in s {
      assert s == {};
    }
  }

  /** The least year of a non-empty set. */
  function Minimo(s: set<int>): (m: int)
    requires s != {}
    ensures m in s && forall x | x in s :: m <= x
  {
    MinimoExiste(s);
    var m :| EhMinimo(m, s);
    m
  }

  /** The years of `s` in increasing order, as `Object.keys(...).sort()` lists four-digit years. */
  function Ordenados(s: set<int>): (r: seq<int>)
    ensures Crescente(r)
    ensures forall x :: x in r <==> x in s
    ensures |r| == |s|
    decreases |s|
  {
    if s == {} then []
    else
      var m := Minimo(s);
      var resto := Ordenados(s - {m});
      assert forall i | 0 < i < |resto| + 1 :: ([m] + resto)[i] == resto[i - 1];
      [m] + resto
  }

  // ---------------------------------------------------------------------------------------------
  // `garantirEstruturaExportacao`

  /** One year of the export structure. */
  datatype LinhaExportacao = LinhaExportacao(
    capitalGiroSplitPayment: real, capitalGiroAtual: real, capitalGiroIVASemSplit: real,
    diferenca: real, diferencaIVASemSplit: real, percentualImpacto: real, impostoDevido: real, sistemaAtual: real)

  datatype Tendencia = Aumento | Reducao

  /** `resultadosExportacao`: the sorted years, their rows and the summary. */
  datatype Exportacao = Exportacao(
    anos: seq<int>, resultadosPorAno: map<int, LinhaExportacao>, variacaoTotal: real, tendenciaGeral: Tendencia)

  /** The export row of one year. */
  function LinhaDe(a: AnoSimulado): LinhaExportacao
  {
    LinhaExportacao(
      GiroDe(a.split, 0.0), GiroDe(a.atual, 0.0), GiroDe(a.ivaSemSplit, GiroDe(a.atual, 0.0)),
      NumOr(a.diferencaCapitalGiro, 0.0), NumOr(a.diferencaCapitalGiroIVASemSplit, 0.0),
      NumOr(a.percentualImpacto, 0.0), TotalDe(a.split), TotalDe(a.atual))
  }

  /** The sum of the `diferenca` of the listed years. */
  function SomaDiferencas(anos: seq<int>, linhas: map<int, LinhaExportacao>): real
    decreases |anos|
  {
    if |anos| == 0 then 0.0
    else
      var ultimo := anos[|anos| - 1];
      SomaDiferencas(anos[..|anos| - 1], linhas) + (if ultimo in linhas then linhas[ultimo].diferenca else 0.0)
  }

  /** The rows of the listed years. */
  function LinhasDe(anos: seq<int>, anuais: map<int, AnoSimulado>): map<int, LinhaExportacao>
  {
    map a | a in anos && a in anuais :: LinhaDe(anuais[a])
  }

  /** The export structure of a set of years. */
  function ExportacaoDe(anuais: map<int, AnoSimulado>): Exportacao
  {
    var anos := Ordenados(anuais.Keys);
    var linhas := LinhasDe(anos, anuais);
    var variacao := SomaDiferencas(anos, linhas);
    Exportacao(anos, linhas, variacao, if variacao > 0.0 then Aumento else Reducao)
  }

  /**
   * The export structure lists every year once in increasing order, has a row for each, sums the
   * differences, and reports an increase exactly when that sum is positive.
   */
  lemma {:induction false} ExportacaoCorreta(anuais: map<int, AnoSimulado>)
    ensures var e := ExportacaoDe(anuais);
      && Crescente(e.anos) && (forall a :: a in e.anos <==> a in anuais)
      && e.resultadosPorAno.Keys == anuais.Keys
      && (forall a | a in anuais :: e.resultadosPorAno[a] == LinhaDe(anuais[a]))
      && e.variacaoTotal == SomaDiferencas(e.anos, e.resultadosPorAno)
      && (e.tendenciaGeral == Aumento <==> e.variacaoTotal > 0.0)
  {
  }

  /** Each year's difference counts once in the total: removing the last year subtracts exactly its difference. */
  lemma {:induction false} SomaDiferencasPorAno(anos: seq<int>, linhas: map<int, LinhaExportacao>, a: int)
    requires anos[..] != [] && anos[|anos| - 1] == a && a in linhas
    ensures SomaDiferencas(anos, linhas) - SomaDiferencas(anos[..|anos| - 1], linhas) == linhas[a].diferenca
  {
  }

  /** Rows equal on the listed years give the same sum. */
  lemma {:induction false} SomaDiferencasSoDosAnos(anos: seq<int>, l1: map<int, LinhaExportacao>, l2: map<int, LinhaExportacao>)
    requires forall a | a in anos :: (a in l1 <==> a in l2) && (a in l1 ==> l1[a] == l2[a])
    ensures SomaDiferencas(anos, l1) == SomaDiferencas(anos, l2)
    decreases |anos|
  {
    if |anos| > 0 {
      SomaDiferencasSoDosAnos(anos[..|anos| - 1], l1, l2);
    }
  }

  /** A simulation's result whose export structure is filled in place. */
  class Simulacao {
    var resultado: Resultado
    var resultadosExportacao: Option<Exportacao>

    constructor (resultado: Resultado, resultadosExportacao: Option<Exportacao>)
      ensures this.resultado == resultado && this.resultadosExportacao == resultadosExportacao
    {
      this.resultado := resultado;
      this.resultadosExportacao := resultadosExportacao;
    }

    /**
     * `garantirEstruturaExportacao`: builds the export structure only when there is none and the annual
     * results exist; so after it the structure exists or there are no annual results, and a second call
     * changes nothing.
     */
    method GarantirEstruturaExportacao()
      modifies this
      ensures resultado == old(resultado)
      ensures old(resultadosExportacao).Some? || AnuaisDe(resultado).None? ==> resultadosExportacao == old(resultadosExportacao)
      ensures old(resultadosExportacao).None? && AnuaisDe(resultado).Some? ==>
        resultadosExportacao == Some(ExportacaoDe(AnuaisDe(resultado).value))
      ensures resultadosExportacao.Some? || AnuaisDe(resultado).None?
    {
      if resultadosExportacao.Some? || AnuaisDe(resultado).None? {
        return;
      }
      var anuais := AnuaisDe(resultado).value;
      var anos := Ordenados(anuais.Keys);
      var linhas := ColetarLinhas(anos, anuais);
      var variacao := SomarDiferencas(anos, linhas);
      resultadosExportacao := Some(Exportacao(anos, linhas, variacao, if variacao > 0.0 then Aumento else Reducao));
    }
  }

  /** The `forEach` that fills `resultadosPorAno`. */
  method ColetarLinhas(anos: seq<int>, anuais: map<int, AnoSimulado>) returns (linhas: map<int, LinhaExportacao>)
    requires forall a | a in anos :: a in anuais
    ensures linhas == LinhasDe(anos, anuais)
  {
    linhas := map[];
    var i := 0;
    while i < |anos|
      invariant 0 <= i <= |anos|
      invariant forall a :: a in linhas <==> a in anos[..i]
      invariant forall a | a in linhas :: linhas[a] == LinhaDe(anuais[a])
    {
      assert forall a :: a in anos[..i + 1] <==> a in anos[..i] || a == anos[i];
      linhas := linhas[anos[i] := LinhaDe(anuais[anos[i]])];
      i := i + 1;
    }
    assert anos[..i] == anos;
    ghost var esperado := LinhasDe(anos, anuais);
    forall a ensures a in linhas <==> a in esperado {
      if a in anos {
        assert a in anuais;
        assert a in esperado;
      }
    }
    assert linhas.Keys == esperado.Keys;
    assert forall a | a in linhas :: linhas[a] == esperado[a];
  }

  /** The `reduce` over the rows, year by year. */
  method SomarDiferencas(anos: seq<int>, linhas: map<int, LinhaExportacao>) returns (soma: real)
    ensures soma == SomaDiferencas(anos, linhas)
  {
    soma := 0.0;
    var i := 0;
    while i < |anos|
      invariant 0 <= i <= |anos|
      invariant soma == SomaDiferencas(anos[..i], linhas)
    {
      assert anos[..i + 1][..i] == anos[..i];
      soma := soma + (if anos[i] in linhas then linhas[anos[i]].diferenca else 0.0);
      i := i + 1;
    }
    assert anos[..i] == anos;
  }

  // ---------------------------------------------------------------------------------------------
  // `atualizarTabelaTransicao`, the row arithmetic

  /** The share of IVA in each year of the transition. */
  const Cronograma: map<int, real> := map[
    2026 := 0.10, 2027 := 0.25, 2028 := 0.40, 2029 := 0.55,
    2030 := 0.70, 2031 := 0.85, 2032 := 0.95, 2033 := 1.00]

  /** One row of the transition table, shares as fractions. */
  datatype LinhaTransicao = LinhaTransicao(
    ano: int, percAtual: real, percIVA: real, tributosAtuais: real, ivaTotal: real, totalImpostos: real, aliquotaEfetiva: real)

  /** `cronograma[ano] || 0`. */
  function PercIva(ano: int): (p: real)
    ensures 0.0 <= p <= 1.0
    ensures ano !in Cronograma ==> p == 0.0
    ensures ano in Cronograma ==> p == Cronograma[ano]
  {
    if ano in Cronograma then Cronograma[ano] else 0.0
  }

  /** The row of one year: the current taxes at the current share, IVA at its share, and the rate over revenue. */
  function Linha(ano: int, a: AnoSimulado, faturamento: real): LinhaTransicao
  {
    var percIVA := PercIva(ano);
    var percAtual := 1.0 - percIVA;
    var tributosAtuais := TotalDe(a.atual) * percAtual;
    var ivaTotal := TotalDe(a.split) * percIVA;
    var total := tributosAtuais + ivaTotal;
    LinhaTransicao(ano, percAtual, percIVA, tributosAtuais, ivaTotal, total,
      if faturamento > 0.0 then total / faturamento * 100.0 else 0.0)
  }

  /**
   * The shares add up to one, a year outside the schedule is all current system, the total is the two
   * parts, and it lies between the current-system and the split-payment totals.
   */
  lemma {:induction false} LinhaCorreta(ano: int, a: AnoSimulado, faturamento: real)
    ensures var l := Linha(ano, a, faturamento);
      && l.percAtual + l.percIVA == 1.0
      && (ano !in Cronograma ==> l.percIVA == 0.0 && l.totalImpostos == TotalDe(a.atual))
      && l.totalImpostos == l.tributosAtuais + l.ivaTotal
      && Min(TotalDe(a.atual), TotalDe(a.split)) <= l.totalImpostos <= Max(TotalDe(a.atual), TotalDe(a.split))
      && (faturamento > 0.0 ==> l.aliquotaEfetiva * faturamento / 100.0 == l.totalImpostos)
      && (faturamento <= 0.0 ==> l.aliquotaEfetiva == 0.0)
  {
    var l := Linha(ano, a, faturamento);
    Mistura(TotalDe(a.atual), TotalDe(a.split), PercIva(ano), l.tributosAtuais, l.ivaTotal);
    if faturamento > 0.0 {
      assert l.totalImpostos / faturamento * faturamento == l.totalImpostos;
    }
  }

  /** A mix of two amounts with shares `1 - p` and `p` lies between them. */
  lemma {:induction false} Mistura(x: real, y: real, p: real, px: real, py: real)
    requires 0.0 <= p <= 1.0 && px == x * (1.0 - p) && py == y * p
    ensures Min(x, y) <= px + py <= Max(x, y)
  {
    var d := y - x;
    assert px + py == x + p * d;
    assert d - p * d == (1.0 - p) * d;
    if x <= y {
      ProdutoNaoNegativo(p, d);
      ProdutoNaoNegativo(1.0 - p, d);
    } else {
      ProdutoNaoNegativo(p, -d);
      ProdutoNaoNegativo(1.0 - p, -d);
    }
  }

  lemma {:induction false} ProdutoNaoNegativo(a: real, b: real)
    requires a >= 0.0 && b >= 0.0
    ensures a * b >= 0.0
  {
  }

  /** `atualizarTabelaTransicao`: no table without annual results; otherwise one row per year, in increasing order. */
  method TabelaTransicao(r: Resultado) returns (linhas: Option<seq<LinhaTransicao>>)
    ensures linhas.None? <==> AnuaisDe(r).None?
    ensures linhas.Some? ==>
      var anos := Ordenados(AnuaisDe(r).value.Keys);
      && |linhas.value| == |anos|
      && forall i | 0 <= i < |anos| ::
        linhas.value[i] == Linha(anos[i], AnuaisDe(r).value[anos[i]], NumOr(r.faturamento, 0.0))
  {
    if AnuaisDe(r).None? {
      return None;
    }
    var anuais := AnuaisDe(r).value;
    var anos := Ordenados(anuais.Keys);
    var tbody := LinhasDaTabela(anos, anuais, NumOr(r.faturamento, 0.0));
    linhas := Some(tbody);
  }

  /** The `forEach` that appends one row per year. */
  method LinhasDaTabela(anos: seq<int>, anuais: map<int, AnoSimulado>, faturamento: real) returns (tbody: seq<LinhaTransicao>)
    requires forall a | a in anos :: a in anuais
    ensures |tbody| == |anos|
    ensures forall i | 0 <= i < |anos| :: tbody[i] == Linha(anos[i], anuais[anos[i]], faturamento)
  {
    tbody := [];
    var i := 0;
    while i < |anos|
      invariant 0 <= i <= |anos|
      invariant |tbody| == i
      invariant forall k | 0 <= k < i :: tbody[k] == Linha(anos[k], anuais[anos[k]], faturamento)
    {
      tbody := tbody + [Linha(anos[i], anuais[anos[i]], faturamento)];
      i := i + 1;
    }
  }

  // ---------------------------------------------------------------------------------------------
  // `aplicarFiltrosLog`

  /** The four filter boxes of the import log. */
  datatype Filtros = Filtros(info: bool, aviso: bool, erro: bool, sucesso: bool)

  predicate AlgumAtivo(f: Filtros)
  {
    f.info || f.aviso || f.erro || f.sucesso
  }

  /** Whether an entry with these classes is displayed. */
  predicate Mostrar(f: Filtros, classes: string)
  {
    !AlgumAtivo(f)
    || (f.info && Includes(classes, "text-info")) || (f.aviso && Includes(classes, "text-warning"))
    || (f.erro && Includes(classes, "text-danger")) || (f.sucesso && Includes(classes, "text-success"))
  }

  /** `aplicarFiltrosLog`: the display of every entry, in order. */
  method AplicarFiltrosLog(f: Filtros, entradas: seq<string>) returns (exibidas: seq<bool>)
    ensures |exibidas| == |entradas|
    ensures !AlgumAtivo(f) ==> forall i | 0 <= i < |entradas| :: exibidas[i]
    ensures AlgumAtivo(f) ==> forall i | 0 <= i < |entradas| :: exibidas[i] == Mostrar(f, entradas[i])
  {
    exibidas := [];
    if !AlgumAtivo(f) {
      for i := 0 to |entradas|
        invariant |exibidas| == i && forall k | 0 <= k < i :: exibidas[k]
      {
        exibidas := exibidas + [true];
      }
      return;
    }
    for i := 0 to |entradas|
      invariant |exibidas| == i
      invariant forall k | 0 <= k < i :: exibidas[k] == Mostrar(f, entradas[k])
    {
      var classes := entradas[i];
      var mostrar := false;
      if f.info && Includes(classes, "text-info") { mostrar := true; }
      if f.aviso && Includes(classes, "text-warning") { mostrar := true; }
      if f.erro && Includes(classes, "text-danger") { mostrar := true; }
      if f.sucesso && Includes(classes, "text-success") { mostrar := true; }
      exibidas := exibidas + [mostrar];
    }
  }

  /** With a filter checked, checking more boxes never hides an entry, and an entry of no checked class is hidden. */
  lemma {:induction false} FiltrosMonotonos(f: Filtros, g: Filtros, classes: string)
    requires AlgumAtivo(f)
    requires (f.info ==> g.info) && (f.aviso ==> g.aviso) && (f.erro ==> g.erro) && (f.sucesso ==> g.sucesso)
    ensures Mostrar(f, classes) ==> Mostrar(g, classes)
    ensures (!Includes(classes, "text-info") && !Includes(classes, "text-warning")
      && !Includes(classes, "text-danger") && !Includes(classes, "text-success")) ==> !Mostrar(f, classes)
  {
  }

  // ---------------------------------------------------------------------------------------------
  // `integrarDadosSpedNaEstruturaPadrao`

  /** What `obterDadosSpedPrioritarios` hands over. */
  datatype DadosSped = DadosSped(debitos: Valor, creditos: Valor, aliquotasEfetivas: Valor, totalDebitos: Valor, totalCreditos: Valor)

  /** The result: the merged data, or the exception thrown reading `aliquotasEfetivas.total`. */
  datatype Integracao = Integrado(dados: map<string, Valor>) | Excecao

  /** `{...v}` for an object or a non-string primitive. */
  function Espalhar(v: Valor): map<string, Valor>
  {
    if v.Objeto? then v.campos else map[]
  }

  /** `x / 100` for the value read at `aliquotasEfetivas.total`, after its conversion to a number. */
  function Centesimo(v: Valor): (r: JsVal)
    ensures v.Primitivo? && v.p.Num? ==> r == Num(v.p.n / 100.0)
    ensures v.Objeto? || v == Indefinido || v == Primitivo(NaN) ==> r == NaN
  {
    match v
    case Primitivo(Num(n)) => Num(n / 100.0)
    case Primitivo(Null) => Num(0.0)
    case Primitivo(Bool(b)) => Num(if b then 0.01 else 0.0)
    case Primitivo(Str(s)) => (match ToNumber(s) case Num(n) => Num(n / 100.0) case _ => NaN)
    case _ => NaN
  }

  /** A total given as a digit string is divided by 100 as its number would be; the empty text gives 0. */
  lemma {:induction false} CentesimoDeTexto(d: string)
    requires AllDigits(d)
    ensures Centesimo(Primitivo(Str(d))) == Num(DigitsValue(d, 0) as real / 100.0)
  {
    ToNumberDigits(d);
  }

  /**
   * `JSON.parse(JSON.stringify(v))` for a property value: NaN becomes null, and an object loses the
   * properties whose value is undefined; everything else is copied as it is.
   */
  function CopiaJson(v: Valor): Valor
  {
    match v
    case Primitivo(p) => if p == NaN then Primitivo(Null) else v
    case Objeto(c) => Objeto(map k | k in c && c[k] != Indefinido :: CopiaJson(c[k]))
  }

  /** The copy of an object's properties: the defined ones, each copied. */
  function CopiaCampos(c: map<string, Valor>): (r: map<string, Valor>)
    ensures r.Keys == set k | k in c && c[k] != Indefinido
    ensures forall k | k in r :: r[k] == CopiaJson(c[k])
    ensures CopiaJson(Objeto(c)) == Objeto(r)
  {
    map k | k in c && c[k] != Indefinido :: CopiaJson(c[k])
  }

  /** A value the JSON round trip keeps: no NaN anywhere and no property holding undefined. */
  predicate Puro(v: Valor)
  {
    match v
    case Primitivo(p) => p != NaN
    case Objeto(c) => forall k | k in c :: c[k] != Indefinido && Puro(c[k])
  }

  /** The JSON copy of a value is the value itself exactly when the value is pure. */
  lemma {:induction false} CopiaIdentidade(v: Valor)
    ensures Puro(CopiaJson(v))
    ensures Puro(v) <==> CopiaJson(v) == v
  {
    match v
    case Primitivo(p) =>
    case Objeto(c) =>
      var r := CopiaCampos(c);
      assert CopiaJson(v) == Objeto(r);
      forall k | k in r ensures r[k] != Indefinido && Puro(r[k]) {
        CopiaIdentidade(c[k]);
      }
      if Puro(v) {
        forall k | k in c ensures r[k] == c[k] {
          CopiaIdentidade(c[k]);
        }
        assert r == c;
      }
      if CopiaJson(v) == v {
        forall k | k in c ensures c[k] != Indefinido && Puro(c[k]) {
          assert k in r;
          assert r[k] == c[k];
          CopiaIdentidade(c[k]);
        }
      }
  }

  /** Copying twice is copying once. */
  lemma {:induction false} CopiaIdempotente(v: Valor)
    ensures CopiaJson(CopiaJson(v)) == CopiaJson(v)
  {
    CopiaIdentidade(v);
    CopiaIdentidade(CopiaJson(v));
  }

  /** `parametrosFiscais` after the SPED credits, the flag and the total rate are written into it. */
  function ParametrosComSped(pf: Valor, s: DadosSped): Valor
  {
    if !FalsyValor(pf) && pf.Primitivo? then pf
    else
      var atual := if pf.Objeto? then pf.campos else map[];
      var creditos := Espalhar(Membro(pf, "creditos")) + Espalhar(s.creditos);
      Objeto(atual["creditos" := Objeto(creditos)]["temDadosSped" := Primitivo(Bool(true))]
        ["aliquotaEfetivaTotal" := Primitivo(Centesimo(Membro(s.aliquotasEfetivas, "total")))])
  }

  /** The section `dadosSpedImportados`. */
  function SecaoSped(s: DadosSped, timestamp: string): Valor
  {
    Objeto(map[
      "composicaoTributaria" := Objeto(map[
        "debitos" := s.debitos, "creditos" := s.creditos, "aliquotasEfetivas" := s.aliquotasEfetivas,
        "totalDebitos" := s.totalDebitos, "totalCreditos" := s.totalCreditos]),
      "origemDados" := Primitivo(Str("sped")),
      "timestampImportacao" := Primitivo(Str(timestamp))])
  }

  /** `obj.k` with an absent own property read as undefined. */
  function Campo(obj: map<string, Valor>, k: string): Valor
  {
    if k in obj then obj[k] else Indefinido
  }

  /**
   * `integrarDadosSpedNaEstruturaPadrao`: the form data as given without SPED data; otherwise its JSON
   * copy with the SPED section added and the SPED credits, the flag and the total rate in `parametrosFiscais`.
   */
  function IntegrarDadosSped(formulario: map<string, Valor>, sped: Option<DadosSped>, timestamp: string): (r: Integracao)
    ensures sped.None? ==> r == Integrado(formulario)
    ensures sped.Some? ==> (r.Excecao? <==> Ausente(sped.value.aliquotasEfetivas))
  {
    if sped.None? then Integrado(formulario)
    else if Ausente(sped.value.aliquotasEfetivas) then Excecao
    else
      var s := sped.value;
      var copia := CopiaCampos(formulario);
      var pf := if FalsyValor(Campo(copia, "parametrosFiscais")) then Objeto(map[]) else Campo(copia, "parametrosFiscais");
      Integrado(copia["dadosSpedImportados" := SecaoSped(s, timestamp)]["parametrosFiscais" := ParametrosComSped(pf, s)])
  }

  /**
   * After the merge every other defined entry of the form data is there as its JSON copy, and an
   * undefined one is gone; the SPED credits override the form's, the form's other credits stay, the
   * flag is true and the total rate is the SPED total over 100.
   */
  lemma {:induction false} IntegracaoSobrepoe(formulario: map<string, Valor>, s: DadosSped, timestamp: string)
    requires !Ausente(s.aliquotasEfetivas)
    requires !(Campo(formulario, "parametrosFiscais").Primitivo? && !FalsyValor(Campo(formulario, "parametrosFiscais")))
    ensures var r := IntegrarDadosSped(formulario, Some(s), timestamp);
      var pf := Campo(CopiaCampos(formulario), "parametrosFiscais");
      && r.Integrado?
      && r.dados.Keys == CopiaCampos(formulario).Keys + {"dadosSpedImportados", "parametrosFiscais"}
      && (forall k | k in formulario && k != "dadosSpedImportados" && k != "parametrosFiscais" ::
            (k in r.dados <==> formulario[k] != Indefinido) && (k in r.dados ==> r.dados[k] == CopiaJson(formulario[k])))
      && r.dados["parametrosFiscais"].Objeto?
      && var novo := r.dados["parametrosFiscais"].campos;
        && novo["temDadosSped"] == Primitivo(Bool(true))
        && novo["aliquotaEfetivaTotal"] == Primitivo(Centesimo(Membro(s.aliquotasEfetivas, "total")))
        && novo["creditos"].Objeto?
        && (forall k | k in Espalhar(s.creditos) :: novo["creditos"].campos[k] == Espalhar(s.creditos)[k])
        && (forall k | k in Espalhar(Membro(pf, "creditos")) && k !in Espalhar(s.creditos) ::
              novo["creditos"].campos[k] == Espalhar(Membro(pf, "creditos"))[k])
        && novo["creditos"].campos.Keys == Espalhar(Membro(pf, "creditos")).Keys + Espalhar(s.creditos).Keys
  {
    var copia := CopiaCampos(formulario);
    var pf := Campo(copia, "parametrosFiscais");
    if "parametrosFiscais" in formulario && formulario["parametrosFiscais"] != Indefinido {
      assert pf == CopiaJson(formulario["parametrosFiscais"]);
    }
    if FalsyValor(pf) {
      assert Membro(Objeto(map[]), "creditos") == Indefinido;
      assert Membro(pf, "creditos") == Indefinido;
    }
  }

  /** On pure form data without undefined entries the copy changes nothing, so every other entry is kept as it was. */
  lemma {:induction false} IntegracaoPuraMantem(formulario: map<string, Valor>, s: DadosSped, timestamp: string)
    requires !Ausente(s.aliquotasEfetivas)
    requires forall k | k in formulario :: formulario[k] != Indefinido && Puro(formulario[k])
    ensures var r := IntegrarDadosSped(formulario, Some(s), timestamp);
      r.Integrado? && r.dados.Keys == formulario.Keys + {"dadosSpedImportados", "parametrosFiscais"}
      && forall k | k in formulario && k != "dadosSpedImportados" && k != "parametrosFiscais" :: r.dados[k] == formulario[k]
  {
    var copia := CopiaCampos(formulario);
    forall k | k in formulario ensures copia[k] == formulario[k] {
      CopiaIdentidade(formulario[k]);
    }
    assert copia == formulario;
  }
}
