/**
 * The first-generation consolidation of parsed SPED files: the company data, the current tax
 * composition (debits, credits, net taxes, effective rates), the checks on it, the cash-cycle
 * indicators, the projection of the tax transition and a score of the data quality.
 */
module SpedExtractor {
  import opened JsText
  import opened JsNumber

  /** A parsed record: field names to field texts. */
  type Registro = map<string, string>

  /** A parsed SPED file: its records by code, and its company data, each when present. */
  datatype Sped = Sped(registros: Option<map<string, seq<Registro>>>, dadosEmpresa: Option<map<string, string>>)

  /** The parsed files by key (`'sped-fiscal'`, `'fiscal'`, ...). */
  type Speds = map<string, Sped>

  /** `speds[a] || speds[b]`: a parsed file is always truthy. */
  function Escolher(speds: Speds, a: string, b: string): (r: Option<Sped>)
    ensures a in speds ==> r == Some(speds[a])
    ensures a !in speds && b in speds ==> r == Some(speds[b])
    ensures a !in speds && b !in speds ==> r.None?
  {
    if a in speds then Some(speds[a]) else if b in speds then Some(speds[b]) else None
  }

  /** `obj[k] || ''`. */
  function Texto(m: map<string, string>, k: string): string
  {
    if k in m then m[k] else ""
  }

  /** `parseFloat(registro[k]) || 0`. */
  function ValorCampo(r: Registro, k: string): real
  {
    NumOr(ParseFloat(Texto(r, k)), 0.0)
  }

  /** `registros[codigo]`, no records when there are none of that code. */
  function DoCodigo(registros: map<string, seq<Registro>>, codigo: string): seq<Registro>
  {
    if codigo in registros then registros[codigo] else []
  }

  /** The sum of one field over the records, in order. */
  function SomaCampo(rs: seq<Registro>, k: string): real
    decreases |rs|
  {
    if |rs| == 0 then 0.0 else SomaCampo(rs[..|rs| - 1], k) + ValorCampo(rs[|rs| - 1], k)
  }

  /** The sum of two fields over the records, record by record. */
  function SomaPares(rs: seq<Registro>, k1: string, k2: string): real
    decreases |rs|
  {
    if |rs| == 0 then 0.0
    else SomaPares(rs[..|rs| - 1], k1, k2) + (ValorCampo(rs[|rs| - 1], k1) + ValorCampo(rs[|rs| - 1], k2))
  }

  /** The largest of `inicial` and one field over the records. */
  function MaiorCampo(rs: seq<Registro>, k: string, inicial: real): (m: real)
    ensures m >= inicial
    ensures forall i :: 0 <= i < |rs| ==> m >= ValorCampo(rs[i], k)
    decreases |rs|
  {
    if |rs| == 0 then inicial
    else
      var p := MaiorCampo(rs[..|rs| - 1], k, inicial);
      assert forall i :: 0 <= i < |rs| - 1 ==> rs[..|rs| - 1][i] == rs[i];
      Max(p, ValorCampo(rs[|rs| - 1], k))
  }

  /** The largest value is one of the candidates: the initial figure or the field of some record. */
  lemma {:induction false} MaiorCampoAtingido(rs: seq<Registro>, k: string, inicial: real)
    ensures MaiorCampo(rs, k, inicial) == inicial
         || exists i :: 0 <= i < |rs| && MaiorCampo(rs, k, inicial) == ValorCampo(rs[i], k)
    decreases |rs|
  {
    if |rs| > 0 {
      var q := rs[..|rs| - 1];
      MaiorCampoAtingido(q, k, inicial);
      if MaiorCampo(rs, k, inicial) != ValorCampo(rs[|rs| - 1], k) && MaiorCampo(q, k, inicial) != inicial {
        var i :| 0 <= i < |q| && MaiorCampo(q, k, inicial) == ValorCampo(q[i], k);
        assert q[i] == rs[i];
      }
    }
  }

  // ---------------------------------------------------------------- the tax composition

  /** Amounts per tax; `outros` collects IRPJ and CSLL. */
  datatype Tributos = Tributos(pis: real, cofins: real, icms: real, ipi: real, iss: real, outros: real)

  /** Net taxes or effective rates per tax, with their total. */
  datatype Liquidos = Liquidos(pis: real, cofins: real, icms: real, ipi: real, iss: real, total: real)

  const SemTributos := Tributos(0.0, 0.0, 0.0, 0.0, 0.0, 0.0)
  const SemLiquidos := Liquidos(0.0, 0.0, 0.0, 0.0, 0.0, 0.0)

  /** The taxes `validarComposicaoTributaria` looks at, in its order. */
  datatype Tributo = Pis | Cofins | Icms | Ipi | Iss

  const TributosValidados := [Pis, Cofins, Icms, Ipi, Iss]

  function De(t: Tributos, x: Tributo): real
  {
    match x
    case Pis => t.pis
    case Cofins => t.cofins
    case Icms => t.icms
    case Ipi => t.ipi
    case Iss => t.iss
  }

  function LiquidoDe(l: Liquidos, x: Tributo): real
  {
    match x
    case Pis => l.pis
    case Cofins => l.cofins
    case Icms => l.icms
    case Ipi => l.ipi
    case Iss => l.iss
  }

  /** The remarks of the consistency check (their wording is left out). */
  datatype Observacao = ApenasDebitos(t: Tributo) | CreditosSuperiores(t: Tributo) | TotalNaoPositivo

  /** The value of the `composicao` object. */
  datatype Composicao = Composicao(
    faturamentoTotal: real, debitos: Tributos, creditos: Tributos,
    impostosLiquidos: Liquidos, aliquotasEfetivas: Liquidos,
    fonte: seq<string>, observacoes: seq<Observacao>)

  /** The composition `processarComposicaoTributaria` starts from. */
  const ComposicaoInicial := Composicao(0.0, SemTributos, SemTributos, SemLiquidos, SemLiquidos, [], [])

  /** `processarImpostosFiscal`: sales and ICMS from C100, ICMS totals from E110, IPI from C400. */
  function AposFiscal(c: Composicao, sped: Sped): Composicao
  {
    match sped.registros
    case None => c
    case Some(regs) =>
      var c100 := DoCodigo(regs, "C100");
      var e110 := DoCodigo(regs, "E110");
      c.(faturamentoTotal := Max(c.faturamentoTotal, SomaCampo(c100, "VL_DOC")),
         debitos := c.debitos.(icms := SomaCampo(c100, "VL_ICMS") + SomaCampo(e110, "VL_TOT_DEBITOS"),
                               ipi := SomaCampo(DoCodigo(regs, "C400"), "VL_IPI")),
         creditos := c.creditos.(icms := SomaCampo(e110, "VL_TOT_CREDITOS")),
         fonte := c.fonte + ["SPED Fiscal"])
  }

  /** `processarImpostosContribuicoes`: revenue from A100, PIS from M100, COFINS from M200, credits from C100. */
  function AposContribuicoes(c: Composicao, sped: Sped): Composicao
  {
    match sped.registros
    case None => c
    case Some(regs) =>
      var c100 := DoCodigo(regs, "C100");
      c.(faturamentoTotal := Max(c.faturamentoTotal, SomaCampo(DoCodigo(regs, "A100"), "VL_REC_BRT")),
         debitos := c.debitos.(pis := SomaCampo(DoCodigo(regs, "M100"), "VL_TOT_CONT_NC_PER"),
                               cofins := SomaCampo(DoCodigo(regs, "M200"), "VL_TOT_CONT_NC_PER")),
         creditos := c.creditos.(pis := SomaCampo(c100, "VL_CRED_PIS"), cofins := SomaCampo(c100, "VL_CRED_COFINS")),
         fonte := c.fonte + ["SPED Contribuições"])
  }

  /** `processarDadosECF`: revenue from J100 only while there is none yet; IRPJ and CSLL of J200 into `outros`. */
  function AposEcf(c: Composicao, sped: Sped): Composicao
  {
    match sped.registros
    case None => c
    case Some(regs) =>
      var fat := if "J100" in regs && c.faturamentoTotal == 0.0
                 then MaiorCampo(regs["J100"], "VL_REC_BRT", c.faturamentoTotal) else c.faturamentoTotal;
      c.(faturamentoTotal := fat,
         debitos := c.debitos.(outros := c.debitos.outros + SomaPares(DoCodigo(regs, "J200"), "VL_IRPJ", "VL_CSLL")),
         fonte := c.fonte + ["ECF"])
  }

  /** Revenue never decreases from one source to the next: each keeps the larger figure. */
  lemma {:induction false} FaturamentoNaoDiminui(c: Composicao, sped: Sped)
    ensures AposFiscal(c, sped).faturamentoTotal >= c.faturamentoTotal
    ensures AposContribuicoes(c, sped).faturamentoTotal >= c.faturamentoTotal
    ensures AposEcf(c, sped).faturamentoTotal >= c.faturamentoTotal
    ensures c.faturamentoTotal != 0.0 ==> AposEcf(c, sped).faturamentoTotal == c.faturamentoTotal
  {
  }

  /** `Math.max(0, débito − crédito)` per tax; the total adds the other taxes (`debitos.outros`). */
  function LiquidosDe(d: Tributos, c: Tributos): Liquidos
  {
    var pis := Max(0.0, d.pis - c.pis);
    var cofins := Max(0.0, d.cofins - c.cofins);
    var icms := Max(0.0, d.icms - c.icms);
    var ipi := Max(0.0, d.ipi - c.ipi);
    var iss := Max(0.0, d.iss - c.iss);
    Liquidos(pis, cofins, icms, ipi, iss, pis + cofins + icms + ipi + iss + d.outros)
  }

  /** Each net tax is the debit less the credit, never below zero, and the total is their sum plus the other taxes. */
  lemma {:induction false} LiquidosNaoNegativos(d: Tributos, c: Tributos, x: Tributo)
    ensures LiquidoDe(LiquidosDe(d, c), x) >= 0.0
    ensures LiquidoDe(LiquidosDe(d, c), x) >= De(d, x) - De(c, x)
    ensures De(c, x) <= De(d, x) ==> LiquidoDe(LiquidosDe(d, c), x) == De(d, x) - De(c, x)
    ensures De(c, x) >= De(d, x) ==> LiquidoDe(LiquidosDe(d, c), x) == 0.0
    ensures var l := LiquidosDe(d, c); l.total == l.pis + l.cofins + l.icms + l.ipi + l.iss + d.outros
  {
  }

  /** `(liquido / faturamento) * 100`. */
  function Percentual(liquido: real, faturamento: real): real
    requires faturamento > 0.0
  {
    liquido / faturamento * 100.0
  }

  /** `calcularAliquotasEfetivas`: nothing changes unless revenue is positive. */
  function AliquotasDe(c: Composicao): Composicao
  {
    if c.faturamentoTotal <= 0.0 then c
    else
      var f := c.faturamentoTotal;
      var l := c.impostosLiquidos;
      c.(aliquotasEfetivas := Liquidos(Percentual(l.pis, f), Percentual(l.cofins, f), Percentual(l.icms, f),
                                       Percentual(l.ipi, f), Percentual(l.iss, f), Percentual(l.total, f)))
  }

  /** A rate applied back to the revenue gives the net tax again; the rates add up like the taxes do. */
  lemma {:induction false} AliquotaReconstroi(c: Composicao, x: Tributo)
    requires c.faturamentoTotal > 0.0
    ensures LiquidoDe(AliquotasDe(c).aliquotasEfetivas, x) * c.faturamentoTotal / 100.0 == LiquidoDe(c.impostosLiquidos, x)
    ensures AliquotasDe(c).aliquotasEfetivas.total * c.faturamentoTotal / 100.0 == c.impostosLiquidos.total
    ensures LiquidoDe(c.impostosLiquidos, x) >= 0.0 ==> LiquidoDe(AliquotasDe(c).aliquotasEfetivas, x) >= 0.0
  {
    var f := c.faturamentoTotal;
    var l := LiquidoDe(c.impostosLiquidos, x);
    assert l / f * 100.0 * f / 100.0 == l;
    var t := c.impostosLiquidos.total;
    assert t / f * 100.0 * f / 100.0 == t;
  }

  /** Without positive revenue the rates stay as they were. */
  lemma {:induction false} AliquotasSemFaturamento(c: Composicao)
    requires c.faturamentoTotal <= 0.0
    ensures AliquotasDe(c) == c
  {
  }

  /** The remarks about one tax. */
  function ObservacoesDe(c: Composicao, x: Tributo): seq<Observacao>
  {
    (if De(c.debitos, x) > 0.0 && De(c.creditos, x) == 0.0 then [ApenasDebitos(x)] else [])
      + (if De(c.creditos, x) > De(c.debitos, x) then [CreditosSuperiores(x)] else [])
  }

  /** The remarks about the first `n` taxes checked. */
  function ObservacoesAte(c: Composicao, n: nat): seq<Observacao>
    requires n <= |TributosValidados|
  {
    if n == 0 then [] else ObservacoesAte(c, n - 1) + ObservacoesDe(c, TributosValidados[n - 1])
  }

  /** `validarComposicaoTributaria`: the remarks per tax, then one when the net total is not positive. */
  function ValidacaoDe(c: Composicao): Composicao
  {
    c.(observacoes := c.observacoes + ObservacoesAte(c, 5)
                      + (if c.impostosLiquidos.total <= 0.0 then [TotalNaoPositivo] else []))
  }

  /** Where a tax stands in the order of the check. */
  function Posicao(x: Tributo): (i: nat)
    ensures i < |TributosValidados| && TributosValidados[i] == x
  {
    match x case Pis => 0 case Cofins => 1 case Icms => 2 case Ipi => 3 case Iss => 4
  }

  /** The remarks about `y` concern `y` alone. */
  lemma {:induction false} ObservacoesDeContem(c: Composicao, y: Tributo, x: Tributo)
    ensures (ApenasDebitos(x) in ObservacoesDe(c, y)) <==> y == x && De(c.debitos, x) > 0.0 && De(c.creditos, x) == 0.0
    ensures (CreditosSuperiores(x) in ObservacoesDe(c, y)) <==> y == x && De(c.creditos, x) > De(c.debitos, x)
  {
  }

  /** The first `n` taxes checked hold an "only debits" remark about `x` exactly when `x` is among them and has debits and no credits. */
  lemma {:induction false} ApenasDebitosAte(c: Composicao, n: nat, x: Tributo)
    requires n <= |TributosValidados|
    ensures (ApenasDebitos(x) in ObservacoesAte(c, n))
        <==> Posicao(x) < n && De(c.debitos, x) > 0.0 && De(c.creditos, x) == 0.0
  {
    if n > 0 {
      ApenasDebitosAte(c, n - 1, x);
      var y := TributosValidados[n - 1];
      ObservacoesDeContem(c, y, x);
      assert y == x <==> Posicao(x) == n - 1;
      var a, b := ObservacoesAte(c, n - 1), ObservacoesDe(c, y);
      assert ObservacoesAte(c, n) == a + b;
      EmConcatenacao(ApenasDebitos(x), a, b);
    }
  }

  /** The first `n` taxes checked hold an "excess credits" remark about `x` exactly when `x` is among them and its credits exceed its debits. */
  lemma {:induction false} CreditosSuperioresAte(c: Composicao, n: nat, x: Tributo)
    requires n <= |TributosValidados|
    ensures (CreditosSuperiores(x) in ObservacoesAte(c, n))
        <==> Posicao(x) < n && De(c.creditos, x) > De(c.debitos, x)
  {
    if n > 0 {
      CreditosSuperioresAte(c, n - 1, x);
      var y := TributosValidados[n - 1];
      ObservacoesDeContem(c, y, x);
      assert y == x <==> Posicao(x) == n - 1;
      var a, b := ObservacoesAte(c, n - 1), ObservacoesDe(c, y);
      assert ObservacoesAte(c, n) == a + b;
      EmConcatenacao(CreditosSuperiores(x), a, b);
    }
  }

  /** A remark is in a concatenation exactly when it is in one of the parts. */
  lemma EmConcatenacao(o: Observacao, a: seq<Observacao>, b: seq<Observacao>)
    ensures (o in a + b) <==> (o in a || o in b)
  {
  }

  /** A tax gets a remark exactly when it has debits and no credits, or more credits than debits. */
  lemma {:induction false} ObservacaoSeInconsistente(c: Composicao, x: Tributo)
    ensures (ApenasDebitos(x) in ValidacaoDe(c).observacoes[|c.observacoes|..])
        <==> De(c.debitos, x) > 0.0 && De(c.creditos, x) == 0.0
    ensures (CreditosSuperiores(x) in ValidacaoDe(c).observacoes[|c.observacoes|..])
        <==> De(c.creditos, x) > De(c.debitos, x)
    ensures (TotalNaoPositivo in ValidacaoDe(c).observacoes[|c.observacoes|..]) <==> c.impostosLiquidos.total <= 0.0
  {
    var extra := if c.impostosLiquidos.total <= 0.0 then [TotalNaoPositivo] else [];
    assert ValidacaoDe(c).observacoes[|c.observacoes|..] == ObservacoesAte(c, 5) + extra;
    ApenasDebitosAte(c, 5, x);
    CreditosSuperioresAte(c, 5, x);
    ObservacoesSemTotal(c, 5);
  }

  /** The per-tax remarks never include the one about the total. */
  lemma {:induction false} ObservacoesSemTotal(c: Composicao, n: nat)
    requires n <= |TributosValidados|
    ensures TotalNaoPositivo !in ObservacoesAte(c, n)
  {
    if n > 0 {
      ObservacoesSemTotal(c, n - 1);
    }
  }

  // ---------------------------------------------------------------- the mutable composition

  /** The `composicao` object the processing functions fill in place. */
  class ComposicaoTributaria {
    var faturamentoTotal: real
    var debitos: Tributos
    var creditos: Tributos
    var impostosLiquidos: Liquidos
    var aliquotasEfetivas: Liquidos
    var fonte: seq<string>
    var observacoes: seq<Observacao>

    function Estado(): Composicao
      reads this
    {
      Composicao(faturamentoTotal, debitos, creditos, impostosLiquidos, aliquotasEfetivas, fonte, observacoes)
    }

    constructor ()
      ensures Estado() == ComposicaoInicial
    {
      faturamentoTotal, debitos, creditos := 0.0, SemTributos, SemTributos;
      impostosLiquidos, aliquotasEfetivas, fonte, observacoes := SemLiquidos, SemLiquidos, [], [];
    }

    method ProcessarImpostosFiscal(sped: Sped)
      modifies this
      ensures Estado() == AposFiscal(old(Estado()), sped)
    {
      if sped.registros.None? {
        return;
      }
      var regs := sped.registros.value;
      var faturamentoICMS, debitosICMS := SomarDois(DoCodigo(regs, "C100"), "VL_DOC", "VL_ICMS");
      var debitosE110, creditosICMS := SomarDois(DoCodigo(regs, "E110"), "VL_TOT_DEBITOS", "VL_TOT_CREDITOS");
      var debitosIPI := Somar(DoCodigo(regs, "C400"), "VL_IPI");
      faturamentoTotal := Max(faturamentoTotal, faturamentoICMS);
      debitos := debitos.(icms := debitosICMS + debitosE110, ipi := debitosIPI);
      creditos := creditos.(icms := creditosICMS);
      fonte := fonte + ["SPED Fiscal"];
    }

    method ProcessarImpostosContribuicoes(sped: Sped)
      modifies this
      ensures Estado() == AposContribuicoes(old(Estado()), sped)
    {
      if sped.registros.None? {
        return;
      }
      var regs := sped.registros.value;
      var faturamentoPisCofins := Somar(DoCodigo(regs, "A100"), "VL_REC_BRT");
      var debitosPIS := Somar(DoCodigo(regs, "M100"), "VL_TOT_CONT_NC_PER");
      var debitosCOFINS := Somar(DoCodigo(regs, "M200"), "VL_TOT_CONT_NC_PER");
      var creditosPIS, creditosCOFINS := SomarDois(DoCodigo(regs, "C100"), "VL_CRED_PIS", "VL_CRED_COFINS");
      faturamentoTotal := Max(faturamentoTotal, faturamentoPisCofins);
      debitos := debitos.(pis := debitosPIS, cofins := debitosCOFINS);
      creditos := creditos.(pis := creditosPIS, cofins := creditosCOFINS);
      fonte := fonte + ["SPED Contribuições"];
    }

    method ProcessarDadosECF(sped: Sped)
      modifies this
      ensures Estado() == AposEcf(old(Estado()), sped)
    {
      if sped.registros.None? {
        return;
      }
      var regs := sped.registros.value;
      if "J100" in regs && faturamentoTotal == 0.0 {
        faturamentoTotal := Maior(regs["J100"], "VL_REC_BRT", faturamentoTotal);
      }
      var impostos := SomarPares(DoCodigo(regs, "J200"), "VL_IRPJ", "VL_CSLL");
      debitos := debitos.(outros := debitos.outros + impostos);
      fonte := fonte + ["ECF"];
    }

    method CalcularImpostosLiquidos()
      modifies this
      ensures Estado() == old(Estado()).(impostosLiquidos := LiquidosDe(old(debitos), old(creditos)))
    {
      var pis := Max(0.0, debitos.pis - creditos.pis);
      var cofins := Max(0.0, debitos.cofins - creditos.cofins);
      var icms := Max(0.0, debitos.icms - creditos.icms);
      var ipi := Max(0.0, debitos.ipi - creditos.ipi);
      var iss := Max(0.0, debitos.iss - creditos.iss);
      impostosLiquidos := Liquidos(pis, cofins, icms, ipi, iss, pis + cofins + icms + ipi + iss + debitos.outros);
    }

    method CalcularAliquotasEfetivas()
      modifies this
      ensures Estado() == AliquotasDe(old(Estado()))
    {
      if faturamentoTotal <= 0.0 {
        return;
      }
      var f := faturamentoTotal;
      var l := impostosLiquidos;
      aliquotasEfetivas := Liquidos(l.pis / f * 100.0, l.cofins / f * 100.0, l.icms / f * 100.0,
                                    l.ipi / f * 100.0, l.iss / f * 100.0, l.total / f * 100.0);
    }

    /** The sources present, in the order fiscal, contributions, ECF. */
    method ProcessarFontes(speds: Speds)
      modifies this
      ensures Estado() == TributosEcf(speds, TributosContribuicoes(speds, TributosFiscal(speds, old(Estado()))))
    {
      var fiscal := Escolher(speds, "sped-fiscal", "fiscal");
      if fiscal.Some? {
        ProcessarImpostosFiscal(fiscal.value);
      }
      ghost var c1 := Estado();
      assert c1 == TributosFiscal(speds, old(Estado()));
      var contrib := Escolher(speds, "sped-contribuicoes", "contribuicoes");
      if contrib.Some? {
        ProcessarImpostosContribuicoes(contrib.value);
      }
      ghost var c2 := Estado();
      assert c2 == TributosContribuicoes(speds, c1);
      var ecf := Escolher(speds, "sped-ecf", "ecf");
      if ecf.Some? {
        ProcessarDadosECF(ecf.value);
      }
      assert Estado() == TributosEcf(speds, c2);
    }

    /** Nets, rates and checks. */
    method Finalizar()
      modifies this
      ensures Estado() == Finalizada(old(Estado()))
    {
      CalcularImpostosLiquidos();
      CalcularAliquotasEfetivas();
      ValidarComposicaoTributaria();
    }

    method ValidarComposicaoTributaria()
      modifies this
      ensures Estado() == ValidacaoDe(old(Estado()))
    {
      var i := 0;
      while i < |TributosValidados|
        invariant 0 <= i <= |TributosValidados|
        invariant Estado() == old(Estado()).(observacoes := old(observacoes) + ObservacoesAte(old(Estado()), i))
      {
        var x := TributosValidados[i];
        if De(debitos, x) > 0.0 && De(creditos, x) == 0.0 {
          observacoes := observacoes + [ApenasDebitos(x)];
        }
        if De(creditos, x) > De(debitos, x) {
          observacoes := observacoes + [CreditosSuperiores(x)];
        }
        i := i + 1;
      }
      if impostosLiquidos.total <= 0.0 {
        observacoes := observacoes + [TotalNaoPositivo];
      }
    }
  }

  /** A `forEach` that adds up one field. */
  method Somar(rs: seq<Registro>, k: string) returns (total: real)
    ensures total == SomaCampo(rs, k)
  {
    total := 0.0;
    var i := 0;
    while i < |rs|
      invariant 0 <= i <= |rs|
      invariant total == SomaCampo(rs[..i], k)
    {
      assert rs[..i + 1][..i] == rs[..i];
      total := total + ValorCampo(rs[i], k);
      i := i + 1;
    }
    assert rs[..|rs|] == rs;
  }

  /** A `forEach` that adds up two fields at once. */
  method SomarDois(rs: seq<Registro>, k1: string, k2: string) returns (a: real, b: real)
    ensures a == SomaCampo(rs, k1) && b == SomaCampo(rs, k2)
  {
    a, b := 0.0, 0.0;
    var i := 0;
    while i < |rs|
      invariant 0 <= i <= |rs|
      invariant a == SomaCampo(rs[..i], k1) && b == SomaCampo(rs[..i], k2)
    {
      assert rs[..i + 1][..i] == rs[..i];
      a := a + ValorCampo(rs[i], k1);
      b := b + ValorCampo(rs[i], k2);
      i := i + 1;
    }
    assert rs[..|rs|] == rs;
  }

  /** A `forEach` that keeps the largest value of one field. */
  method Maior(rs: seq<Registro>, k: string, inicial: real) returns (m: real)
    ensures m == MaiorCampo(rs, k, inicial)
  {
    m := inicial;
    var i := 0;
    while i < |rs|
      invariant 0 <= i <= |rs|
      invariant m == MaiorCampo(rs[..i], k, inicial)
    {
      assert rs[..i + 1][..i] == rs[..i];
      m := Max(m, ValorCampo(rs[i], k));
      i := i + 1;
    }
    assert rs[..|rs|] == rs;
  }

  /** A `forEach` that adds two fields of every record. */
  method SomarPares(rs: seq<Registro>, k1: string, k2: string) returns (total: real)
    ensures total == SomaPares(rs, k1, k2)
  {
    total := 0.0;
    var i := 0;
    while i < |rs|
      invariant 0 <= i <= |rs|
      invariant total == SomaPares(rs[..i], k1, k2)
    {
      assert rs[..i + 1][..i] == rs[..i];
      total := total + (ValorCampo(rs[i], k1) + ValorCampo(rs[i], k2));
      i := i + 1;
    }
    assert rs[..|rs|] == rs;
  }

  /** The composition after the fiscal SPED, when it was imported. */
  function TributosFiscal(speds: Speds, c: Composicao): Composicao
  {
    var fiscal := Escolher(speds, "sped-fiscal", "fiscal");
    if fiscal.Some? then AposFiscal(c, fiscal.value) else c
  }

  /** The composition after the contributions SPED, when it was imported. */
  function TributosContribuicoes(speds: Speds, c: Composicao): Composicao
  {
    var contrib := Escolher(speds, "sped-contribuicoes", "contribuicoes");
    if contrib.Some? then AposContribuicoes(c, contrib.value) else c
  }

  /** The composition after the ECF, when it was imported. */
  function TributosEcf(speds: Speds, c: Composicao): Composicao
  {
    var ecf := Escolher(speds, "sped-ecf", "ecf");
    if ecf.Some? then AposEcf(c, ecf.value) else c
  }

  /** The composition after the sources present, in the order fiscal, contributions, ECF. */
  function Fontes(speds: Speds): Composicao
  {
    TributosEcf(speds, TributosContribuicoes(speds, TributosFiscal(speds, ComposicaoInicial)))
  }

  /** Nets, rates and checks, in that order. */
  function Finalizada(c: Composicao): Composicao
  {
    ValidacaoDe(AliquotasDe(c.(impostosLiquidos := LiquidosDe(c.debitos, c.creditos))))
  }

  /** `processarComposicaoTributaria` on the value: the sources present, then nets, rates and checks. */
  function ComposicaoDe(speds: Speds): Composicao
  {
    Finalizada(Fontes(speds))
  }

  method ProcessarComposicaoTributaria(speds: Speds) returns (composicao: ComposicaoTributaria)
    ensures fresh(composicao)
    ensures composicao.Estado() == ComposicaoDe(speds)
  {
    composicao := new ComposicaoTributaria();
    composicao.ProcessarFontes(speds);
    composicao.Finalizar();
  }

  /** Net taxes of the processed composition are never negative and add up to their total. */
  lemma {:induction false} ComposicaoConsistente(speds: Speds, x: Tributo)
    ensures var c := ComposicaoDe(speds);
      LiquidoDe(c.impostosLiquidos, x) >= 0.0
      && c.impostosLiquidos.total == c.impostosLiquidos.pis + c.impostosLiquidos.cofins + c.impostosLiquidos.icms
                                     + c.impostosLiquidos.ipi + c.impostosLiquidos.iss + c.debitos.outros
      && c.faturamentoTotal >= 0.0
  {
    var c3 := Fontes(speds);
    FontesFaturamento(speds);
    LiquidosNaoNegativos(c3.debitos, c3.creditos, x);
    FinalizadaMantem(c3);
  }

  /** Each source keeps the revenue from decreasing. */
  lemma {:induction false} FonteFaturamento(speds: Speds, c: Composicao)
    ensures TributosFiscal(speds, c).faturamentoTotal >= c.faturamentoTotal
    ensures TributosContribuicoes(speds, c).faturamentoTotal >= c.faturamentoTotal
    ensures TributosEcf(speds, c).faturamentoTotal >= c.faturamentoTotal
  {
    var fiscal := Escolher(speds, "sped-fiscal", "fiscal");
    var contrib := Escolher(speds, "sped-contribuicoes", "contribuicoes");
    var ecf := Escolher(speds, "sped-ecf", "ecf");
    if fiscal.Some? { FaturamentoNaoDiminui(c, fiscal.value); }
    if contrib.Some? { FaturamentoNaoDiminui(c, contrib.value); }
    if ecf.Some? { FaturamentoNaoDiminui(c, ecf.value); }
  }

  /** The revenue gathered from the sources is never negative. */
  lemma {:induction false} FontesFaturamento(speds: Speds)
    ensures Fontes(speds).faturamentoTotal >= 0.0
  {
    var c1 := TributosFiscal(speds, ComposicaoInicial);
    var c2 := TributosContribuicoes(speds, c1);
    FonteFaturamento(speds, ComposicaoInicial);
    FonteFaturamento(speds, c1);
    FonteFaturamento(speds, c2);
  }

  /** Finishing sets the nets from the debits and credits and keeps those and the revenue. */
  lemma {:induction false} FinalizadaMantem(c: Composicao)
    ensures Finalizada(c).impostosLiquidos == LiquidosDe(c.debitos, c.creditos)
    ensures Finalizada(c).debitos == c.debitos && Finalizada(c).faturamentoTotal == c.faturamentoTotal
  {
    var c4 := c.(impostosLiquidos := LiquidosDe(c.debitos, c.creditos));
    assert AliquotasDe(c4).impostosLiquidos == c4.impostosLiquidos && AliquotasDe(c4).debitos == c4.debitos;
    assert AliquotasDe(c4).faturamentoTotal == c4.faturamentoTotal;
  }

  // ---------------------------------------------------------------- company data

  /** The `empresaInfo` object. */
  datatype EmpresaInfo = EmpresaInfo(
    razaoSocial: string, nomeFantasia: string, cnpj: string, inscricaoEstadual: string,
    uf: string, municipio: string, atividade: string, regimeTributario: string,
    dataInicialPeriodo: string, dataFinalPeriodo: string, fonte: string)

  const EmpresaVazia := EmpresaInfo("", "", "", "", "", "", "", "", "", "", "")

  /** Appends a source name to the list of sources, `', '`-separated. */
  function Acrescentar(fonte: string, nome: string): string
  {
    if fonte == "" then nome else fonte + ", " + nome
  }

  /** The company data of a parsed file, when both the file and its company data are present. */
  function DadosDe(sped: Option<Sped>): Option<map<string, string>>
  {
    if sped.Some? then sped.value.dadosEmpresa else None
  }

  /** The SPED Fiscal step: every field it has, and the source named. */
  function ComFiscal(info: EmpresaInfo, fiscal: Option<map<string, string>>): EmpresaInfo
  {
    match fiscal
    case None => info
    case Some(d) =>
      info.(razaoSocial := Texto(d, "razaoSocial"), nomeFantasia := Texto(d, "nomeFantasia"),
            cnpj := Texto(d, "cnpj"), inscricaoEstadual := Texto(d, "inscricaoEstadual"),
            uf := Texto(d, "uf"), municipio := Texto(d, "municipio"),
            dataInicialPeriodo := Texto(d, "dataInicialPeriodo"), dataFinalPeriodo := Texto(d, "dataFinalPeriodo"),
            fonte := "SPED Fiscal")
  }

  /** The SPED Contribuições step: name and CNPJ, only while there is no name. */
  function ComContribuicoes(info: EmpresaInfo, contrib: Option<map<string, string>>): EmpresaInfo
  {
    if contrib.Some? && info.razaoSocial == "" then
      info.(razaoSocial := Texto(contrib.value, "razaoSocial"), cnpj := Texto(contrib.value, "cnpj"),
            fonte := Acrescentar(info.fonte, "SPED Contribuições"))
    else info
  }

  /** The ECF step: the tax regime while there is none, and the source named. */
  function ComEcf(info: EmpresaInfo, ecf: Option<map<string, string>>): EmpresaInfo
  {
    match ecf
    case None => info
    case Some(d) =>
      var regime := if info.regimeTributario == "" && Texto(d, "regimeTributario") != ""
                    then Texto(d, "regimeTributario") else info.regimeTributario;
      info.(regimeTributario := regime, fonte := Acrescentar(info.fonte, "ECF"))
  }

  /** `extrairInformacoesEmpresa` on values. */
  function InformacoesEmpresa(speds: Speds): EmpresaInfo
  {
    var fiscal := DadosDe(Escolher(speds, "sped-fiscal", "fiscal"));
    var contrib := DadosDe(Escolher(speds, "sped-contribuicoes", "contribuicoes"));
    var ecf := DadosDe(Escolher(speds, "sped-ecf", "ecf"));
    ComEcf(ComContribuicoes(ComFiscal(EmpresaVazia, fiscal), contrib), ecf)
  }

  /** `extrairInformacoesEmpresa`: the object filled source by source. */
  method ExtrairInformacoesEmpresa(speds: Speds) returns (info: EmpresaInfo)
    ensures info == InformacoesEmpresa(speds)
  {
    info := EmpresaVazia;
    var fiscal := DadosDe(Escolher(speds, "sped-fiscal", "fiscal"));
    if fiscal.Some? {
      var d := fiscal.value;
      info := info.(razaoSocial := Texto(d, "razaoSocial"), nomeFantasia := Texto(d, "nomeFantasia"),
                    cnpj := Texto(d, "cnpj"), inscricaoEstadual := Texto(d, "inscricaoEstadual"),
                    uf := Texto(d, "uf"), municipio := Texto(d, "municipio"),
                    dataInicialPeriodo := Texto(d, "dataInicialPeriodo"), dataFinalPeriodo := Texto(d, "dataFinalPeriodo"),
                    fonte := "SPED Fiscal");
    }
    ghost var passo1 := info;
    assert passo1 == ComFiscal(EmpresaVazia, fiscal);
    var contrib := DadosDe(Escolher(speds, "sped-contribuicoes", "contribuicoes"));
    if contrib.Some? && info.razaoSocial == "" {
      var d := contrib.value;
      info := info.(razaoSocial := Texto(d, "razaoSocial"), cnpj := Texto(d, "cnpj"),
                    fonte := Acrescentar(info.fonte, "SPED Contribuições"));
    }
    ghost var passo2 := info;
    assert passo2 == ComContribuicoes(passo1, contrib);
    var ecf := DadosDe(Escolher(speds, "sped-ecf", "ecf"));
    if ecf.Some? {
      var d := ecf.value;
      if info.regimeTributario == "" && Texto(d, "regimeTributario") != "" {
        info := info.(regimeTributario := Texto(d, "regimeTributario"));
      }
      info := info.(fonte := Acrescentar(info.fonte, "ECF"));
    }
    assert info == ComEcf(passo2, ecf);
  }

  /** Only SPED Fiscal supplies the trade name, state registration, location and period; no file supplies the activity. */
  lemma {:induction false} EmpresaDoFiscal(speds: Speds)
    ensures var fiscal := DadosDe(Escolher(speds, "sped-fiscal", "fiscal"));
      var info := InformacoesEmpresa(speds);
      && info.nomeFantasia == (if fiscal.Some? then Texto(fiscal.value, "nomeFantasia") else "")
      && info.inscricaoEstadual == (if fiscal.Some? then Texto(fiscal.value, "inscricaoEstadual") else "")
      && info.uf == (if fiscal.Some? then Texto(fiscal.value, "uf") else "")
      && info.municipio == (if fiscal.Some? then Texto(fiscal.value, "municipio") else "")
      && info.dataInicialPeriodo == (if fiscal.Some? then Texto(fiscal.value, "dataInicialPeriodo") else "")
      && info.dataFinalPeriodo == (if fiscal.Some? then Texto(fiscal.value, "dataFinalPeriodo") else "")
      && info.atividade == ""
  {
  }

  /** A name from SPED Fiscal is kept; SPED Contribuições supplies name and CNPJ exactly when SPED Fiscal gave no name. */
  lemma {:induction false} EmpresaPrioridadeFiscal(speds: Speds)
    ensures var fiscal := DadosDe(Escolher(speds, "sped-fiscal", "fiscal"));
      var contrib := DadosDe(Escolher(speds, "sped-contribuicoes", "contribuicoes"));
      var info := InformacoesEmpresa(speds);
      var complementa := contrib.Some? && (fiscal.None? || Texto(fiscal.value, "razaoSocial") == "");
      && (fiscal.Some? && Texto(fiscal.value, "razaoSocial") != "" ==> info.razaoSocial == Texto(fiscal.value, "razaoSocial"))
      && (complementa ==> info.razaoSocial == Texto(contrib.value, "razaoSocial") && info.cnpj == Texto(contrib.value, "cnpj"))
      && (!complementa ==> info.cnpj == (if fiscal.Some? then Texto(fiscal.value, "cnpj") else ""))
      && (!complementa ==> info.razaoSocial == (if fiscal.Some? then Texto(fiscal.value, "razaoSocial") else ""))
  {
    var fiscal := DadosDe(Escolher(speds, "sped-fiscal", "fiscal"));
    var contrib := DadosDe(Escolher(speds, "sped-contribuicoes", "contribuicoes"));
    var ecf := DadosDe(Escolher(speds, "sped-ecf", "ecf"));
    var i1 := ComFiscal(EmpresaVazia, fiscal);
    var i2 := ComContribuicoes(i1, contrib);
    assert ComEcf(i2, ecf).razaoSocial == i2.razaoSocial && ComEcf(i2, ecf).cnpj == i2.cnpj;
  }

  /** The regime comes from the ECF alone. */
  lemma {:induction false} EmpresaRegime(speds: Speds)
    ensures var ecf := DadosDe(Escolher(speds, "sped-ecf", "ecf"));
      InformacoesEmpresa(speds).regimeTributario == (if ecf.Some? then Texto(ecf.value, "regimeTributario") else "")
  {
  }

  /** `fonte` names the files that contributed, in order. */
  lemma {:induction false} EmpresaFontes(speds: Speds)
    ensures var fiscal := DadosDe(Escolher(speds, "sped-fiscal", "fiscal"));
      var contrib := DadosDe(Escolher(speds, "sped-contribuicoes", "contribuicoes"));
      var complementa := contrib.Some? && (fiscal.None? || Texto(fiscal.value, "razaoSocial") == "");
      InformacoesEmpresa(speds).fonte
        == Juntar((if fiscal.Some? then ["SPED Fiscal"] else [])
                  + (if complementa then ["SPED Contribuições"] else [])
                  + (if DadosDe(Escolher(speds, "sped-ecf", "ecf")).Some? then ["ECF"] else []))
  {
    var fiscal := DadosDe(Escolher(speds, "sped-fiscal", "fiscal"));
    var contrib := DadosDe(Escolher(speds, "sped-contribuicoes", "contribuicoes"));
    var ecf := DadosDe(Escolher(speds, "sped-ecf", "ecf"));
    var complementa := contrib.Some? && (fiscal.None? || Texto(fiscal.value, "razaoSocial") == "");
    var f1: seq<string> := if fiscal.Some? then ["SPED Fiscal"] else [];
    var f2 := f1 + (if complementa then ["SPED Contribuições"] else []);
    var f3 := f2 + (if ecf.Some? then ["ECF"] else []);
    var i1 := ComFiscal(EmpresaVazia, fiscal);
    if fiscal.Some? {
      JuntarMais([], "SPED Fiscal");
    }
    assert i1.fonte == Juntar(f1);
    var i2 := ComContribuicoes(i1, contrib);
    if complementa {
      JuntarMais(f1, "SPED Contribuições");
    } else {
      assert f2 == f1;
    }
    assert i2.fonte == Juntar(f2);
    if ecf.Some? {
      JuntarMais(f2, "ECF");
    } else {
      assert f3 == f2;
    }
    assert ComEcf(i2, ecf).fonte == Juntar(f3);
  }

  /** One more source is appended to the joined list. */
  lemma {:induction false} JuntarMais(nomes: seq<string>, nome: string)
    ensures Juntar(nomes + [nome]) == Acrescentar(Juntar(nomes), nome)
  {
    assert (nomes + [nome])[..|nomes|] == nomes;
  }

  /** The sources joined in order. */
  function Juntar(nomes: seq<string>): string
  {
    if |nomes| == 0 then "" else Acrescentar(Juntar(nomes[..|nomes| - 1]), nomes[|nomes| - 1])
  }

  // ---------------------------------------------------------------- the transition schedule

  /** One year of `CONFIG.cronogramaTransicao`: the shares of the current system and of the dual VAT. */
  datatype Etapa = Etapa(ano: int, sistemaAtual: real, ivaDual: real)

  /** `CONFIG.cronogramaTransicao`, in the order `Object.keys` lists its years. */
  const Cronograma := [
    Etapa(2026, 0.90, 0.10), Etapa(2027, 0.75, 0.25), Etapa(2028, 0.60, 0.40), Etapa(2029, 0.45, 0.55),
    Etapa(2030, 0.30, 0.70), Etapa(2031, 0.15, 0.85), Etapa(2032, 0.05, 0.95), Etapa(2033, 0.00, 1.00)]

  /** The schedule covers 2026 to 2033 in order; each year splits the load in full; the VAT share only grows and is whole in 2033. */
  lemma {:induction false} CronogramaCoerente()
    ensures |Cronograma| == 8
    ensures forall i | 0 <= i < |Cronograma| :: Cronograma[i].ano == 2026 + i
    ensures forall i | 0 <= i < |Cronograma| :: Cronograma[i].sistemaAtual + Cronograma[i].ivaDual == 1.0
    ensures forall i | 0 <= i < |Cronograma| :: 0.0 <= Cronograma[i].ivaDual <= 1.0
    ensures forall i, j | 0 <= i <= j < |Cronograma| :: Cronograma[i].ivaDual <= Cronograma[j].ivaDual
    ensures Cronograma[|Cronograma| - 1] == Etapa(2033, 0.0, 1.0)
  {
  }

  /** The projection of one year (`calcularProjecaoAno`). */
  datatype Projecao = Projecao(
    ano: int, percentualSistemaAtual: real, percentualIVA: real, impostosSistemaAtual: Liquidos,
    impostosIVA: real, totalImpostos: real, aliquotaEfetiva: real, impactoCapitalGiro: real)

  /** The load of the dual VAT on the whole revenue, `faturamento · aliquota / 100`. */
  function CargaIVA(c: Composicao, aliquotaIVA: real): real
  {
    c.faturamentoTotal * aliquotaIVA / 100.0
  }

  function Escalar(l: Liquidos, k: real): Liquidos
  {
    Liquidos(l.pis * k, l.cofins * k, l.icms * k, l.ipi * k, l.iss * k, l.total * k)
  }

  /** The projection of one year: the current taxes scaled by their share plus the VAT scaled by its own. */
  function ProjecaoDoAno(e: Etapa, c: Composicao, aliquotaIVA: real): (r: Projecao)
    ensures r.ano == e.ano && r.percentualSistemaAtual == e.sistemaAtual && r.percentualIVA == e.ivaDual
    ensures r.totalImpostos == r.impostosSistemaAtual.total + r.impostosIVA
    ensures c.faturamentoTotal <= 0.0 ==> r.aliquotaEfetiva == 0.0
  {
    var atuais := Escalar(c.impostosLiquidos, e.sistemaAtual);
    var iva := c.faturamentoTotal * aliquotaIVA / 100.0 * e.ivaDual;
    var total := atuais.total + iva;
    var aliquota := if c.faturamentoTotal > 0.0 then total / c.faturamentoTotal * 100.0 else 0.0;
    Projecao(e.ano, e.sistemaAtual, e.ivaDual, atuais, iva, total, aliquota, iva * e.ivaDual)
  }

  /** Each current tax is scaled by the current share, the VAT by its own; the rate applied to revenue gives the year's load back. */
  lemma {:induction false} ProjecaoCoerente(e: Etapa, c: Composicao, aliquotaIVA: real)
    ensures var r := ProjecaoDoAno(e, c, aliquotaIVA);
      && r.impostosSistemaAtual == Escalar(c.impostosLiquidos, e.sistemaAtual)
      && r.impostosIVA == CargaIVA(c, aliquotaIVA) * e.ivaDual
      && r.impactoCapitalGiro == r.impostosIVA * e.ivaDual
      && (c.faturamentoTotal > 0.0 ==> r.aliquotaEfetiva * c.faturamentoTotal / 100.0 == r.totalImpostos)
  {
    var r := ProjecaoDoAno(e, c, aliquotaIVA);
    var f, t := c.faturamentoTotal, r.totalImpostos;
    if f > 0.0 {
      assert r.aliquotaEfetiva == t / f * 100.0;
      assert t / f * 100.0 * f / 100.0 == t;
    }
  }

  /** A year of the schedule carries a load between the current one and the full VAT, and the full VAT in 2033. */
  lemma {:induction false} ProjecaoInterpola(i: nat, c: Composicao, aliquotaIVA: real)
    requires i < |Cronograma|
    ensures var r := ProjecaoDoAno(Cronograma[i], c, aliquotaIVA);
      var atual, iva := c.impostosLiquidos.total, CargaIVA(c, aliquotaIVA);
      && (atual <= iva ==> atual <= r.totalImpostos <= iva)
      && (iva <= atual ==> iva <= r.totalImpostos <= atual)
      && (Cronograma[i].ano == 2033 ==> r.totalImpostos == iva)
  {
    CronogramaCoerente();
    var e := Cronograma[i];
    var atual, iva := c.impostosLiquidos.total, CargaIVA(c, aliquotaIVA);
    var r := ProjecaoDoAno(e, c, aliquotaIVA);
    assert r.totalImpostos == atual * e.sistemaAtual + iva * e.ivaDual;
    assert r.totalImpostos == atual + (iva - atual) * e.ivaDual;
  }

  /** The projections of the first `n` years of the schedule, by year. */
  function ProjecoesAte(c: Composicao, aliquotaIVA: real, n: nat): map<int, Projecao>
    requires n <= |Cronograma|
  {
    if n == 0 then map[]
    else ProjecoesAte(c, aliquotaIVA, n - 1)[Cronograma[n - 1].ano := ProjecaoDoAno(Cronograma[n - 1], c, aliquotaIVA)]
  }

  /** There is a projection for exactly the scheduled years, each the projection of its year. */
  lemma {:induction false} ProjecoesPorAno(c: Composicao, aliquotaIVA: real, n: nat)
    requires n <= |Cronograma|
    ensures forall ano :: ano in ProjecoesAte(c, aliquotaIVA, n) <==> 2026 <= ano < 2026 + n
    ensures forall i | 0 <= i < n :: ProjecoesAte(c, aliquotaIVA, n)[2026 + i] == ProjecaoDoAno(Cronograma[i], c, aliquotaIVA)
  {
    CronogramaCoerente();
    if n > 0 {
      ProjecoesPorAno(c, aliquotaIVA, n - 1);
    }
  }

  /** The transition data (`processarTransicaoTributaria`), with its summary. */
  datatype Transicao = Transicao(projecoesPorAno: map<int, Projecao>, impactoTotal: real, variacao: Liquidos, aliquotaFinal: real)

  /** The sum of the working-capital impacts of the first `n` scheduled years. */
  function SomaImpactos(projecoes: map<int, Projecao>, n: nat): real
    requires n <= |Cronograma|
  {
    if n == 0 then 0.0
    else
      var ano := Cronograma[n - 1].ano;
      SomaImpactos(projecoes, n - 1) + (if ano in projecoes then projecoes[ano].impactoCapitalGiro else 0.0)
  }

  /** `calcularResumoTransicao`: the impacts added up; the change from the current load to the full VAT. */
  function ResumoDe(projecoes: map<int, Projecao>, c: Composicao, aliquotaIVA: real): Transicao
  {
    Transicao(projecoes, SomaImpactos(projecoes, |Cronograma|),
              SemLiquidos.(total := CargaIVA(c, aliquotaIVA) - c.impostosLiquidos.total), aliquotaIVA)
  }

  /** `processarTransicaoTributaria`: one projection per scheduled year, then the summary. */
  method ProcessarTransicaoTributaria(c: Composicao, aliquotaIVA: real) returns (t: Transicao)
    ensures t == ResumoDe(ProjecoesAte(c, aliquotaIVA, |Cronograma|), c, aliquotaIVA)
  {
    var projecoes: map<int, Projecao> := map[];
    var i := 0;
    while i < |Cronograma|
      invariant 0 <= i <= |Cronograma|
      invariant projecoes == ProjecoesAte(c, aliquotaIVA, i)
    {
      var etapa := Cronograma[i];
      projecoes := projecoes[etapa.ano := ProjecaoDoAno(etapa, c, aliquotaIVA)];
      i := i + 1;
    }
    t := ResumoDe(projecoes, c, aliquotaIVA);
  }

  /** One year's impact is the VAT load weighted by the square of that year's share. */
  lemma {:induction false} ImpactoDoAno(c: Composicao, aliquotaIVA: real, i: nat)
    requires i < |Cronograma|
    ensures var p := ProjecoesAte(c, aliquotaIVA, |Cronograma|);
      Cronograma[i].ano in p
      && p[Cronograma[i].ano].impactoCapitalGiro == CargaIVA(c, aliquotaIVA) * (Cronograma[i].ivaDual * Cronograma[i].ivaDual)
  {
    ProjecoesPorAno(c, aliquotaIVA, |Cronograma|);
    CronogramaCoerente();
    ProjecaoCoerente(Cronograma[i], c, aliquotaIVA);
  }

  /** The total impact adds the VAT load weighted by the square of each year's share: 3.65 times the full load. */
  lemma {:induction false} ImpactoTotalFechado(c: Composicao, aliquotaIVA: real)
    ensures ResumoDe(ProjecoesAte(c, aliquotaIVA, |Cronograma|), c, aliquotaIVA).impactoTotal == 3.65 * CargaIVA(c, aliquotaIVA)
  {
    var p := ProjecoesAte(c, aliquotaIVA, |Cronograma|);
    var iva := CargaIVA(c, aliquotaIVA);
    ImpactoDoAno(c, aliquotaIVA, 0);
    assert SomaImpactos(p, 1) == iva * 0.01;
    ImpactoDoAno(c, aliquotaIVA, 1);
    assert SomaImpactos(p, 2) == iva * 0.0725;
    ImpactoDoAno(c, aliquotaIVA, 2);
    assert SomaImpactos(p, 3) == iva * 0.2325;
    ImpactoDoAno(c, aliquotaIVA, 3);
    assert SomaImpactos(p, 4) == iva * 0.535;
    ImpactoDoAno(c, aliquotaIVA, 4);
    assert SomaImpactos(p, 5) == iva * 1.025;
    ImpactoDoAno(c, aliquotaIVA, 5);
    assert SomaImpactos(p, 6) == iva * 1.7475;
    ImpactoDoAno(c, aliquotaIVA, 6);
    assert SomaImpactos(p, 7) == iva * 2.65;
    ImpactoDoAno(c, aliquotaIVA, 7);
  }

  // ---------------------------------------------------------------- the financial cycle

  /** The `cicloFinanceiro` object: average days to receive, to pay and in stock, and the derived cycles. */
  class CicloFinanceiro {
    var pmr: real
    var pmp: real
    var pme: real
    var cicloOperacional: real
    var cicloFinanceiroLiquido: real

    /** The object literal's defaults: 30 days each, an operating cycle of 60 and a cash cycle of 30. */
    constructor ()
      ensures pmr == 30.0 && pmp == 30.0 && pme == 30.0
      ensures cicloOperacional == pmr + pme && cicloFinanceiroLiquido == cicloOperacional - pmp
    {
      pmr, pmp, pme := 30.0, 30.0, 30.0;
      cicloOperacional, cicloFinanceiroLiquido := 60.0, 30.0;
    }

    /** `calcularIndicadoresCiclo`: the operating cycle, and the cash cycle it leaves after the payment term. */
    method CalcularIndicadoresCiclo()
      modifies this
      ensures pmr == old(pmr) && pmp == old(pmp) && pme == old(pme)
      ensures cicloOperacional == pmr + pme
      ensures cicloFinanceiroLiquido == cicloOperacional - pmp
    {
      cicloOperacional := pmr + pme;
      cicloFinanceiroLiquido := cicloOperacional - pmp;
    }

    /** `calcularIndicadoresCicloCorrigido`: the same, with the cash cycle never below 5 days. */
    method CalcularIndicadoresCicloCorrigido()
      modifies this
      ensures pmr == old(pmr) && pmp == old(pmp) && pme == old(pme)
      ensures cicloOperacional == pmr + pme
      ensures cicloFinanceiroLiquido >= 5.0 && cicloFinanceiroLiquido >= cicloOperacional - pmp
      ensures cicloOperacional - pmp >= 5.0 ==> cicloFinanceiroLiquido == cicloOperacional - pmp
      ensures cicloOperacional - pmp < 5.0 ==> cicloFinanceiroLiquido == 5.0
    {
      cicloOperacional := pmr + pme;
      cicloFinanceiroLiquido := cicloOperacional - pmp;
      cicloFinanceiroLiquido := Max(cicloFinanceiroLiquido, 5.0);
    }
  }

  // ---------------------------------------------------------------- data quality

  datatype Nivel = Alto | Medio | Baixo

  /** The recommendations of the quality assessment (their wording is left out). */
  datatype Recomendacao = ImportarMaisSpeds | VerificarInconsistencias | ValidarValores

  /** The part of `dadosFinanceiros` the assessment reads. */
  datatype DadosFinanceiros = DadosFinanceiros(receitaLiquida: real, observacoes: seq<string>, margemOperacional: real)

  /** The `avaliacao` object. */
  datatype Avaliacao = Avaliacao(
    pontuacao: int, nivel: Nivel, completudeDados: int, consistenciaInterna: int,
    razoabilidadeValores: int, diversidadeFontes: int, recomendacoes: seq<Recomendacao>)

  function Abs(x: real): real
  {
    if x < 0.0 then -x else x
  }

  /** Completeness: 10 for revenue, 10 for net taxes, 5 for net income; 20 or more only with both revenue and taxes. */
  function Completude(c: Composicao, f: DadosFinanceiros): (r: int)
    ensures 0 <= r <= 25
    ensures r >= 20 <==> c.faturamentoTotal > 0.0 && c.impostosLiquidos.total > 0.0
    ensures r == 0 <==> c.faturamentoTotal <= 0.0 && c.impostosLiquidos.total <= 0.0 && f.receitaLiquida <= 0.0
  {
    (if c.faturamentoTotal > 0.0 then 10 else 0) + (if c.impostosLiquidos.total > 0.0 then 10 else 0)
      + (if f.receitaLiquida > 0.0 then 5 else 0)
  }

  /** Consistency: 15, less 5 for each side with more than three remarks; below 15 exactly when some side has. */
  function Consistencia(c: Composicao, f: DadosFinanceiros): (r: int)
    ensures 5 <= r <= 15
    ensures r < 15 <==> |c.observacoes| > 3 || |f.observacoes| > 3
  {
    Max0(15 - (if |c.observacoes| > 3 then 5 else 0) - (if |f.observacoes| > 3 then 5 else 0))
  }

  /** Reasonableness: 20, less 10 for an overall rate outside 2–50 %, less 5 for an operating margin beyond ±50 %. */
  function Razoabilidade(c: Composicao, f: DadosFinanceiros): (r: int)
    ensures 5 <= r <= 20
    ensures r < 15 <==> c.aliquotasEfetivas.total > 50.0 || c.aliquotasEfetivas.total < 2.0
    ensures r == 20 <==> 2.0 <= c.aliquotasEfetivas.total <= 50.0 && Abs(f.margemOperacional) <= 50.0
  {
    Max0(20 - (if c.aliquotasEfetivas.total > 50.0 || c.aliquotasEfetivas.total < 2.0 then 10 else 0)
            - (if Abs(f.margemOperacional) > 50.0 then 5 else 0))
  }

  /** Diversity: 8 points per file, at most 25. */
  function Diversidade(arquivos: nat): (r: int)
    ensures 0 <= r <= 25 && r <= 8 * arquivos
    ensures r == 25 <==> arquivos >= 4
    ensures arquivos < 4 ==> r == 8 * arquivos
  {
    if 8 * arquivos < 25 then 8 * arquivos else 25
  }

  /** `Math.max(0, x)`. */
  function Max0(x: int): (r: int)
    ensures r >= 0 && r >= x && (r == x || r == 0)
  {
    if x < 0 then 0 else x
  }

  function NivelDe(pontuacao: int): (n: Nivel)
    ensures n == Alto <==> pontuacao >= 80
    ensures n == Medio <==> 60 <= pontuacao < 80
    ensures n == Baixo <==> pontuacao < 60
  {
    if pontuacao >= 80 then Alto else if pontuacao >= 60 then Medio else Baixo
  }

  /** `avaliarQualidadeDados`: the four criteria and their sum, the level and the recommendations. */
  method AvaliarQualidadeDados(speds: Speds, c: Composicao, financeiros: DadosFinanceiros) returns (a: Avaliacao)
    ensures a.completudeDados == Completude(c, financeiros) && a.consistenciaInterna == Consistencia(c, financeiros)
    ensures a.razoabilidadeValores == Razoabilidade(c, financeiros) && a.diversidadeFontes == Diversidade(|speds|)
    ensures a.pontuacao == a.completudeDados + a.consistenciaInterna + a.razoabilidadeValores + a.diversidadeFontes
    ensures 10 <= a.pontuacao <= 85
    ensures a.nivel == NivelDe(a.pontuacao)
    ensures a.nivel == Alto ==> |speds| >= 3
    ensures (ImportarMaisSpeds in a.recomendacoes) <==> a.completudeDados < 20
    ensures (VerificarInconsistencias in a.recomendacoes) <==> a.consistenciaInterna < 15
    ensures (ValidarValores in a.recomendacoes) <==> a.razoabilidadeValores < 15
  {
    var completude := Completude(c, financeiros);
    var consistencia := Consistencia(c, financeiros);
    var razoabilidade := Razoabilidade(c, financeiros);
    var diversidade := Diversidade(|speds|);
    var pontuacao := completude + consistencia + razoabilidade + diversidade;
    var recomendacoes: seq<Recomendacao> := [];
    if completude < 20 {
      recomendacoes := recomendacoes + [ImportarMaisSpeds];
    }
    if consistencia < 15 {
      recomendacoes := recomendacoes + [VerificarInconsistencias];
    }
    if razoabilidade < 15 {
      recomendacoes := recomendacoes + [ValidarValores];
    }
    a := Avaliacao(pontuacao, NivelDe(pontuacao), completude, consistencia, razoabilidade, diversidade, recomendacoes);
  }
}
