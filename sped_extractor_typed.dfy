/**
 * The second-generation extraction of simulator parameters from the parsed SPED data: the kind
 * of company, its tax regime, its VAT sector and its kind of operation, the monthly debits and
 * credits per tax with the effective rates they give, and the financial cycle.
 */
module SpedExtractorTyped {
  import opened JsText
  import opened JsNumber
  import opened SpedParserTyped

  /** The ECF part the extraction reads: `ecf.dados` and `ecf.parametros`. */
  datatype Ecf = Ecf(dados: Obj, parametros: Obj)

  /**
   * `dadosSped`: the parsed data (documents, items, groups by category, indexes), the ECF part,
   * the consolidation detail and totals by tax, and the scalar fields such as the account balances.
   */
  datatype DadosSped = DadosSped(
    extracao: Extracao, ecf: Option<Ecf>,
    detalhamento: map<string, seq<Obj>>, totalizacao: map<string, seq<Obj>>, campos: Obj)

  /** `o.k || 0` for a numeric field; a value that is not a number reads as 0. */
  function Quantia(o: Obj, k: string): real
  {
    NumValue(Prop(o, k))
  }

  /** `o.k` is truthy. */
  predicate Presente(o: Obj, k: string)
  {
    !Falsy(Prop(o, k))
  }

  function Impostos(d: DadosSped, c: string): seq<Obj> { Bucket(GrupoDe(d.extracao, Agrupamento.Impostos), c) }
  function Creditos(d: DadosSped, c: string): seq<Obj> { Bucket(GrupoDe(d.extracao, Agrupamento.Creditos), c) }
  function Debitos(d: DadosSped, c: string): seq<Obj> { Bucket(GrupoDe(d.extracao, Agrupamento.Debitos), c) }
  function Ajustes(d: DadosSped, c: string): seq<Obj> { Bucket(GrupoDe(d.extracao, Agrupamento.Ajustes), c) }

  // ---------------------------------------------------------------- accumulators

  /** The sum of `valor` over the records, in order (a `forEach` that adds to an accumulator). */
  function Soma(rs: seq<Obj>, valor: Obj -> real): real
    decreases |rs|
  {
    if |rs| == 0 then 0.0 else Soma(rs[..|rs| - 1], valor) + valor(rs[|rs| - 1])
  }

  method Somar(rs: seq<Obj>, valor: Obj -> real) returns (total: real)
    ensures total == Soma(rs, valor)
  {
    total := 0.0;
    var i := 0;
    while i < |rs|
      invariant 0 <= i <= |rs|
      invariant total == Soma(rs[..i], valor)
    {
      assert rs[..i + 1][..i] == rs[..i];
      total := total + valor(rs[i]);
      i := i + 1;
    }
    assert rs[..|rs|] == rs;
  }

  /** A sum of values that are never negative is never negative. */
  lemma {:induction false} SomaNaoNegativa(rs: seq<Obj>, valor: Obj -> real)
    requires forall r :: valor(r) >= 0.0
    ensures Soma(rs, valor) >= 0.0
    decreases |rs|
  {
    if |rs| > 0 {
      SomaNaoNegativa(rs[..|rs| - 1], valor);
    }
  }

  /** How many records satisfy `p`. */
  function Conta(rs: seq<Obj>, p: Obj -> bool): nat
    ensures Conta(rs, p) <= |rs|
    decreases |rs|
  {
    if |rs| == 0 then 0 else Conta(rs[..|rs| - 1], p) + (if p(rs[|rs| - 1]) then 1 else 0)
  }

  // ---------------------------------------------------------------- limitarValor

  /** `limitarValor`: `Math.max(min, Math.min(max, valor))`. */
  function LimitarValor(valor: real, min: real, max: real): (r: real)
    ensures min <= max ==> min <= r <= max
    ensures min <= valor <= max ==> r == valor
    ensures min <= max && valor < min ==> r == min
    ensures min <= max && valor > max ==> r == max
  {
    Max(min, Min(max, valor))
  }

  /** Limiting twice to the same range changes nothing more. */
  lemma {:induction false} LimitarIdempotente(valor: real, min: real, max: real)
    requires min <= max
    ensures LimitarValor(LimitarValor(valor, min, max), min, max) == LimitarValor(valor, min, max)
  {
  }

  // ---------------------------------------------------------------- kind of company

  datatype TipoEmpresa = Comercio | Industria | Servicos

  /** `ecf.dados.cnae` when the ECF part has a non-empty CNAE text. */
  function Cnae(d: DadosSped): Option<string>
  {
    if d.ecf.Some? && Prop(d.ecf.value.dados, "cnae").Str? && Prop(d.ecf.value.dados, "cnae").s != ""
    then Some(Prop(d.ecf.value.dados, "cnae").s) else None
  }

  /** The kind given by the CNAE division: 5–33 industry, 45–47 trade, anything else (or no number) services. */
  function TipoPorCnae(prefixo: Option<int>): TipoEmpresa
  {
    if prefixo.Some? && 5 <= prefixo.value <= 33 then Industria
    else if prefixo.Some? && 45 <= prefixo.value <= 47 then Comercio
    else Servicos
  }

  /** An item's CFOP, when it is a non-empty text. */
  function CfopDe(item: Obj): string
  {
    Texto(Prop(item, "cfop"))
  }

  /** The distinct non-empty CFOPs of the items, in order of first use (the `Set` of CFOPs). */
  function CfopsDistintos(itens: seq<Obj>): seq<string>
    decreases |itens|
  {
    if |itens| == 0 then []
    else
      var antes := CfopsDistintos(itens[..|itens| - 1]);
      var c := CfopDe(itens[|itens| - 1]);
      if c != "" && c !in antes then antes + [c] else antes
  }

  /** The set holds each non-empty CFOP of the items exactly once, and nothing else. */
  lemma {:induction false} CfopsDistintosCorretos(itens: seq<Obj>)
    ensures forall c :: c in CfopsDistintos(itens) <==> c != "" && exists i :: 0 <= i < |itens| && CfopDe(itens[i]) == c
    ensures forall i, j :: 0 <= i < j < |CfopsDistintos(itens)| ==> CfopsDistintos(itens)[i] != CfopsDistintos(itens)[j]
    decreases |itens|
  {
    if |itens| > 0 {
      var q := itens[..|itens| - 1];
      CfopsDistintosCorretos(q);
      forall c | c != "" && exists i :: 0 <= i < |itens| && CfopDe(itens[i]) == c
        ensures c in CfopsDistintos(itens)
      {
        var i :| 0 <= i < |itens| && CfopDe(itens[i]) == c;
        if i < |q| {
          assert q[i] == itens[i];
        }
      }
      forall c | c in CfopsDistintos(itens)
        ensures exists i :: 0 <= i < |itens| && CfopDe(itens[i]) == c
      {
        if c in CfopsDistintos(q) {
          var i :| 0 <= i < |q| && CfopDe(q[i]) == c;
          assert itens[i] == q[i];
        } else {
          assert CfopDe(itens[|itens| - 1]) == c;
        }
      }
    }
  }

  /** The industrial CFOPs (own manufacture, to order, returns, manufactured goods). */
  const CfopsIndustria: set<string> := {
    "5101", "5102", "5103", "5104", "5105", "5106", "5109",
    "6101", "6102", "6103", "6104", "6105", "6106", "6109",
    "5124", "5125", "6124", "6125",
    "5901", "5902", "6901", "6902",
    "5401", "5402", "5403", "5405",
    "6401", "6402", "6403", "6404", "6405"}

  /** The service CFOPs (transport and communication included). */
  const CfopsServicos: set<string> := {
    "5933", "5932", "6933", "6932", "9301", "9302",
    "5301", "5302", "5303", "5304", "5305", "5306", "5307",
    "6301", "6302", "6303", "6304", "6305", "6306", "6307"}

  /** The CFOP tallies: industrial ones weigh 2, service ones 1, other outgoing (5xxx, 6xxx) ones count as trade. */
  datatype Contagem = Contagem(industria: int, servicos: int, comercio: int)

  function ContagemCfops(cfops: seq<string>): (r: Contagem)
    ensures r.industria >= 0 && r.servicos >= 0 && r.comercio >= 0
    decreases |cfops|
  {
    if |cfops| == 0 then Contagem(0, 0, 0)
    else
      var p := ContagemCfops(cfops[..|cfops| - 1]);
      var c := cfops[|cfops| - 1];
      if c in CfopsIndustria then p.(industria := p.industria + 2)
      else if c in CfopsServicos then p.(servicos := p.servicos + 1)
      else if StartsWith(c, "5") || StartsWith(c, "6") then p.(comercio := p.comercio + 1)
      else p
  }

  /** A description (already lower-cased) suggests own manufacture. */
  predicate Fabricado(descricao: string)
  {
    Includes(descricao, "produzido") || Includes(descricao, "fabricado")
      || Includes(descricao, "manufaturado") || Includes(descricao, "produção própria")
  }

  function FabricadoItem(item: Obj): bool
  {
    Fabricado(ToLower(Texto(Prop(item, "descricao"))))
  }

  /** Two points per item whose description suggests own manufacture. */
  function ProducaoPropria(itens: seq<Obj>): int
  {
    2 * Conta(itens, FabricadoItem)
  }

  /** The predominant kind, industry first on a tie. */
  function TipoPorContagem(c: Contagem): (t: TipoEmpresa)
    ensures t == Industria <==> c.industria > 0 && c.industria >= c.comercio && c.industria >= c.servicos
    ensures t == Servicos <==> !(c.industria > 0 && c.industria >= c.comercio && c.industria >= c.servicos) && c.servicos > c.comercio
  {
    var maior := if c.comercio >= c.servicos then c.comercio else c.servicos;
    if c.industria > 0 && c.industria >= maior then Industria
    else if c.servicos > c.comercio then Servicos
    else Comercio
  }

  /** `determinarTipoEmpresa`: IPI records, then the ECF CNAE, then the CFOPs and item descriptions. */
  function TipoEmpresaDe(d: DadosSped): TipoEmpresa
  {
    if |Impostos(d, "ipi")| > 0 then Industria
    else if Cnae(d).Some? && |Cnae(d).value| >= 2 then TipoPorCnae(ParseInt(Cnae(d).value[..2]))
    else
      var itens := d.extracao.itens;
      var c := ContagemCfops(CfopsDistintos(itens));
      TipoPorContagem(c.(industria := c.industria + ProducaoPropria(itens)))
  }

  /** IPI records make an industry; otherwise a CNAE of two or more characters decides by its division. */
  lemma {:induction false} TipoEmpresaPrioridades(d: DadosSped)
    ensures |Impostos(d, "ipi")| > 0 ==> TipoEmpresaDe(d) == Industria
    ensures |Impostos(d, "ipi")| == 0 && Cnae(d).Some? && |Cnae(d).value| >= 2 ==>
      var p := ParseInt(Cnae(d).value[..2]);
      && (TipoEmpresaDe(d) == Industria <==> p.Some? && 5 <= p.value <= 33)
      && (TipoEmpresaDe(d) == Comercio <==> p.Some? && 45 <= p.value <= 47)
  {
  }

  /** Items that all carry the same non-empty CFOP give that CFOP once. */
  lemma {:induction false} CfopUnico(itens: seq<Obj>, c: string)
    requires c != "" && |itens| > 0
    requires forall i | 0 <= i < |itens| :: CfopDe(itens[i]) == c
    ensures CfopsDistintos(itens) == [c]
    decreases |itens|
  {
    var q := itens[..|itens| - 1];
    if |q| > 0 {
      CfopUnico(q, c);
    }
  }

  /** With neither IPI records nor a CNAE, an industrial CFOP and no other CFOP makes an industry. */
  lemma {:induction false} CfopIndustrial(d: DadosSped, c: string)
    requires |Impostos(d, "ipi")| == 0 && Cnae(d).None?
    requires c in CfopsIndustria
    requires forall i | 0 <= i < |d.extracao.itens| :: CfopDe(d.extracao.itens[i]) == c
    requires |d.extracao.itens| > 0
    ensures TipoEmpresaDe(d) == Industria
  {
    CfopUnico(d.extracao.itens, c);
    var cs: seq<string> := [c];
    assert cs[..0] == [];
    assert ContagemCfops(cs) == Contagem(2, 0, 0);
  }

  /** `determinarTipoEmpresa`: the IPI and CNAE checks, then the CFOP and description tallies. */
  method DeterminarTipoEmpresa(d: DadosSped) returns (t: TipoEmpresa)
    ensures t == TipoEmpresaDe(d)
  {
    if |Impostos(d, "ipi")| > 0 {
      return Industria;
    }
    var cnae := Cnae(d);
    if cnae.Some? && |cnae.value| >= 2 {
      return TipoPorCnae(ParseInt(cnae.value[..2]));
    }
    var itens := d.extracao.itens;
    var cfops := ColetarCfops(itens);
    var contagem := ContarCfops(cfops);
    var producao := ContarProducaoPropria(itens);
    contagem := contagem.(industria := contagem.industria + producao);
    t := TipoPorContagem(contagem);
  }

  method ColetarCfops(itens: seq<Obj>) returns (cfops: seq<string>)
    ensures cfops == CfopsDistintos(itens)
  {
    cfops := [];
    var i := 0;
    while i < |itens|
      invariant 0 <= i <= |itens|
      invariant cfops == CfopsDistintos(itens[..i])
    {
      assert itens[..i + 1][..i] == itens[..i];
      var c := CfopDe(itens[i]);
      if c != "" && c !in cfops {
        cfops := cfops + [c];
      }
      i := i + 1;
    }
    assert itens[..|itens|] == itens;
  }

  method ContarCfops(cfops: seq<string>) returns (c: Contagem)
    ensures c == ContagemCfops(cfops)
  {
    c := Contagem(0, 0, 0);
    var i := 0;
    while i < |cfops|
      invariant 0 <= i <= |cfops|
      invariant c == ContagemCfops(cfops[..i])
    {
      assert cfops[..i + 1][..i] == cfops[..i];
      var x := cfops[i];
      if x in CfopsIndustria {
        c := c.(industria := c.industria + 2);
      } else if x in CfopsServicos {
        c := c.(servicos := c.servicos + 1);
      } else if StartsWith(x, "5") || StartsWith(x, "6") {
        c := c.(comercio := c.comercio + 1);
      }
      i := i + 1;
    }
    assert cfops[..|cfops|] == cfops;
  }

  method ContarProducaoPropria(itens: seq<Obj>) returns (n: int)
    ensures n == ProducaoPropria(itens)
  {
    n := 0;
    var i := 0;
    while i < |itens|
      invariant 0 <= i <= |itens|
      invariant n == 2 * Conta(itens[..i], FabricadoItem)
    {
      assert itens[..i + 1][..i] == itens[..i];
      if FabricadoItem(itens[i]) {
        n := n + 2;
      }
      i := i + 1;
    }
    assert itens[..|itens|] == itens;
  }

  // ---------------------------------------------------------------- tax regime

  datatype Regime = Real | Presumido | Simples

  /** The ICMS CSTs typical of the Simples Nacional. */
  const CstsSimples: set<JsVal> := {Str("101"), Str("102"), Str("103"), Str("300"), Str("400")}

  /** Some analytic item carries a Simples CST. */
  predicate TemCstSimples(itens: seq<Obj>)
  {
    exists i :: 0 <= i < |itens| && Prop(itens[i], "cstIcms") in CstsSimples
  }

  /** `ecf.parametros.formaApuracao` when the ECF part has a truthy one. */
  function FormaApuracao(d: DadosSped): Option<JsVal>
  {
    if d.ecf.Some? && Presente(d.ecf.value.parametros, "formaApuracao")
    then Some(Prop(d.ecf.value.parametros, "formaApuracao")) else None
  }

  /** The regime by the ECF form of assessment, when it names one. */
  function RegimePorApuracao(forma: JsVal): Option<Regime>
  {
    if forma == Str("1") || forma == Str("2") then Some(Real)
    else if forma == Str("3") || forma == Str("4") then Some(Presumido)
    else if forma == Str("5") || forma == Str("6") || forma == Str("7") then Some(Simples)
    else None
  }

  /**
   * `determinarRegimeTributario`: the ECF form of assessment, the PIS/COFINS incidence code, the
   * company's own regime code, Simples taxes, the PIS credit rate, the analytic CSTs, else Presumido.
   */
  function RegimeDe(d: DadosSped): Regime
  {
    var forma := FormaApuracao(d);
    if forma.Some? && RegimePorApuracao(forma.value).Some? then RegimePorApuracao(forma.value).value
    else
      var regimes := IndiceDe(d.extracao, Regimes);
      var incidencia := if "pis_cofins" in regimes then Prop(regimes["pis_cofins"], "codigoIncidencia") else Undefined;
      var regimeEmpresa := Prop(d.extracao.empresa, "regimeTributacao");
      var pis := Creditos(d, "pis");
      if incidencia == Str("1") then Real
      else if incidencia == Str("2") then Presumido
      else if regimeEmpresa == Str("1") then Simples
      else if regimeEmpresa == Str("2") then Presumido
      else if regimeEmpresa == Str("3") then Real
      else if |Impostos(d, "simples")| > 0 then Simples
      else if |pis| > 0 && |Creditos(d, "cofins")| > 0 then (if Quantia(pis[0], "aliquotaPis") > 1.0 then Real else Presumido)
      else if TemCstSimples(ListaDe(d.extracao, ItensAnaliticos)) then Simples
      else Presumido
  }

  /** The ECF form of assessment decides first: 1/2 real, 3/4 presumed, 5/6/7 Simples. */
  lemma {:induction false} RegimePorEcf(d: DadosSped)
    requires FormaApuracao(d).Some?
    ensures FormaApuracao(d).value in {Str("1"), Str("2")} ==> RegimeDe(d) == Real
    ensures FormaApuracao(d).value in {Str("3"), Str("4")} ==> RegimeDe(d) == Presumido
    ensures FormaApuracao(d).value in {Str("5"), Str("6"), Str("7")} ==> RegimeDe(d) == Simples
  {
  }

  /** With no evidence of any kind, the regime is Presumido. */
  lemma {:induction false} RegimePadrao(d: DadosSped)
    requires d.ecf.None? && IndiceDe(d.extracao, Regimes) == map[] && "regimeTributacao" !in d.extracao.empresa
    requires |Impostos(d, "simples")| == 0 && |Creditos(d, "pis")| == 0 && ListaDe(d.extracao, ItensAnaliticos) == []
    ensures RegimeDe(d) == Presumido
  {
  }

  // ---------------------------------------------------------------- VAT sector

  /** The CNAE divisions with a sector of their own. */
  const SetoresPorCnae: map<string, string> := map[
    "45" := "comercio_veiculos", "46" := "comercio_atacado", "47" := "comercio_varejo",
    "10" := "industria_alimentos", "11" := "industria_bebidas", "13" := "industria_textil",
    "49" := "transporte_terrestre", "50" := "transporte_aquaviario", "51" := "transporte_aereo"]

  function SetorPadrao(t: TipoEmpresa): string
  {
    match t
    case Comercio => "comercio_varejo"
    case Industria => "industria_geral"
    case Servicos => "servicos_gerais"
  }

  /** `determinarSetorIVA`: the sector of the CNAE division when it has one, else the default of the kind of company. */
  function SetorIVA(d: DadosSped): (setor: string)
    ensures Cnae(d).Some? && |Cnae(d).value| >= 2 && Cnae(d).value[..2] in SetoresPorCnae ==>
      setor == SetoresPorCnae[Cnae(d).value[..2]]
    ensures !(Cnae(d).Some? && |Cnae(d).value| >= 2 && Cnae(d).value[..2] in SetoresPorCnae) ==>
      setor == SetorPadrao(TipoEmpresaDe(d))
    ensures setor in SetoresPorCnae.Values || setor in {"comercio_varejo", "industria_geral", "servicos_gerais"}
  {
    var cnae := Cnae(d);
    if cnae.Some? && |cnae.value| >= 2 && cnae.value[..2] in SetoresPorCnae then SetoresPorCnae[cnae.value[..2]]
    else SetorPadrao(TipoEmpresaDe(d))
  }

  // ---------------------------------------------------------------- kind of operation

  datatype TipoOperacao = B2b | B2c | Mista

  /** An outgoing document (`indOper === '1'`). */
  predicate Saida(doc: Documento)
  {
    Prop(doc.dados, "indOper") == Str("1")
  }

  function Saidas(docs: seq<Documento>): (r: seq<Documento>)
    ensures |r| <= |docs|
    ensures forall x | x in r :: x in docs && Saida(x)
    decreases |docs|
  {
    if |docs| == 0 then []
    else Saidas(docs[..|docs| - 1]) + (if Saida(docs[|docs| - 1]) then [docs[|docs| - 1]] else [])
  }

  /** How an outgoing document is classified: by its counterpart's CNPJ/CPF, else by its model (55 or 65). */
  function Classe(doc: Documento): Option<TipoOperacao>
  {
    if doc.participante.Some? && Presente(doc.participante.value, "cnpjCpf") then
      var id := Prop(doc.participante.value, "cnpjCpf");
      if id.Str? && |id.s| == 14 then Some(B2b) else Some(B2c)
    else if Presente(doc.dados, "modelo") then
      if Prop(doc.dados, "modelo") == Str("65") then Some(B2c)
      else if Prop(doc.dados, "modelo") == Str("55") then Some(B2b)
      else None
    else None
  }

  function ContaClasse(docs: seq<Documento>, t: TipoOperacao): nat
    decreases |docs|
  {
    if |docs| == 0 then 0 else ContaClasse(docs[..|docs| - 1], t) + (if Classe(docs[|docs| - 1]) == Some(t) then 1 else 0)
  }

  /** `determinarTipoOperacao`: B2B unless there are five documents, some outgoing and some classified; then by the B2B share. */
  method DeterminarTipoOperacao(docs: seq<Documento>) returns (t: TipoOperacao)
    ensures |docs| < 5 ==> t == B2b
    ensures |Saidas(docs)| == 0 ==> t == B2b
    ensures var b2b, b2c := ContaClasse(Saidas(docs), B2b), ContaClasse(Saidas(docs), B2c);
      && (b2b + b2c == 0 ==> t == B2b)
      && (|docs| >= 5 && b2b + b2c > 0 ==>
            var percentual := b2b as real / (b2b + b2c) as real * 100.0;
            && (t == B2b <==> percentual > 80.0)
            && (t == B2c <==> percentual < 20.0)
            && (t == Mista <==> 20.0 <= percentual <= 80.0))
  {
    if |docs| < 5 {
      return B2b;
    }
    var saidas := FiltrarSaidas(docs);
    if |saidas| == 0 {
      return B2b;
    }
    var b2b, b2c := ContarClasses(saidas);
    if b2b + b2c == 0 {
      return B2b;
    }
    var percentual := b2b as real / (b2b + b2c) as real * 100.0;
    if percentual > 80.0 {
      t := B2b;
    } else if percentual < 20.0 {
      t := B2c;
    } else {
      t := Mista;
    }
  }

  /** The B2B and B2C tallies of the outgoing documents. */
  method ContarClasses(saidas: seq<Documento>) returns (b2b: nat, b2c: nat)
    ensures b2b == ContaClasse(saidas, B2b) && b2c == ContaClasse(saidas, B2c)
  {
    b2b, b2c := 0, 0;
    var i := 0;
    while i < |saidas|
      invariant 0 <= i <= |saidas|
      invariant b2b == ContaClasse(saidas[..i], B2b) && b2c == ContaClasse(saidas[..i], B2c)
    {
      assert saidas[..i + 1][..i] == saidas[..i];
      var doc := saidas[i];
      if doc.participante.Some? && Presente(doc.participante.value, "cnpjCpf") {
        var id := Prop(doc.participante.value, "cnpjCpf");
        if id.Str? && |id.s| == 14 {
          b2b := b2b + 1;
        } else {
          b2c := b2c + 1;
        }
      } else if Presente(doc.dados, "modelo") {
        if Prop(doc.dados, "modelo") == Str("65") {
          b2c := b2c + 1;
        } else if Prop(doc.dados, "modelo") == Str("55") {
          b2b := b2b + 1;
        }
      }
      i := i + 1;
    }
    assert saidas[..|saidas|] == saidas;
  }

  method FiltrarSaidas(docs: seq<Documento>) returns (saidas: seq<Documento>)
    ensures saidas == Saidas(docs)
  {
    saidas := [];
    var i := 0;
    while i < |docs|
      invariant 0 <= i <= |docs|
      invariant saidas == Saidas(docs[..i])
    {
      assert docs[..i + 1][..i] == docs[..i];
      if Saida(docs[i]) {
        saidas := saidas + [docs[i]];
      }
      i := i + 1;
    }
    assert docs[..|docs|] == docs;
  }

  // ---------------------------------------------------------------- financial cycle

  /** The `ciclo` object: days to receive, to pay and in stock, and the cash and credit shares of sales. */
  datatype Ciclo = Ciclo(pmr: real, pmp: real, pme: real, percVista: real, percPrazo: real)

  /** A term in days from a balance and the monthly base it turns over: rounded, then limited to 1–180. */
  function Prazo(saldo: real, baseMensal: real): (r: real)
    requires baseMensal != 0.0
    ensures 1.0 <= r <= 180.0
  {
    LimitarValor(Round(saldo / baseMensal * 30.0) as real, 1.0, 180.0)
  }

  /** The term read from a balance field, when the balance and the gross revenue are present and the revenue positive. */
  function PrazoDe(d: DadosSped, saldo: string, fracaoReceita: real, padrao: real): real
    requires fracaoReceita > 0.0
  {
    var receita := Quantia(d.campos, "receitaBruta");
    if Quantia(d.campos, saldo) != 0.0 && receita > 0.0 then Prazo(Quantia(d.campos, saldo), receita * fracaoReceita / 12.0)
    else padrao
  }

  /** A sale paid in cash counts once as an NFC-e (model 65) and once more with a cash payment condition. */
  function VistaDe(doc: Documento): real
  {
    var valor := Quantia(doc.dados, "valorTotal");
    (if Prop(doc.dados, "modelo") == Str("65") then valor else 0.0)
      + (if Presente(doc.dados, "chaveNFe") && Prop(doc.dados, "condicaoPagamento") == Str("0") then valor else 0.0)
  }

  function SomaDocs(docs: seq<Documento>, valor: Documento -> real): real
    decreases |docs|
  {
    if |docs| == 0 then 0.0 else SomaDocs(docs[..|docs| - 1], valor) + valor(docs[|docs| - 1])
  }

  function TotalDe(doc: Documento): real
  {
    Quantia(doc.dados, "valorTotal")
  }

  /** `extrairCicloFinanceiro`: terms from the balances, the cash share from the outgoing documents, 30/30/30 and 30 % by default. */
  method ExtrairCicloFinanceiro(d: DadosSped) returns (ciclo: Ciclo)
    ensures 1.0 <= ciclo.pmr <= 180.0 && 1.0 <= ciclo.pmp <= 180.0 && 1.0 <= ciclo.pme <= 180.0
    ensures 0.05 <= ciclo.percVista <= 0.95 && ciclo.percPrazo == 1.0 - ciclo.percVista
    ensures ciclo.pmr == PrazoDe(d, "saldoClientes", 1.0, 30.0)
    ensures ciclo.pmp == PrazoDe(d, "saldoFornecedores", 0.6, 30.0)
    ensures ciclo.pme == PrazoDe(d, "saldoEstoques", 0.7, 30.0)
    ensures var saidas := Saidas(d.extracao.documentos);
      var total := SomaDocs(saidas, TotalDe);
      && (total > 0.0 ==> ciclo.percVista == LimitarValor(SomaDocs(saidas, VistaDe) / total, 0.05, 0.95))
      && (total <= 0.0 ==> ciclo.percVista == 0.3)
  {
    ciclo := Ciclo(30.0, 30.0, 30.0, 0.3, 0.7);
    ciclo := ciclo.(pmr := PrazoDe(d, "saldoClientes", 1.0, 30.0));
    ciclo := ciclo.(pmp := PrazoDe(d, "saldoFornecedores", 0.6, 30.0));
    ciclo := ciclo.(pme := PrazoDe(d, "saldoEstoques", 0.7, 30.0));
    var docs := d.extracao.documentos;
    if |docs| > 0 {
      var saidas := FiltrarSaidas(docs);
      if |saidas| > 0 {
        var valorTotalVendas, valorVendasVista := SomarVendas(saidas);
        if valorTotalVendas > 0.0 {
          var percVista := LimitarValor(valorVendasVista / valorTotalVendas, 0.05, 0.95);
          ciclo := ciclo.(percVista := percVista, percPrazo := 1.0 - percVista);
        }
      }
    }
  }

  /** The sales loop of `extrairCicloFinanceiro`: the total of the outgoing documents and the part paid in cash. */
  method SomarVendas(saidas: seq<Documento>) returns (valorTotalVendas: real, valorVendasVista: real)
    ensures valorTotalVendas == SomaDocs(saidas, TotalDe) && valorVendasVista == SomaDocs(saidas, VistaDe)
  {
    valorTotalVendas, valorVendasVista := 0.0, 0.0;
    var i := 0;
    while i < |saidas|
      invariant 0 <= i <= |saidas|
      invariant valorTotalVendas == SomaDocs(saidas[..i], TotalDe)
      invariant valorVendasVista == SomaDocs(saidas[..i], VistaDe)
    {
      assert saidas[..i + 1][..i] == saidas[..i];
      var doc := saidas[i];
      var valorDoc := Quantia(doc.dados, "valorTotal");
      valorTotalVendas := valorTotalVendas + valorDoc;
      var vista := 0.0;
      if Prop(doc.dados, "modelo") == Str("65") {
        vista := vista + valorDoc;
      }
      if Presente(doc.dados, "chaveNFe") && Prop(doc.dados, "condicaoPagamento") == Str("0") {
        vista := vista + valorDoc;
      }
      valorVendasVista := valorVendasVista + vista;
      i := i + 1;
    }
    assert saidas[..|saidas|] == saidas;
  }

  // ---------------------------------------------------------------- sources in priority order

  /** `valor === 0 ? alternativa : valor`: a later source is consulted only while the earlier ones gave 0. */
  function Senao(valor: real, alternativa: real): (r: real)
    ensures valor != 0.0 ==> r == valor
    ensures valor == 0.0 ==> r == alternativa
  {
    if valor != 0.0 then valor else alternativa
  }

  /** A value that is positive when the record gives a positive number, 0 otherwise (`v && v > 0`). */
  function Positivo(r: Obj, k: string): real
  {
    if Quantia(r, k) > 0.0 then Quantia(r, k) else 0.0
  }

  /** A nature or entry CFOP test: the text starts with 1 or 2 (purchases and other entries). */
  predicate Entrada(cfop: string)
  {
    StartsWith(cfop, "1") || StartsWith(cfop, "2")
  }

  /** Adjustment codes starting with 4 or 5, fines and interest as a rule, are not taxes. */
  predicate MultaOuJuros(codigo: string)
  {
    StartsWith(codigo, "4") || StartsWith(codigo, "5")
  }

  // ---------------------------------------------------------------- PIS and COFINS

  /** The two contributions on revenue share their rules; they differ in category, SPED records and rates. */
  datatype Social = Pis | Cofins

  function Categoria(t: Social): string
  {
    match t
    case Pis => "pis"
    case Cofins => "cofins"
  }

  /** The credit records that detail the contribution: M100/M105 for PIS, M500/M505 for COFINS. */
  function RegistrosCredito(t: Social): (string, string)
  {
    match t
    case Pis => ("M100", "M105")
    case Cofins => ("M500", "M505")
  }

  /** The non-cumulative rate of the real-profit regime and the cumulative rate of the presumed one. */
  function AliquotaSocial(t: Social, regime: Regime): real
  {
    match (t, regime)
    case (Pis, Real) => 0.0165
    case (Pis, _) => 0.0065
    case (Cofins, Real) => 0.076
    case (Cofins, _) => 0.03
  }

  /** `base * (aliquota / 100)` when both fields of the record are truthy. */
  function CalculadoDe(r: Obj): real
  {
    if Presente(r, "baseCalculoCredito") && Presente(r, "aliquotaCredito")
    then Quantia(r, "baseCalculoCredito") * (Quantia(r, "aliquotaCredito") / 100.0) else 0.0
  }

  function DiretoDe(r: Obj): real
  {
    Positivo(r, "valorCredito")
  }

  /** A detail record counts when it is of the contribution's category or carries a credit code. */
  function DetalhadoDe(t: Social, r: Obj): real
  {
    if Prop(r, "categoria") == Str(Categoria(t)) || Presente(r, "codigoCredito") then DiretoDe(r) + CalculadoDe(r) else 0.0
  }

  /** The credits the SPED records give: direct, computed from base and rate, and from the detail records. */
  function CreditosSociaisApurados(d: DadosSped, t: Social): real
  {
    var cs := Creditos(d, Categoria(t));
    Soma(cs, DiretoDe) + Soma(cs, CalculadoDe)
      + Soma(Creditos(d, RegistrosCredito(t).0), r => DetalhadoDe(t, r))
      + Soma(Creditos(d, RegistrosCredito(t).1), r => DetalhadoDe(t, r))
  }

  /** The estimate without records: 60 % of revenue as purchases, 80 % of them giving credit; none in the Simples. */
  function CreditoSocialEstimado(t: Social, regime: Regime, fm: real): real
  {
    if regime == Simples then 0.0 else fm * 12.0 * 0.6 * AliquotaSocial(t, regime) * 0.8 / 12.0
  }

  /** `calcularCreditosPIS` / `calcularCreditosCOFINS`, with the monthly revenue `fm`. */
  function CreditosSociais(d: DadosSped, t: Social, fm: real): real
  {
    Senao(CreditosSociaisApurados(d, t), CreditoSocialEstimado(t, RegimeDe(d), fm))
  }

  /** An M205/M605 adjustment: a consolidation adjustment with a code that is not a fine, added or subtracted by its nature. */
  function AjusteSocial(r: Obj): (v: real)
    ensures v != 0.0 ==>
      Prop(r, "tipo") == Str("ajuste_consolidacao") && Presente(r, "codigoAjuste") && !MultaOuJuros(Texto(Prop(r, "codigoAjuste")))
    ensures Prop(r, "tipo") == Str("ajuste_consolidacao") && Presente(r, "codigoAjuste") && !MultaOuJuros(Texto(Prop(r, "codigoAjuste"))) ==>
      && (Prop(r, "indicadorNatureza") == Str("1") ==> v == Quantia(r, "valorAjuste"))
      && (Prop(r, "indicadorNatureza") == Str("0") ==> v == -Quantia(r, "valorAjuste"))
      && (Prop(r, "indicadorNatureza") !in {Str("0"), Str("1")} ==> v == 0.0)
  {
    if Prop(r, "tipo") == Str("ajuste_consolidacao") && Presente(r, "codigoAjuste") && !MultaOuJuros(Texto(Prop(r, "codigoAjuste"))) then
      if Prop(r, "indicadorNatureza") == Str("1") then Quantia(r, "valorAjuste")
      else if Prop(r, "indicadorNatureza") == Str("0") then -Quantia(r, "valorAjuste")
      else 0.0
    else 0.0
  }

  function DetalheSocial(r: Obj): real
  {
    if Prop(r, "tipo") == Str("detalhamento_consolidacao") then Quantia(r, "valorContribuicao") else 0.0
  }

  function PagoDe(r: Obj): real
  {
    Quantia(r, "valorContribuicaoAPagar") + Quantia(r, "valorContribuicaoPaga")
  }

  /** The last totalisation (1100/1500) whose due plus paid amount exceeds `limite`; 0 when none does. */
  function UltimaTotalizacao(rs: seq<Obj>, limite: real): real
    decreases |rs|
  {
    if |rs| == 0 then 0.0
    else if PagoDe(rs[|rs| - 1]) > limite then PagoDe(rs[|rs| - 1])
    else UltimaTotalizacao(rs[..|rs| - 1], limite)
  }

  /** No totalisation above the limit keeps 0. */
  lemma {:induction false} UltimaTotalizacaoNenhuma(rs: seq<Obj>, limite: real)
    requires forall i | 0 <= i < |rs| :: PagoDe(rs[i]) <= limite
    ensures UltimaTotalizacao(rs, limite) == 0.0
    decreases |rs|
  {
    if |rs| > 0 {
      var q := rs[..|rs| - 1];
      assert forall i | 0 <= i < |q| :: q[i] == rs[i];
      UltimaTotalizacaoNenhuma(q, limite);
    }
  }

  /** The totalisation kept is the last record above the limit, not the largest. */
  lemma {:induction false} UltimaTotalizacaoUltima(rs: seq<Obj>, limite: real, i: nat)
    requires i < |rs| && PagoDe(rs[i]) > limite
    requires forall j | i < j < |rs| :: PagoDe(rs[j]) <= limite
    ensures UltimaTotalizacao(rs, limite) == PagoDe(rs[i])
    decreases |rs|
  {
    if i < |rs| - 1 {
      var q := rs[..|rs| - 1];
      assert PagoDe(rs[|rs| - 1]) <= limite;
      assert forall j | 0 <= j < |q| :: q[j] == rs[j];
      UltimaTotalizacaoUltima(q, limite, i);
    }
  }

  function DetalhamentoDe(d: DadosSped, t: Social): seq<Obj>
  {
    if Categoria(t) in d.detalhamento then d.detalhamento[Categoria(t)] else []
  }

  function TotalizacaoDe(d: DadosSped, t: Social): seq<Obj>
  {
    if Categoria(t) in d.totalizacao then d.totalizacao[Categoria(t)] else []
  }

  /** The three parts the records give: consolidation (M200/M600), adjustments (M205/M605), detail (M210/M610). */
  datatype Partes = Partes(consolidacao: real, ajustes: real, detalhe: real)

  function PartesSociais(d: DadosSped, t: Social): Partes
  {
    Partes(Soma(Debitos(d, Categoria(t)), r => Positivo(r, "valorTotalContribuicao")),
      Soma(Ajustes(d, Categoria(t)), AjusteSocial), Soma(DetalhamentoDe(d, t), DetalheSocial))
  }

  /** The debit the records give: the larger of the three parts' sum and the last totalisation above consolidation plus adjustments. */
  function DebitosSociaisApurados(d: DadosSped, t: Social): real
  {
    var p := PartesSociais(d, t);
    Max(p.consolidacao + p.ajustes + p.detalhe, UltimaTotalizacao(TotalizacaoDe(d, t), p.consolidacao + p.ajustes))
  }

  /** The estimate without records: the regime's rate on revenue; nothing in the Simples, whose single rate includes it. */
  function DebitoSocialEstimado(t: Social, regime: Regime, fm: real): real
  {
    if regime == Simples then 0.0 else fm * 12.0 * AliquotaSocial(t, regime) / 12.0
  }

  /** `calcularDebitosPIS` / `calcularDebitosCOFINS`, with the monthly revenue `fm`. */
  function DebitosSociais(d: DadosSped, t: Social, fm: real): real
  {
    Senao(DebitosSociaisApurados(d, t), DebitoSocialEstimado(t, RegimeDe(d), fm))
  }

  /** The debit from the records is never below the parts' sum nor below the totalisation kept, and is one of them. */
  lemma {:induction false} DebitosSociaisMaximo(d: DadosSped, t: Social)
    ensures var p := PartesSociais(d, t);
      var total := UltimaTotalizacao(TotalizacaoDe(d, t), p.consolidacao + p.ajustes);
      && DebitosSociaisApurados(d, t) >= p.consolidacao + p.ajustes + p.detalhe
      && DebitosSociaisApurados(d, t) >= total
      && (DebitosSociaisApurados(d, t) == p.consolidacao + p.ajustes + p.detalhe || DebitosSociaisApurados(d, t) == total)
  {
  }

  /** The records decide whenever they give a non-zero debit; otherwise the estimate, which is 0 in the Simples. */
  lemma {:induction false} DebitosSociaisFonte(d: DadosSped, t: Social, fm: real)
    ensures DebitosSociaisApurados(d, t) != 0.0 ==> DebitosSociais(d, t, fm) == DebitosSociaisApurados(d, t)
    ensures DebitosSociaisApurados(d, t) == 0.0 && RegimeDe(d) == Simples ==> DebitosSociais(d, t, fm) == 0.0
    ensures DebitosSociaisApurados(d, t) == 0.0 && RegimeDe(d) != Simples ==>
      DebitosSociais(d, t, fm) == fm * AliquotaSocial(t, RegimeDe(d))
  {
  }

  /** Without any records, the estimated credit is 48 % of the estimated debit, so the estimated net is never negative. */
  lemma {:induction false} EstimativasSociais(d: DadosSped, t: Social, fm: real)
    requires CreditosSociaisApurados(d, t) == 0.0 && DebitosSociaisApurados(d, t) == 0.0
    ensures CreditosSociais(d, t, fm) == 0.48 * DebitosSociais(d, t, fm)
    ensures fm >= 0.0 ==> DebitosSociais(d, t, fm) - CreditosSociais(d, t, fm) >= 0.0
  {
    var a := AliquotaSocial(t, RegimeDe(d));
    assert a > 0.0;
    if RegimeDe(d) != Simples {
      assert CreditoSocialEstimado(t, RegimeDe(d), fm) == 0.48 * (fm * a);
      assert fm >= 0.0 ==> fm * a >= 0.0;
    }
  }

  // ---------------------------------------------------------------- ICMS, IPI and ISS

  /** A C190 entry line, an ICMS item with an entry CFOP and a positive ICMS value. */
  function CreditoItemIcms(item: Obj): real
  {
    if Prop(item, "categoria") == Str("icms") && Entrada(CfopDe(item)) && Quantia(item, "valorIcms") > 0.0
    then Quantia(item, "valorIcms") else 0.0
  }

  function CreditoRegistroIcms(r: Obj): real
  {
    NumValue(Or(Prop(r, "valorCredito"), Prop(r, "valorIcms")))
  }

  /** The ICMS credit estimate: 70 % of revenue as purchases at 18 %, 85 % of it usable; none for services. */
  function CreditoIcmsEstimado(tipo: TipoEmpresa, fm: real): real
  {
    if tipo == Servicos then 0.0 else fm * 12.0 * 0.7 * 0.18 * 0.85 / 12.0
  }

  /** `calcularCreditosICMS`: E110 credits (among the debits, then among the taxes), C190 entries, credit records, the estimate. */
  function CreditosIcms(d: DadosSped, fm: real): real
  {
    Senao(Soma(Debitos(d, "icms"), r => Quantia(r, "valorTotalCreditos")),
      Senao(Soma(Impostos(d, "icms"), r => Quantia(r, "valorTotalCreditos")),
        Senao(Soma(ListaDe(d.extracao, ItensAnaliticos), CreditoItemIcms),
          Senao(Soma(Creditos(d, "icms"), CreditoRegistroIcms), CreditoIcmsEstimado(TipoEmpresaDe(d), fm)))))
  }

  /** An item with positive IPI and an entry CFOP. */
  function CreditoItemIpi(item: Obj): real
  {
    if Quantia(item, "valorIpi") > 0.0 && Entrada(CfopDe(item)) then Quantia(item, "valorIpi") else 0.0
  }

  /** `calcularCreditosIPI`: only for industry; E200 credits, entry items, else 40 % of revenue at 10 %, 90 % usable; per month. */
  function CreditosIpi(d: DadosSped, fm: real): real
  {
    if TipoEmpresaDe(d) != Industria then 0.0
    else
      Senao(Soma(Impostos(d, "ipi"), r => Quantia(r, "valorCredito")),
        Senao(Soma(d.extracao.itens, CreditoItemIpi), fm * 12.0 * 0.4 * 0.10 * 0.90)) / 12.0
  }

  /** An E111 adjustment that is not a fine goes to the incentives when its code names one, else to the other adjustments. */
  function AjusteIcms(r: Obj, incentivo: bool): real
  {
    var codigo := Texto(Prop(r, "codigoAjuste"));
    if !MultaOuJuros(codigo) && (Includes(codigo, "IC") || Includes(codigo, "incentiv")) == incentivo
    then Quantia(r, "valorAjuste") else 0.0
  }

  function IcmsApurado(d: DadosSped): real
  {
    Senao(Soma(Debitos(d, "icms"), r => Quantia(r, "valorTotalDebitos")),
      Soma(Impostos(d, "icms"), r => Quantia(r, "valorTotalDebitos")))
  }

  /** The ICMS debit estimate: 60 % of revenue at 18 %; none for services. */
  function DebitoIcmsEstimado(tipo: TipoEmpresa, fm: real): real
  {
    if tipo == Servicos then 0.0 else fm * 12.0 * 0.6 * 0.18 / 12.0
  }

  /** `calcularDebitosICMS`: the E110 debits plus the E111 adjustments and incentives, never negative, else the estimate. */
  function DebitosIcms(d: DadosSped, fm: real): real
  {
    var ajustes := Ajustes(d, "icms");
    Senao(Max(0.0, IcmsApurado(d) + Soma(ajustes, r => AjusteIcms(r, false)) + Soma(ajustes, r => AjusteIcms(r, true))),
      DebitoIcmsEstimado(TipoEmpresaDe(d), fm))
  }

  /** `calcularDebitosIPI`: only for industry; E200 debits plus E210 adjustments, never negative, else 40 % of revenue at 10 %. */
  function DebitosIpi(d: DadosSped, fm: real): real
  {
    if TipoEmpresaDe(d) != Industria then 0.0
    else
      Senao(Max(0.0, Soma(Impostos(d, "ipi"), r => Quantia(r, "valorTotalDebitos")) + Soma(Ajustes(d, "ipi"), r => Quantia(r, "valorAjuste"))),
        fm * 12.0 * 0.4 * 0.10 / 12.0)
  }

  /** `calcularDebitosISS`: only for services, estimated at 5 % of revenue. */
  function DebitosIss(d: DadosSped, fm: real): real
  {
    if TipoEmpresaDe(d) != Servicos then 0.0 else fm * 12.0 * 0.05 / 12.0
  }

  /** IPI exists only for industry and ISS only for services. */
  lemma {:induction false} TributosPorTipo(d: DadosSped, fm: real)
    ensures TipoEmpresaDe(d) != Industria ==> CreditosIpi(d, fm) == 0.0 && DebitosIpi(d, fm) == 0.0
    ensures TipoEmpresaDe(d) != Servicos ==> DebitosIss(d, fm) == 0.0
    ensures TipoEmpresaDe(d) == Servicos ==> DebitosIss(d, fm) == 0.05 * fm && CreditosIpi(d, fm) == 0.0
  {
  }

  /** With a non-negative revenue the ICMS and IPI debits are never negative, whatever the adjustments. */
  lemma {:induction false} DebitosNaoNegativos(d: DadosSped, fm: real)
    requires fm >= 0.0
    ensures DebitosIcms(d, fm) >= 0.0 && DebitosIpi(d, fm) >= 0.0 && DebitosIss(d, fm) >= 0.0
  {
    var ajustes := Ajustes(d, "icms");
    var icms := Max(0.0, IcmsApurado(d) + Soma(ajustes, r => AjusteIcms(r, false)) + Soma(ajustes, r => AjusteIcms(r, true)));
    if TipoEmpresaDe(d) == Industria {
      var ipi := Max(0.0, Soma(Impostos(d, "ipi"), r => Quantia(r, "valorTotalDebitos")) + Soma(Ajustes(d, "ipi"), r => Quantia(r, "valorAjuste")));
    }
  }

  // ---------------------------------------------------------------- the calculations, record by record

  /** `calcularCreditosPIS` / `calcularCreditosCOFINS`: the three accumulators, then the regime's estimate when they give 0. */
  method CalcularCreditosSociais(d: DadosSped, t: Social, fm: real) returns (valor: real)
    ensures valor == CreditosSociais(d, t, fm)
  {
    var cs := Creditos(d, Categoria(t));
    var direto := Somar(cs, DiretoDe);
    var calculado := Somar(cs, CalculadoDe);
    var detalhados := Somar(Creditos(d, RegistrosCredito(t).0), r => DetalhadoDe(t, r));
    var mais := Somar(Creditos(d, RegistrosCredito(t).1), r => DetalhadoDe(t, r));
    valor := direto + calculado + (detalhados + mais);
    if valor == 0.0 {
      valor := CreditoSocialEstimado(t, RegimeDe(d), fm);
    }
  }

  /** The totalisation loop: each record above the limit replaces the value kept. */
  method UltimaAcima(rs: seq<Obj>, limite: real) returns (total: real)
    ensures total == UltimaTotalizacao(rs, limite)
  {
    total := 0.0;
    var i := 0;
    while i < |rs|
      invariant 0 <= i <= |rs|
      invariant total == UltimaTotalizacao(rs[..i], limite)
    {
      assert rs[..i + 1][..i] == rs[..i];
      if PagoDe(rs[i]) > limite {
        total := PagoDe(rs[i]);
      }
      i := i + 1;
    }
    assert rs[..|rs|] == rs;
  }

  /** `calcularDebitosPIS` / `calcularDebitosCOFINS`: consolidation, adjustments, detail and totalisation, then the estimate. */
  method CalcularDebitosSociais(d: DadosSped, t: Social, fm: real) returns (valor: real)
    ensures valor == DebitosSociais(d, t, fm)
  {
    var consolidacao := Somar(Debitos(d, Categoria(t)), r => Positivo(r, "valorTotalContribuicao"));
    var ajustes := Somar(Ajustes(d, Categoria(t)), AjusteSocial);
    var detalhe := Somar(DetalhamentoDe(d, t), DetalheSocial);
    var total := UltimaAcima(TotalizacaoDe(d, t), consolidacao + ajustes);
    valor := Max(consolidacao + ajustes + detalhe, total);
    if valor == 0.0 {
      valor := DebitoSocialEstimado(t, RegimeDe(d), fm);
    }
  }

  /** `calcularCreditosICMS`: each source consulted only while the value so far is 0. */
  method CalcularCreditosIcms(d: DadosSped, fm: real) returns (valor: real)
    ensures valor == CreditosIcms(d, fm)
  {
    valor := Somar(Debitos(d, "icms"), r => Quantia(r, "valorTotalCreditos"));
    if valor == 0.0 {
      valor := Somar(Impostos(d, "icms"), r => Quantia(r, "valorTotalCreditos"));
    }
    if valor == 0.0 {
      valor := Somar(ListaDe(d.extracao, ItensAnaliticos), CreditoItemIcms);
    }
    if valor == 0.0 {
      valor := Somar(Creditos(d, "icms"), CreditoRegistroIcms);
    }
    if valor == 0.0 {
      var tipo := DeterminarTipoEmpresa(d);
      valor := CreditoIcmsEstimado(tipo, fm);
    }
  }

  /** `calcularCreditosIPI`. */
  method CalcularCreditosIpi(d: DadosSped, fm: real) returns (valor: real)
    ensures valor == CreditosIpi(d, fm)
  {
    var tipo := DeterminarTipoEmpresa(d);
    if tipo != Industria {
      return 0.0;
    }
    valor := Somar(Impostos(d, "ipi"), r => Quantia(r, "valorCredito"));
    if valor == 0.0 {
      valor := Somar(d.extracao.itens, CreditoItemIpi);
    }
    if valor == 0.0 {
      valor := fm * 12.0 * 0.4 * 0.10 * 0.90;
    }
    valor := valor / 12.0;
  }

  /** `calcularDebitosICMS`. */
  method CalcularDebitosIcms(d: DadosSped, fm: real) returns (valor: real)
    ensures valor == DebitosIcms(d, fm)
  {
    var apuracao := Somar(Debitos(d, "icms"), r => Quantia(r, "valorTotalDebitos"));
    if apuracao == 0.0 {
      apuracao := Somar(Impostos(d, "icms"), r => Quantia(r, "valorTotalDebitos"));
    }
    var ajustes := Somar(Ajustes(d, "icms"), r => AjusteIcms(r, false));
    var incentivos := Somar(Ajustes(d, "icms"), r => AjusteIcms(r, true));
    valor := Max(0.0, apuracao + ajustes + incentivos);
    if valor == 0.0 {
      var tipo := DeterminarTipoEmpresa(d);
      valor := DebitoIcmsEstimado(tipo, fm);
    }
  }

  /** `calcularDebitosIPI`. */
  method CalcularDebitosIpi(d: DadosSped, fm: real) returns (valor: real)
    ensures valor == DebitosIpi(d, fm)
  {
    var tipo := DeterminarTipoEmpresa(d);
    if tipo != Industria {
      return 0.0;
    }
    var apuracao := Somar(Impostos(d, "ipi"), r => Quantia(r, "valorTotalDebitos"));
    var ajustes := Somar(Ajustes(d, "ipi"), r => Quantia(r, "valorAjuste"));
    valor := Max(0.0, apuracao + ajustes);
    if valor == 0.0 {
      valor := fm * 12.0 * 0.4 * 0.10 / 12.0;
    }
  }

  // ---------------------------------------------------------------- effective rates

  /** One amount per tax. */
  datatype PorTributo = PorTributo(pis: real, cofins: real, icms: real, ipi: real, iss: real)

  /** The effective rates in percent of the monthly revenue, per tax and in total. */
  datatype Aliquotas = Aliquotas(pis: real, cofins: real, icms: real, ipi: real, iss: real, total: real)

  function Liquido(debito: real, credito: real): (r: real)
    ensures r >= 0.0 && r >= debito - credito
    ensures r == 0.0 || r == debito - credito
  {
    Max(0.0, debito - credito)
  }

  function Liquidos(debitos: PorTributo, creditos: PorTributo): PorTributo
  {
    PorTributo(Liquido(debitos.pis, creditos.pis), Liquido(debitos.cofins, creditos.cofins),
      Liquido(debitos.icms, creditos.icms), Liquido(debitos.ipi, creditos.ipi), Liquido(debitos.iss, creditos.iss))
  }

  function Total(v: PorTributo): real
  {
    v.pis + v.cofins + v.icms + v.ipi + v.iss
  }

  /** The net-rate block of `extrairParametrosFiscais`: each net over the revenue, in percent; all 0 without revenue. */
  function AliquotasEfetivas(debitos: PorTributo, creditos: PorTributo, fm: real): Aliquotas
  {
    if fm > 0.0 then
      var l := Liquidos(debitos, creditos);
      Aliquotas(l.pis / fm * 100.0, l.cofins / fm * 100.0, l.icms / fm * 100.0,
        l.ipi / fm * 100.0, l.iss / fm * 100.0, Total(l) / fm * 100.0)
    else Aliquotas(0.0, 0.0, 0.0, 0.0, 0.0, 0.0)
  }

  /** Without revenue every rate is 0. */
  lemma {:induction false} AliquotasSemFaturamento(debitos: PorTributo, creditos: PorTributo, fm: real)
    requires fm <= 0.0
    ensures AliquotasEfetivas(debitos, creditos, fm) == Aliquotas(0.0, 0.0, 0.0, 0.0, 0.0, 0.0)
  {
  }

  /** Each rate gives back its tax's net, debit minus credit and never negative: `aliquota · faturamento / 100 = max(0, d − c)`. */
  lemma {:induction false} AliquotasReconstroem(debitos: PorTributo, creditos: PorTributo, fm: real)
    requires fm > 0.0
    ensures var a := AliquotasEfetivas(debitos, creditos, fm);
      && a.pis >= 0.0 && a.pis * fm / 100.0 == Liquido(debitos.pis, creditos.pis)
      && a.cofins >= 0.0 && a.cofins * fm / 100.0 == Liquido(debitos.cofins, creditos.cofins)
      && a.icms >= 0.0 && a.icms * fm / 100.0 == Liquido(debitos.icms, creditos.icms)
      && a.ipi >= 0.0 && a.ipi * fm / 100.0 == Liquido(debitos.ipi, creditos.ipi)
      && a.iss >= 0.0 && a.iss * fm / 100.0 == Liquido(debitos.iss, creditos.iss)
  {
    var a := AliquotasEfetivas(debitos, creditos, fm);
    Percentual(Liquido(debitos.pis, creditos.pis), fm, a.pis);
    Percentual(Liquido(debitos.cofins, creditos.cofins), fm, a.cofins);
    Percentual(Liquido(debitos.icms, creditos.icms), fm, a.icms);
    Percentual(Liquido(debitos.ipi, creditos.ipi), fm, a.ipi);
    Percentual(Liquido(debitos.iss, creditos.iss), fm, a.iss);
  }

  /** The total rate is the sum of the five rates. */
  lemma {:induction false} AliquotaTotalSoma(debitos: PorTributo, creditos: PorTributo, fm: real)
    requires fm > 0.0
    ensures var a := AliquotasEfetivas(debitos, creditos, fm);
      a.total == a.pis + a.cofins + a.icms + a.ipi + a.iss
  {
    var l := Liquidos(debitos, creditos);
    Distribui(l.pis, l.cofins + l.icms + l.ipi + l.iss, fm);
    Distribui(l.cofins, l.icms + l.ipi + l.iss, fm);
    Distribui(l.icms, l.ipi + l.iss, fm);
    Distribui(l.ipi, l.iss, fm);
  }

  lemma {:induction false} Distribui(x: real, y: real, fm: real)
    requires fm > 0.0
    ensures (x + y) / fm * 100.0 == x / fm * 100.0 + y / fm * 100.0
  {
    assert (x + y) / fm == x / fm + y / fm;
  }

  lemma {:induction false} Percentual(x: real, fm: real, p: real)
    requires fm > 0.0 && p == x / fm * 100.0
    ensures p * fm / 100.0 == x
    ensures x >= 0.0 ==> p >= 0.0
  {
    assert x / fm * fm == x;
  }

  /** The debits and credits per tax (ISS gives no credit) and the effective rates they give. */
  predicate ComposicaoDe(d: DadosSped, fm: real, debitos: PorTributo, creditos: PorTributo)
  {
    && debitos == PorTributo(DebitosSociais(d, Pis, fm), DebitosSociais(d, Cofins, fm), DebitosIcms(d, fm), DebitosIpi(d, fm), DebitosIss(d, fm))
    && creditos == PorTributo(CreditosSociais(d, Pis, fm), CreditosSociais(d, Cofins, fm), CreditosIcms(d, fm), CreditosIpi(d, fm), 0.0)
  }

  /** `extrairParametrosFiscais`, its tax composition: every calculation, then the net-rate block. */
  method ExtrairComposicao(d: DadosSped, fm: real) returns (debitos: PorTributo, creditos: PorTributo, aliquotas: Aliquotas)
    ensures ComposicaoDe(d, fm, debitos, creditos)
    ensures aliquotas == AliquotasEfetivas(debitos, creditos, fm)
  {
    var debitoPis := CalcularDebitosSociais(d, Pis, fm);
    var debitoCofins := CalcularDebitosSociais(d, Cofins, fm);
    var debitoIcms := CalcularDebitosIcms(d, fm);
    var debitoIpi := CalcularDebitosIpi(d, fm);
    var tipo := DeterminarTipoEmpresa(d);
    var debitoIss := if tipo != Servicos then 0.0 else fm * 12.0 * 0.05 / 12.0;
    debitos := PorTributo(debitoPis, debitoCofins, debitoIcms, debitoIpi, debitoIss);
    var creditoPis := CalcularCreditosSociais(d, Pis, fm);
    var creditoCofins := CalcularCreditosSociais(d, Cofins, fm);
    var creditoIcms := CalcularCreditosIcms(d, fm);
    var creditoIpi := CalcularCreditosIpi(d, fm);
    creditos := PorTributo(creditoPis, creditoCofins, creditoIcms, creditoIpi, 0.0);
    aliquotas := AliquotasEfetivas(debitos, creditos, fm);
  }
}
