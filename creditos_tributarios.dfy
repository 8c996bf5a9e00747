/**
 * The tax credits of the simulator's form: PIS/COFINS, ICMS and IPI credits computed from the
 * revenue and the parameters the user typed, their total, the PIS/COFINS debits and the
 * individual effective rates. Form fields hold amounts. The currency text a field shows, and the
 * way the total reads that text back, are modelled beside them: as written the reading takes the
 * thousands point for a decimal point, and the total the form keeps is the corrected one.
 */
module CreditosTributarios {
  import opened JsText
  import opened JsNumber

  /** The ICMS section's parameters, in percent; `incentivo` only when its box is checked. */
  datatype ParametrosIcms = ParametrosIcms(baseCalc: real, percCredito: real, aliquota: real, incentivo: Option<real>)

  /** The IPI section's parameters, in percent. */
  datatype ParametrosIpi = ParametrosIpi(baseCalc: real, percCredito: real, aliquota: real)

  /**
   * What the calculation reads from the form: the revenue, the PIS/COFINS regime and parameters (in
   * percent), and the ICMS and IPI sections, `None` when the section is absent or hidden.
   */
  datatype Parametros = Parametros(
    faturamento: real, regimePisCofins: string, baseCalc: real, percCredito: real,
    aliquotaPis: real, aliquotaCofins: real, icms: Option<ParametrosIcms>, ipi: Option<ParametrosIpi>)

  /** The base that gives credit: the revenue times the share in the base times the share that credits. */
  function BaseCredito(faturamento: real, baseCalc: real, percCredito: real): real
  {
    faturamento * (baseCalc / 100.0) * (percCredito / 100.0)
  }

  /** `calcularCreditosPisCofins`, its values: only the non-cumulative regime gives credits. */
  function CreditosPisCofins(p: Parametros): (r: (real, real))
  {
    if p.regimePisCofins != "nao-cumulativo" then (0.0, 0.0)
    else
      var base := BaseCredito(p.faturamento, p.baseCalc, p.percCredito);
      (base * (p.aliquotaPis / 100.0), base * (p.aliquotaCofins / 100.0))
  }

  /** `calcularCreditosICMS`, its value: none when the section is hidden, reduced by a positive incentive. */
  function CreditoIcms(faturamento: real, icms: Option<ParametrosIcms>): real
  {
    match icms
    case None => 0.0
    case Some(q) =>
      var bruto := BaseCredito(faturamento, q.baseCalc, q.percCredito) * (q.aliquota / 100.0);
      var incentivo := if q.incentivo.Some? then q.incentivo.value / 100.0 else 0.0;
      if incentivo > 0.0 then bruto * (1.0 - incentivo) else bruto
  }

  /** `calcularCreditosIPI`, its value: none when the section is hidden. */
  function CreditoIpi(faturamento: real, ipi: Option<ParametrosIpi>): real
  {
    match ipi
    case None => 0.0
    case Some(q) => BaseCredito(faturamento, q.baseCalc, q.percCredito) * (q.aliquota / 100.0)
  }

  /** Outside the non-cumulative regime there is no PIS/COFINS credit; inside it each is revenue · base · share · rate. */
  lemma {:induction false} PisCofinsForma(p: Parametros)
    ensures p.regimePisCofins != "nao-cumulativo" ==> CreditosPisCofins(p) == (0.0, 0.0)
    ensures p.regimePisCofins == "nao-cumulativo" ==>
      && CreditosPisCofins(p).0 == p.faturamento * (p.baseCalc / 100.0) * (p.percCredito / 100.0) * (p.aliquotaPis / 100.0)
      && CreditosPisCofins(p).1 == p.faturamento * (p.baseCalc / 100.0) * (p.percCredito / 100.0) * (p.aliquotaCofins / 100.0)
  {
  }

  /** An incentive of up to 100 % never raises the ICMS credit nor makes a non-negative one negative; none leaves it gross. */
  lemma {:induction false} IncentivoIcms(faturamento: real, q: ParametrosIcms)
    requires BaseCredito(faturamento, q.baseCalc, q.percCredito) * (q.aliquota / 100.0) >= 0.0
    ensures var bruto := BaseCredito(faturamento, q.baseCalc, q.percCredito) * (q.aliquota / 100.0);
      && (q.incentivo.None? || q.incentivo.value <= 0.0 ==> CreditoIcms(faturamento, Some(q)) == bruto)
      && (q.incentivo.Some? && 0.0 < q.incentivo.value <= 100.0 ==> 0.0 <= CreditoIcms(faturamento, Some(q)) <= bruto)
  {
    var bruto := BaseCredito(faturamento, q.baseCalc, q.percCredito) * (q.aliquota / 100.0);
    if q.incentivo.Some? && 0.0 < q.incentivo.value <= 100.0 {
      var i := q.incentivo.value / 100.0;
      assert 0.0 <= 1.0 - i < 1.0;
      assert bruto * (1.0 - i) <= bruto;
    }
  }

  /** With non-negative parameters every credit is non-negative, whatever the sections shown. */
  lemma {:induction false} CreditosNaoNegativos(p: Parametros)
    requires p.faturamento >= 0.0 && p.baseCalc >= 0.0 && p.percCredito >= 0.0 && p.aliquotaPis >= 0.0 && p.aliquotaCofins >= 0.0
    requires p.icms.Some? ==>
        p.icms.value.baseCalc >= 0.0 && p.icms.value.percCredito >= 0.0 && p.icms.value.aliquota >= 0.0
        && (p.icms.value.incentivo.Some? ==> p.icms.value.incentivo.value <= 100.0)
    requires p.ipi.Some? ==> p.ipi.value.baseCalc >= 0.0 && p.ipi.value.percCredito >= 0.0 && p.ipi.value.aliquota >= 0.0
    ensures CreditosPisCofins(p).0 >= 0.0 && CreditosPisCofins(p).1 >= 0.0
    ensures CreditoIcms(p.faturamento, p.icms) >= 0.0 && CreditoIpi(p.faturamento, p.ipi) >= 0.0
  {
    Produto(p.faturamento, p.baseCalc, p.percCredito, p.aliquotaPis);
    Produto(p.faturamento, p.baseCalc, p.percCredito, p.aliquotaCofins);
    if p.icms.Some? {
      var q := p.icms.value;
      Produto(p.faturamento, q.baseCalc, q.percCredito, q.aliquota);
      IncentivoIcms(p.faturamento, q);
    }
    if p.ipi.Some? {
      Produto(p.faturamento, p.ipi.value.baseCalc, p.ipi.value.percCredito, p.ipi.value.aliquota);
    }
  }

  lemma {:induction false} Produto(f: real, b: real, c: real, a: real)
    requires f >= 0.0 && b >= 0.0 && c >= 0.0 && a >= 0.0
    ensures BaseCredito(f, b, c) * (a / 100.0) >= 0.0
  {
    assert f * (b / 100.0) >= 0.0;
    assert f * (b / 100.0) * (c / 100.0) >= 0.0;
  }

  /** `calcularDebitosPisCofins`, its rates in percent: fixed in the cumulative regime, else the fields' or 1.65 and 7.6. */
  function AliquotasDebito(regime: string, pisCampo: Option<real>, cofinsCampo: Option<real>): (r: (real, real))
    ensures regime == "cumulativo" ==> r == (0.65, 3.0)
    ensures regime != "cumulativo" ==> r == (NumOr(pisCampo, 1.65), NumOr(cofinsCampo, 7.6))
  {
    if regime == "cumulativo" then (0.65, 3.0) else (NumOr(pisCampo, 1.65), NumOr(cofinsCampo, 7.6))
  }

  /** `calcularDebitosPisCofins`, its values: the revenue at each rate. */
  function DebitosPisCofins(faturamento: real, regime: string, pisCampo: Option<real>, cofinsCampo: Option<real>): (real, real)
  {
    var a := AliquotasDebito(regime, pisCampo, cofinsCampo);
    (faturamento * (a.0 / 100.0), faturamento * (a.1 / 100.0))
  }

  /** In the cumulative regime the debits are 0.65 % and 3 % of revenue; the credits there are 0. */
  lemma {:induction false} RegimeCumulativo(p: Parametros, pisCampo: Option<real>, cofinsCampo: Option<real>)
    requires p.regimePisCofins == "cumulativo"
    ensures DebitosPisCofins(p.faturamento, p.regimePisCofins, pisCampo, cofinsCampo) == (p.faturamento * 0.0065, p.faturamento * 0.03)
    ensures CreditosPisCofins(p) == (0.0, 0.0)
  {
  }

  /** An individual effective rate: the debit over the revenue, in percent, 0 without revenue. */
  function AliquotaIndividual(debito: real, faturamento: real): (r: real)
  {
    if faturamento > 0.0 then debito / faturamento * 100.0 else 0.0
  }

  /** The rate gives back its debit, and without revenue it is 0. */
  lemma {:induction false} AliquotaIndividualReconstroi(debito: real, faturamento: real)
    ensures faturamento > 0.0 ==> AliquotaIndividual(debito, faturamento) * faturamento / 100.0 == debito
    ensures faturamento <= 0.0 ==> AliquotaIndividual(debito, faturamento) == 0.0
  {
    if faturamento > 0.0 {
      assert debito / faturamento * faturamento == debito;
    }
  }

  /** The taxes with a credit, a debit and an effective-rate field. */
  datatype Tributo = Pis | Cofins | Icms | Ipi | Iss

  /** The form's sections with a field that repeats their credit. */
  datatype Secao = SecaoPisCofins | SecaoIcms | SecaoIpi

  /**
   * The result fields by element id: `credito-<t>`, `creditos-<s>-calc`, `total-creditos`,
   * `debito-<t>` and `aliquota-efetiva-<t>`.
   */
  datatype Campo = Credito(t: Tributo) | CreditoCalc(s: Secao) | TotalCreditos | Debito(d: Tributo) | AliquotaEfetiva(a: Tributo)

  /** The nine fields `limparCamposCreditos` resets. */
  const CamposCreditos: seq<Campo> := [
    Credito(Pis), Credito(Cofins), Credito(Icms), Credito(Ipi), Credito(Iss), TotalCreditos,
    CreditoCalc(SecaoPisCofins), CreditoCalc(SecaoIcms), CreditoCalc(SecaoIpi)]

  /** The taxes `calcularAliquotasEfetivasIndividuais` goes through, in order. */
  const Tributos: seq<Tributo> := [Pis, Cofins, Icms, Ipi, Iss]

  /** A field's amount, 0 when the element is missing. */
  function Valor(campos: map<Campo, real>, id: Campo): real
  {
    if id in campos then campos[id] else 0.0
  }

  /** A credit field, one of the nine that are cleared. */
  predicate DeCredito(id: Campo)
  {
    id.Credito? || id.CreditoCalc? || id.TotalCreditos?
  }

  /** `limparCamposCreditos`, its result: each of the nine credit fields present shows 0, every other field is kept. */
  function Limpos(campos: map<Campo, real>): (r: map<Campo, real>)
    ensures r.Keys == campos.Keys
    ensures forall id | id in campos :: r[id] == (if id in CamposCreditos then 0.0 else campos[id])
  {
    map id | id in campos :: if id in CamposCreditos then 0.0 else campos[id]
  }

  /** The nine ids are exactly the credit fields. */
  lemma {:induction false} CamposCreditosSaoDeCredito(id: Campo)
    ensures id in CamposCreditos <==> DeCredito(id)
  {
    if DeCredito(id) {
      match id
      case Credito(t) => assert t == Pis || t == Cofins || t == Icms || t == Ipi || t == Iss;
      case CreditoCalc(s) => assert s == SecaoPisCofins || s == SecaoIcms || s == SecaoIpi;
      case TotalCreditos => assert CamposCreditos[5] == id;
    }
  }

  /** The total of the five credit fields. */
  function SomaCreditos(campos: map<Campo, real>): real
  {
    Valor(campos, Credito(Pis)) + Valor(campos, Credito(Cofins)) + Valor(campos, Credito(Icms))
      + Valor(campos, Credito(Ipi)) + Valor(campos, Credito(Iss))
  }

  /** Writing the total: `atualizarTotaisCreditos` sums the five credit fields and shows it when the total field exists. */
  function ComTotal(campos: map<Campo, real>): (r: map<Campo, real>)
    ensures r.Keys == campos.Keys
    ensures TotalCreditos in campos ==> r[TotalCreditos] == SomaCreditos(campos)
    ensures forall id | id in campos && id != TotalCreditos :: r[id] == campos[id]
  {
    if TotalCreditos in campos then campos[TotalCreditos := SomaCreditos(campos)] else campos
  }

  // ---------------------------------------------------------------------------------------------
  // The currency text a field shows and how the total reads it back

  function DigitChar(d: nat): (c: char)
    requires d < 10
    ensures IsDigit(c) && Digit(c) == d
  {
    '0' + d as char
  }

  /** A group of thousands: three digits with leading zeros. */
  function Tres(m: nat): (s: string)
    requires m < 1000
    ensures |s| == 3 && AllDigits(s) && DigitsValue(s, 0) == m
  {
    var c0, c1, c2 := DigitChar(m / 100), DigitChar(m / 10 % 10), DigitChar(m % 10);
    var s := [c0, c1, c2];
    assert s[1..] == [c1, c2] && [c1, c2][1..] == [c2] && [c2][1..] == [];
    assert AllDigits([c2]) && AllDigits([c1, c2]);
    assert DigitsValue([c2], 10 * (m / 100) + m / 10 % 10) == 10 * (10 * (m / 100) + m / 10 % 10) + m % 10;
    s
  }

  /** The cents: two digits with a leading zero. */
  function Dois(m: nat): (s: string)
    requires m < 100
    ensures |s| == 2 && AllDigits(s) && DigitsValue(s, 0) == m
  {
    var c0, c1 := DigitChar(m / 10), DigitChar(m % 10);
    var s := [c0, c1];
    assert s[1..] == [c1] && [c1][1..] == [];
    assert AllDigits([c1]);
    assert DigitsValue([c1], m / 10) == 10 * (m / 10) + m % 10;
    s
  }

  /** The whole part as `pt-BR` writes it: groups of three digits separated by points. */
  function Agrupado(n: nat): (s: string)
    ensures |s| > 0 && IsDigit(s[0]) && ',' !in s
    decreases n
  {
    if n < 1000 then
      AllDigitsAt(Decimal(n), 0);
      DigitsPlain(Decimal(n));
      Decimal(n)
    else
      var a := Agrupado(n / 1000);
      var t := Tres(n % 1000);
      DigitsPlain(t);
      a + "." + t
  }

  /** Without its points the grouped text is the plain digits of the number. */
  lemma {:induction false} AgrupadoSemPontos(n: nat)
    ensures var w := RemoveAll(Agrupado(n), '.');
      |w| > 0 && AllDigits(w) && DigitsValue(w, 0) == n && KeepNumeric(Agrupado(n)) == Agrupado(n)
    decreases n
  {
    if n < 1000 {
      DigitsPlain(Decimal(n));
      RemoveAllCount(Decimal(n), '.');
      DecimalRead(n);
      KeepNumericDigits(Decimal(n));
    } else {
      var a := Agrupado(n / 1000);
      var t := Tres(n % 1000);
      AgrupadoSemPontos(n / 1000);
      var wa := RemoveAll(a, '.');
      DigitsPlain(t);
      RemoveAllCount(t, '.');
      RemoveAllConcat(a, "." + t, '.');
      assert RemoveAll("." + t, '.') == RemoveAll(t, '.') by {
        assert ("." + t)[0] == '.' && ("." + t)[1..] == t;
      }
      AllDigitsConcat(wa, t);
      DigitsValueConcat(wa, t, 0);
      DigitsValueAcc(t, n / 1000);
      assert Pow10(3) == 1000;
      KeepNumericConcat(a, "." + t);
      KeepNumericConcat(".", t);
      KeepNumericDigits(t);
      assert a + "." + t == a + ("." + t);
    }
  }

  /** The sign, the grouped whole part, a comma and the two decimals of an amount in cents. */
  function Moeda(c: int): string
  {
    var a := if c < 0 then -c else c;
    "R$ " + (if c < 0 then "-" else "") + Agrupado(a / 100) + "," + Dois(a % 100)
  }

  /** The amount rounded to cents, halves away from zero. */
  function Centavos(x: real): int
  {
    if x >= 0.0 then Round(100.0 * x) else -Round(-100.0 * x)
  }

  /** The `formatarMoeda` fallback, `Intl.NumberFormat('pt-BR', {style: 'currency', currency: 'BRL'})`: `'R$'`, points between thousands, a decimal comma and two decimals. */
  function FormatarMoeda(x: real): string
  {
    Moeda(Centavos(x))
  }

  /** `(valor || '0')` for the text of a field. */
  function OuZero(texto: string): string
  {
    if texto == "" then "0" else texto
  }

  /**
   * `extrairValorMonetario` of `atualizarTotaisCreditos` as written: the characters other than digits,
   * commas, points and minus signs removed, the first comma made a point, then `parseFloat(...) || 0`.
   */
  function LidoComoEscrito(texto: string): real
  {
    NumOr(ParseFloat(ReplaceFirst(KeepNumeric(OuZero(texto)), ',', '.')), 0.0)
  }

  /** The reading that takes the points as the thousands separators they are before the comma becomes a point. */
  function LidoCorrigido(texto: string): real
  {
    NumOr(ParseFloat(ReplaceFirst(RemoveAll(KeepNumeric(OuZero(texto)), '.'), ',', '.')), 0.0)
  }

  /** Deleting a character works piece by piece. */
  lemma {:induction false} RemoveAllConcat(a: string, b: string, c: char)
    ensures RemoveAll(a + b, c) == RemoveAll(a, c) + RemoveAll(b, c)
    decreases |a|
  {
    if |a| == 0 {
      assert a + b == b;
    } else {
      assert (a + b)[0] == a[0] && (a + b)[1..] == a[1..] + b;
      RemoveAllConcat(a[1..], b, c);
    }
  }

  /** What the numeric filter keeps of an amount's text: the sign, the grouped whole part, the comma and the cents. */
  lemma {:induction false} MoedaNumerica(c: int)
    ensures var a := if c < 0 then -c else c;
      KeepNumeric(Moeda(c)) == (if c < 0 then "-" else "") + Agrupado(a / 100) + "," + Dois(a % 100)
  {
    var a := if c < 0 then -c else c;
    var sinal := if c < 0 then "-" else "";
    var g := Agrupado(a / 100);
    var d := Dois(a % 100);
    var resto := sinal + (g + ("," + d));
    assert Moeda(c) == "R$ " + resto;
    assert KeepNumeric("R$ " + resto) == KeepNumeric(resto) by {
      KeepNumericConcat("R$ ", resto);
      assert KeepNumeric("R$ ") == "";
    }
    assert KeepNumeric(resto) == sinal + KeepNumeric(g + ("," + d)) by {
      KeepNumericConcat(sinal, g + ("," + d));
      assert KeepNumeric(sinal) == sinal;
    }
    assert KeepNumeric(g + ("," + d)) == g + ("," + d) by {
      AgrupadoSemPontos(a / 100);
      KeepNumericDigits(d);
      KeepNumericConcat(g, "," + d);
      KeepNumericConcat(",", d);
      assert KeepNumeric(",") == ",";
    }
  }

  /** Corrected, every amount's text reads back as the amount in cents. */
  lemma {:induction false} MoedaLida(c: int)
    ensures LidoCorrigido(Moeda(c)) == c as real / 100.0
  {
    var a := if c < 0 then -c else c;
    var sinal := if c < 0 then "-" else "";
    var w := RemoveAll(Agrupado(a / 100), '.');
    var d := Dois(a % 100);
    var texto := Moeda(c);
    var u := RemoveAll(KeepNumeric(texto), '.');
    assert u == sinal + (w + "," + d) by {
      MoedaSemPontos(c);
    }
    assert OuZero(texto) == texto by {
      assert texto[0] == 'R';
    }
    var v := ReplaceFirst(u, ',', '.');
    var x := (a / 100) as real + (a % 100) as real / 100.0;
    AgrupadoSemPontos(a / 100);
    assert v == sinal + (w + "." + d) by {
      VirgulaEmPonto(sinal, w, d);
    }
    LeituraComSinal(c < 0, w, d, a / 100, a % 100);
    CentavosEmReais(c);
  }

  /** Whole units and cents make up the amount in cents, whatever its sign. */
  lemma CentavosEmReais(c: int)
    ensures var a := if c < 0 then -c else c;
      var x := (a / 100) as real + (a % 100) as real / 100.0;
      (if c < 0 then -x else x) == c as real / 100.0
  {
    var a := if c < 0 then -c else c;
    assert a == 100 * (a / 100) + a % 100;
    assert a as real == 100.0 * (a / 100) as real + (a % 100) as real;
  }

  /** Without the points, the filtered text of an amount is its sign, its digits, a comma and its cents. */
  lemma {:induction false} MoedaSemPontos(c: int)
    ensures var a := if c < 0 then -c else c;
      RemoveAll(KeepNumeric(Moeda(c)), '.')
        == (if c < 0 then "-" else "") + (RemoveAll(Agrupado(a / 100), '.') + "," + Dois(a % 100))
  {
    var a := if c < 0 then -c else c;
    var sinal := if c < 0 then "-" else "";
    var g := Agrupado(a / 100);
    var d := Dois(a % 100);
    MoedaNumerica(c);
    DigitsPlain(d);
    RemoveAllCount(d, '.');
    assert sinal + g + "," + d == sinal + (g + ("," + d));
    RemoveAllConcat(sinal, g + ("," + d), '.');
    RemoveAllConcat(g, "," + d, '.');
    RemoveAllConcat(",", d, '.');
    assert RemoveAll(sinal, '.') == sinal;
    assert RemoveAll(",", '.') == ",";
    assert RemoveAll(g, '.') + ("," + d) == RemoveAll(g, '.') + "," + d;
  }

  /** The only comma, between the digits and the cents, becomes the decimal point. */
  lemma {:induction false} VirgulaEmPonto(sinal: string, w: string, d: string)
    requires sinal == "" || sinal == "-"
    requires AllDigits(w) && AllDigits(d)
    ensures ReplaceFirst(sinal + (w + "," + d), ',', '.') == sinal + (w + "." + d)
  {
    var t := sinal + (w + "," + d);
    DigitsPlain(w);
    assert t[|sinal| + |w|] == ',';
    forall j | 0 <= j < |sinal| + |w| ensures t[j] != ',' {
      if j >= |sinal| { assert t[j] == w[j - |sinal|]; }
    }
    assert IndexOfChar(t, ',') == |sinal| + |w|;
    assert t[..|sinal| + |w|] + ['.'] + t[|sinal| + |w| + 1..] == sinal + (w + "." + d);
  }

  /** `parseFloat` of digits, a point and two decimals after an optional minus sign. */
  lemma {:induction false} LeituraComSinal(negativo: bool, w: string, d: string, n: nat, m: nat)
    requires |w| > 0 && AllDigits(w) && AllDigits(d) && |d| == 2
    requires DigitsValue(w, 0) == n && DigitsValue(d, 0) == m
    ensures var x := n as real + m as real / 100.0;
      ParseFloat((if negativo then "-" else "") + (w + "." + d)) == Some(if negativo then -x else x)
  {
    var sinal := if negativo then "-" else "";
    var v := w + "." + d;
    ParseDecimal(w, d);
    ShiftedDivides(DigitsValue(d, 0), 2);
    assert Pow10(2) == 100;
    if negativo {
      AllDigitsAt(w, 0);
      assert v[0] == w[0] && IsDigit(v[0]) && !IsWhite(v[0]);
      assert ParseFloat(v) == IntegerPart(v, 0, false);
      assert (sinal + v)[0] == '-' && (sinal + v)[1..] == v;
    } else {
      assert sinal + v == v;
    }
  }

  /** As written, a credit of R$ 1.234,56 shows as that text and reads back as 1.234. */
  lemma {:induction false} MilLidoComoEscrito()
    ensures FormatarMoeda(1234.56) == Moeda(123456)
    ensures LidoComoEscrito(FormatarMoeda(1234.56)) == 1.234
    ensures LidoCorrigido(FormatarMoeda(1234.56)) == 1234.56
  {
    MilFormatado();
    MoedaLida(123456);
    MilComoEscrito();
  }

  /** 1234.56 is formatted as 123456 cents. */
  lemma MilFormatado()
    ensures FormatarMoeda(1234.56) == Moeda(123456)
  {
    assert Round(123456.0) == 123456;
  }

  /** As written, the text of 123456 cents reads back as 1.234. */
  lemma {:induction false} MilComoEscrito()
    ensures LidoComoEscrito(Moeda(123456)) == 1.234
  {
    var texto := Moeda(123456);
    assert OuZero(texto) == texto by {
      assert texto[0] == 'R';
    }
    assert KeepNumeric(texto) == "1.234,56" by {
      MilNumerico();
    }
    var k := "1.234,56";
    assert ReplaceFirst(k, ',', '.') == "1.234.56" by {
      assert IndexOfChar(k, ',') == 5;
    }
    MilPontoDuplo();
  }

  /** The filter keeps `1.234,56` of the text of 123456 cents. */
  lemma {:induction false} MilNumerico()
    ensures KeepNumeric(Moeda(123456)) == "1.234,56"
  {
    var c := 123456;
    MoedaNumerica(c);
    assert c / 100 == 1234 && c % 100 == 56;
    var k := KeepNumeric(Moeda(c));
    assert k == "" + Agrupado(1234) + "," + Dois(56);
    MilAgrupado();
    var d := Dois(56);
    assert d[0] == '5' && d[1] == '6';
    assert k == "1.234" + "," + d;
  }

  /** 1234 is written `1.234`. */
  lemma {:induction false} MilAgrupado()
    ensures Agrupado(1234) == "1.234"
  {
    assert Agrupado(1234) == Agrupado(1) + "." + Tres(234);
    assert Agrupado(1) == Decimal(1);
    assert Decimal(1) == "1";
    assert Tres(234) == "234";
  }

  /** `parseFloat('1.234.56')` stops at the second point. */
  lemma {:induction false} MilPontoDuplo()
    ensures ParseFloat("1.234.56") == Some(1.234)
  {
    var v := "1.234.56";
    assert ParseFloat(v) == IntegerPart(v, 0, false);
    assert v[1..] == ".234.56" && v[1..][1..] == "234.56";
    assert IntegerPart(v, 0, false) == FractionPart("234.56", 1, 0, 0, true);
    var f := "234.56";
    assert f[1..] == "34.56" && f[1..][1..] == "4.56" && f[1..][1..][1..] == ".56";
    assert FractionPart(f, 1, 0, 0, true) == FractionPart(".56", 1, 234, 3, true);
    ShiftedDivides(234, 3);
    assert Pow10(3) == 1000;
  }

  /** The five credit fields as `atualizarTotaisCreditos` reads their text back; an element not on the page counts 0. */
  function SomaLida(campos: map<Campo, real>, corrigido: bool): real
  {
    Lido(campos, Credito(Pis), corrigido) + Lido(campos, Credito(Cofins), corrigido)
      + Lido(campos, Credito(Icms), corrigido) + Lido(campos, Credito(Ipi), corrigido)
      + Lido(campos, Credito(Iss), corrigido)
  }

  /** `extrairValorMonetario(id)` on the currency text of a field: 0 when the element is missing. */
  function Lido(campos: map<Campo, real>, id: Campo, corrigido: bool): real
  {
    if id !in campos then 0.0
    else if corrigido then LidoCorrigido(FormatarMoeda(campos[id])) else LidoComoEscrito(FormatarMoeda(campos[id]))
  }

  /** An amount with no fraction of a cent. */
  predicate EmCentavos(x: real)
  {
    (100.0 * x).Floor as real == 100.0 * x
  }

  /** Read back in the corrected way, an amount in whole cents is itself. */
  lemma {:induction false} CentavosLidos(x: real)
    requires EmCentavos(x)
    ensures LidoCorrigido(FormatarMoeda(x)) == x
  {
    MoedaLida(Centavos(x));
    if x >= 0.0 {
      assert Round(100.0 * x) == (100.0 * x).Floor;
    } else {
      assert (-100.0 * x).Floor == -(100.0 * x).Floor;
      assert Round(-100.0 * x) == (-100.0 * x).Floor;
    }
  }

  /**
   * As written, a form whose PIS credit is R$ 1.234,56 gets a total of 1.234, where the sum of its
   * credits is 1234.56.
   */
  lemma {:induction false} TotalComoEscrito(campos: map<Campo, real>)
    requires campos == map[Credito(Pis) := 1234.56, TotalCreditos := 0.0]
    ensures SomaLida(campos, false) == 1.234
    ensures SomaCreditos(campos) == 1234.56
  {
    MilLidoComoEscrito();
  }

  /**
   * Read back in the corrected way, credits in whole cents total the sum of the credits, which is the
   * total `ComTotal` writes.
   */
  lemma {:induction false} TotalLidoCorrigido(campos: map<Campo, real>)
    requires forall id | id in campos :: EmCentavos(campos[id])
    ensures SomaLida(campos, true) == SomaCreditos(campos)
    ensures TotalCreditos in campos ==> ComTotal(campos)[TotalCreditos] == SomaLida(campos, true)
  {
    forall id | id in campos ensures Lido(campos, id, true) == campos[id] {
      CentavosLidos(campos[id]);
    }
  }

  /** Every field the credit calculation writes without checking is on the form. */
  predicate Completos(campos: map<Campo, real>)
  {
    && Credito(Pis) in campos && Credito(Cofins) in campos && CreditoCalc(SecaoPisCofins) in campos
    && Credito(Icms) in campos && CreditoCalc(SecaoIcms) in campos
    && Credito(Ipi) in campos && CreditoCalc(SecaoIpi) in campos
  }

  /** The PIS/COFINS fields after their calculation. */
  function ComPisCofins(campos: map<Campo, real>, p: Parametros): map<Campo, real>
  {
    var pc := CreditosPisCofins(p);
    campos[Credito(Pis) := pc.0][Credito(Cofins) := pc.1][CreditoCalc(SecaoPisCofins) := pc.0 + pc.1]
  }

  /** The ICMS fields after their calculation. */
  function ComIcms(campos: map<Campo, real>, p: Parametros): map<Campo, real>
  {
    var c := CreditoIcms(p.faturamento, p.icms);
    campos[Credito(Icms) := c][CreditoCalc(SecaoIcms) := c]
  }

  /** The IPI fields after their calculation. */
  function ComIpi(campos: map<Campo, real>, p: Parametros): map<Campo, real>
  {
    var c := CreditoIpi(p.faturamento, p.ipi);
    campos[Credito(Ipi) := c][CreditoCalc(SecaoIpi) := c]
  }

  /**
   * Setting the fields `ws` one after another with `document.getElementById(id).value = ...`: the first
   * element not on the page throws, and the fields written before it keep their new values.
   */
  function Escritos(campos: map<Campo, real>, ws: seq<(Campo, real)>): (r: map<Campo, real>)
    ensures r.Keys == campos.Keys
    ensures forall id | id in campos && (forall i | 0 <= i < |ws| :: ws[i].0 != id) :: r[id] == campos[id]
    decreases |ws|
  {
    if ws == [] || ws[0].0 !in campos then campos
    else Escritos(campos[ws[0].0 := ws[0].1], ws[1..])
  }

  /** Every field of `ws` is on the page. */
  predicate Presentes(campos: map<Campo, real>, ws: seq<(Campo, real)>)
  {
    forall i | 0 <= i < |ws| :: ws[i].0 in campos
  }

  /** The writes of `calcularCreditosPisCofins`, in source order. */
  function EscritasPisCofins(p: Parametros): seq<(Campo, real)>
  {
    var pc := CreditosPisCofins(p);
    [(Credito(Pis), pc.0), (Credito(Cofins), pc.1), (CreditoCalc(SecaoPisCofins), pc.0 + pc.1)]
  }

  /** The writes of `calcularCreditosICMS`, in source order. */
  function EscritasIcms(p: Parametros): seq<(Campo, real)>
  {
    var c := CreditoIcms(p.faturamento, p.icms);
    [(Credito(Icms), c), (CreditoCalc(SecaoIcms), c)]
  }

  /** The writes of `calcularCreditosIPI`, in source order. */
  function EscritasIpi(p: Parametros): seq<(Campo, real)>
  {
    var c := CreditoIpi(p.faturamento, p.ipi);
    [(Credito(Ipi), c), (CreditoCalc(SecaoIpi), c)]
  }

  /** With all three fields present, the PIS/COFINS writes leave the calculated fields. */
  lemma {:induction false} EscritosPisCofins(campos: map<Campo, real>, p: Parametros)
    ensures Presentes(campos, EscritasPisCofins(p))
      <==> Credito(Pis) in campos && Credito(Cofins) in campos && CreditoCalc(SecaoPisCofins) in campos
    ensures Presentes(campos, EscritasPisCofins(p)) ==> Escritos(campos, EscritasPisCofins(p)) == ComPisCofins(campos, p)
  {
    var ws := EscritasPisCofins(p);
    assert ws[0].0 == Credito(Pis) && ws[1].0 == Credito(Cofins) && ws[2].0 == CreditoCalc(SecaoPisCofins);
    if Presentes(campos, ws) {
      var c1 := campos[ws[0].0 := ws[0].1];
      var c2 := c1[ws[1].0 := ws[1].1];
      assert Escritos(campos, ws) == Escritos(c1, ws[1..]);
      assert Escritos(c1, ws[1..]) == Escritos(c2, ws[2..]);
      assert ws[2..][1..] == [];
    }
  }

  /** With both fields present, the ICMS writes leave the calculated fields. */
  lemma {:induction false} EscritosIcms(campos: map<Campo, real>, p: Parametros)
    ensures Presentes(campos, EscritasIcms(p)) <==> Credito(Icms) in campos && CreditoCalc(SecaoIcms) in campos
    ensures Presentes(campos, EscritasIcms(p)) ==> Escritos(campos, EscritasIcms(p)) == ComIcms(campos, p)
  {
    var ws := EscritasIcms(p);
    assert ws[0].0 == Credito(Icms) && ws[1].0 == CreditoCalc(SecaoIcms);
    if Presentes(campos, ws) {
      var c1 := campos[ws[0].0 := ws[0].1];
      assert Escritos(campos, ws) == Escritos(c1, ws[1..]);
      assert ws[1..][1..] == [];
    }
  }

  /** With both fields present, the IPI writes leave the calculated fields. */
  lemma {:induction false} EscritosIpi(campos: map<Campo, real>, p: Parametros)
    ensures Presentes(campos, EscritasIpi(p)) <==> Credito(Ipi) in campos && CreditoCalc(SecaoIpi) in campos
    ensures Presentes(campos, EscritasIpi(p)) ==> Escritos(campos, EscritasIpi(p)) == ComIpi(campos, p)
  {
    var ws := EscritasIpi(p);
    assert ws[0].0 == Credito(Ipi) && ws[1].0 == CreditoCalc(SecaoIpi);
    if Presentes(campos, ws) {
      var c1 := campos[ws[0].0 := ws[0].1];
      assert Escritos(campos, ws) == Escritos(c1, ws[1..]);
      assert ws[1..][1..] == [];
    }
  }

  /**
   * The form after the `try` block with a positive revenue: each calculation in turn, and the exception
   * of the first missing element skips the rest, the total included.
   */
  function Parciais(campos: map<Campo, real>, p: Parametros): map<Campo, real>
  {
    if !Presentes(campos, EscritasPisCofins(p)) then Escritos(campos, EscritasPisCofins(p))
    else
      var c1 := ComPisCofins(campos, p);
      if !Presentes(c1, EscritasIcms(p)) then Escritos(c1, EscritasIcms(p))
      else
        var c2 := ComIcms(c1, p);
        if !Presentes(c2, EscritasIpi(p)) then Escritos(c2, EscritasIpi(p))
        else ComTotal(ComIpi(c2, p))
  }

  /** On a complete form nothing throws, and the block leaves the calculated fields. */
  lemma {:induction false} ParciaisCompletos(campos: map<Campo, real>, p: Parametros)
    ensures Completos(campos)
      <==> Presentes(campos, EscritasPisCofins(p)) && Presentes(campos, EscritasIcms(p)) && Presentes(campos, EscritasIpi(p))
    ensures Completos(campos) ==> Parciais(campos, p) == Calculados(campos, p)
  {
    EscritosPisCofins(campos, p);
    EscritosIcms(campos, p);
    EscritosIpi(campos, p);
    var c1 := ComPisCofins(campos, p);
    EscritosIcms(c1, p);
    var c2 := ComIcms(c1, p);
    EscritosIpi(c2, p);
  }

  /**
   * On an incomplete form the exception skips the total: the total and the ISS credit keep their old
   * values, and no field appears or disappears.
   */
  lemma {:induction false} IncompletoSemTotal(campos: map<Campo, real>, p: Parametros)
    requires !Completos(campos)
    ensures Parciais(campos, p).Keys == campos.Keys
    ensures TotalCreditos in campos ==> Parciais(campos, p)[TotalCreditos] == campos[TotalCreditos]
    ensures Credito(Iss) in campos ==> Parciais(campos, p)[Credito(Iss)] == campos[Credito(Iss)]
  {
    ParciaisCompletos(campos, p);
    var c1 := ComPisCofins(campos, p);
    var c2 := ComIcms(c1, p);
    assert EscritasPisCofins(p)[0].0 == Credito(Pis) && EscritasPisCofins(p)[1].0 == Credito(Cofins);
    assert EscritasPisCofins(p)[2].0 == CreditoCalc(SecaoPisCofins);
    assert EscritasIcms(p)[0].0 == Credito(Icms) && EscritasIcms(p)[1].0 == CreditoCalc(SecaoIcms);
    assert EscritasIpi(p)[0].0 == Credito(Ipi) && EscritasIpi(p)[1].0 == CreditoCalc(SecaoIpi);
  }

  /**
   * With the PIS and COFINS fields on the page but not their section total, the two credits are written
   * and everything after the exception is skipped.
   */
  lemma {:induction false} SemSecaoPisCofins(campos: map<Campo, real>, p: Parametros)
    requires Credito(Pis) in campos && Credito(Cofins) in campos && CreditoCalc(SecaoPisCofins) !in campos
    ensures Parciais(campos, p) == campos[Credito(Pis) := CreditosPisCofins(p).0][Credito(Cofins) := CreditosPisCofins(p).1]
  {
    var ws := EscritasPisCofins(p);
    EscritosPisCofins(campos, p);
    var c1 := campos[ws[0].0 := ws[0].1];
    var c2 := c1[ws[1].0 := ws[1].1];
    assert Escritos(campos, ws) == Escritos(c1, ws[1..]);
    assert Escritos(c1, ws[1..]) == Escritos(c2, ws[2..]);
    assert ws[2..][0].0 !in c2;
  }

  /** The form after a complete credit calculation with a positive revenue. */
  function Calculados(campos: map<Campo, real>, p: Parametros): map<Campo, real>
  {
    ComTotal(ComIpi(ComIcms(ComPisCofins(campos, p), p), p))
  }

  /**
   * After a complete calculation each credit field shows its credit, the ISS credit is kept, and the
   * total is the sum of the five; no field appears or disappears.
   */
  lemma {:induction false} TotalDosCreditos(campos: map<Campo, real>, p: Parametros)
    requires Completos(campos) && TotalCreditos in campos
    ensures var r := Calculados(campos, p);
      && r.Keys == campos.Keys
      && r[Credito(Pis)] == CreditosPisCofins(p).0 && r[Credito(Cofins)] == CreditosPisCofins(p).1
      && r[CreditoCalc(SecaoPisCofins)] == CreditosPisCofins(p).0 + CreditosPisCofins(p).1
      && r[Credito(Icms)] == CreditoIcms(p.faturamento, p.icms) && r[Credito(Ipi)] == CreditoIpi(p.faturamento, p.ipi)
      && r[TotalCreditos] == CreditosPisCofins(p).0 + CreditosPisCofins(p).1
           + CreditoIcms(p.faturamento, p.icms) + CreditoIpi(p.faturamento, p.ipi) + Valor(campos, Credito(Iss))
  {
    var c3 := ComIpi(ComIcms(ComPisCofins(campos, p), p), p);
    assert c3.Keys == campos.Keys;
    assert Valor(c3, Credito(Iss)) == Valor(campos, Credito(Iss));
  }

  /** The form fields and the `calculandoCreditos` flag that keeps the calculation from re-entering itself. */
  class Formulario {
    /** The amount each result element on the page shows; an element not on the page has no entry. */
    var campos: map<Campo, real>
    var calculandoCreditos: bool

    constructor (campos: map<Campo, real>)
      ensures this.campos == campos && !calculandoCreditos
    {
      this.campos := campos;
      calculandoCreditos := false;
    }

    /** Writing a field the code assumes exists: a missing element throws, which `ok` reports. */
    method Escrever(id: Campo, valor: real) returns (ok: bool)
      modifies this
      ensures ok <==> id in old(campos)
      ensures campos == (if ok then old(campos)[id := valor] else old(campos))
      ensures calculandoCreditos == old(calculandoCreditos)
    {
      ok := id in campos;
      if ok {
        campos := campos[id := valor];
      }
    }

    /** `calcularCreditosPisCofins`: its three fields, 0 outside the non-cumulative regime. */
    method CalcularCreditosPisCofins(p: Parametros) returns (ok: bool)
      modifies this
      ensures ok <==> Credito(Pis) in old(campos) && Credito(Cofins) in old(campos) && CreditoCalc(SecaoPisCofins) in old(campos)
      ensures ok ==> campos == ComPisCofins(old(campos), p)
      ensures campos == Escritos(old(campos), EscritasPisCofins(p))
      ensures campos.Keys == old(campos).Keys && calculandoCreditos == old(calculandoCreditos)
    {
      var pis, cofins := 0.0, 0.0;
      if p.regimePisCofins == "nao-cumulativo" {
        var baseCredito := BaseCredito(p.faturamento, p.baseCalc, p.percCredito);
        pis := baseCredito * (p.aliquotaPis / 100.0);
        cofins := baseCredito * (p.aliquotaCofins / 100.0);
      }
      assert pis == CreditosPisCofins(p).0 && cofins == CreditosPisCofins(p).1;
      ghost var ws := EscritasPisCofins(p);
      assert ws[1..] == [(Credito(Cofins), cofins), (CreditoCalc(SecaoPisCofins), pis + cofins)];
      assert ws[1..][1..] == [(CreditoCalc(SecaoPisCofins), pis + cofins)];
      ghost var c0 := campos;
      ok := Escrever(Credito(Pis), pis);
      if ok {
        ghost var c1 := campos;
        assert Escritos(c0, ws) == Escritos(c1, ws[1..]);
        ok := Escrever(Credito(Cofins), cofins);
        if ok {
          ghost var c2 := campos;
          assert Escritos(c1, ws[1..]) == Escritos(c2, ws[1..][1..]);
          ok := Escrever(CreditoCalc(SecaoPisCofins), pis + cofins);
          assert ok ==> Escritos(c2, ws[1..][1..]) == Escritos(campos, ws[1..][1..][1..]);
        }
      }
    }

    /** `calcularCreditosICMS`: the credit in both ICMS fields. */
    method CalcularCreditosIcms(p: Parametros) returns (ok: bool)
      modifies this
      ensures ok <==> Credito(Icms) in old(campos) && CreditoCalc(SecaoIcms) in old(campos)
      ensures ok ==> campos == ComIcms(old(campos), p)
      ensures campos == Escritos(old(campos), EscritasIcms(p))
      ensures campos.Keys == old(campos).Keys && calculandoCreditos == old(calculandoCreditos)
    {
      var credito := 0.0;
      if p.icms.Some? {
        var q := p.icms.value;
        var incentivo := if q.incentivo.Some? then q.incentivo.value / 100.0 else 0.0;
        credito := BaseCredito(p.faturamento, q.baseCalc, q.percCredito) * (q.aliquota / 100.0);
        if incentivo > 0.0 {
          credito := credito * (1.0 - incentivo);
        }
      }
      assert credito == CreditoIcms(p.faturamento, p.icms);
      ok := Escrever(Credito(Icms), credito);
      if ok {
        ok := Escrever(CreditoCalc(SecaoIcms), credito);
      }
    }

    /** `calcularCreditosIPI`: the credit in both IPI fields. */
    method CalcularCreditosIpi(p: Parametros) returns (ok: bool)
      modifies this
      ensures ok <==> Credito(Ipi) in old(campos) && CreditoCalc(SecaoIpi) in old(campos)
      ensures ok ==> campos == ComIpi(old(campos), p)
      ensures campos == Escritos(old(campos), EscritasIpi(p))
      ensures campos.Keys == old(campos).Keys && calculandoCreditos == old(calculandoCreditos)
    {
      var credito := 0.0;
      if p.ipi.Some? {
        var q := p.ipi.value;
        credito := BaseCredito(p.faturamento, q.baseCalc, q.percCredito) * (q.aliquota / 100.0);
      }
      assert credito == CreditoIpi(p.faturamento, p.ipi);
      ok := Escrever(Credito(Ipi), credito);
      if ok {
        ok := Escrever(CreditoCalc(SecaoIpi), credito);
      }
    }

    /** `atualizarTotaisCreditos`. */
    method AtualizarTotaisCreditos()
      modifies this
      ensures campos == ComTotal(old(campos)) && calculandoCreditos == old(calculandoCreditos)
    {
      var total := Valor(campos, Credito(Pis)) + Valor(campos, Credito(Cofins)) + Valor(campos, Credito(Icms))
        + Valor(campos, Credito(Ipi)) + Valor(campos, Credito(Iss));
      if TotalCreditos in campos {
        campos := campos[TotalCreditos := total];
      }
    }

    /** `limparCamposCreditos`: every credit field on the page back to zero. */
    method LimparCamposCreditos()
      modifies this
      ensures campos == Limpos(old(campos)) && calculandoCreditos == old(calculandoCreditos)
    {
      var i := 0;
      while i < |CamposCreditos|
        invariant 0 <= i <= |CamposCreditos|
        invariant campos.Keys == old(campos).Keys
        invariant forall id | id in campos :: campos[id] == (if id in CamposCreditos[..i] then 0.0 else old(campos)[id])
        invariant calculandoCreditos == old(calculandoCreditos)
      {
        var id := CamposCreditos[i];
        assert forall x :: x in CamposCreditos[..i + 1] <==> x in CamposCreditos[..i] || x == id;
        if id in campos {
          campos := campos[id := 0.0];
        }
        i := i + 1;
      }
      assert CamposCreditos[..i] == CamposCreditos;
    }

    /**
     * `calcularCreditosTributarios`: returns at once while a calculation is running; otherwise clears
     * the credits without revenue, or computes PIS/COFINS, ICMS, IPI and the total, stopping at the first
     * missing field; the flag is reset on every way out.
     */
    method CalcularCreditosTributarios(p: Parametros)
      modifies this
      ensures calculandoCreditos == old(calculandoCreditos)
      ensures old(calculandoCreditos) ==> campos == old(campos)
      ensures !old(calculandoCreditos) && p.faturamento <= 0.0 ==> campos == Limpos(old(campos))
      ensures !old(calculandoCreditos) && p.faturamento > 0.0 ==> campos == Parciais(old(campos), p)
      ensures !old(calculandoCreditos) && p.faturamento > 0.0 && Completos(old(campos)) ==> campos == Calculados(old(campos), p)
      ensures campos.Keys == old(campos).Keys
    {
      if calculandoCreditos {
        return;
      }
      calculandoCreditos := true;
      if p.faturamento <= 0.0 {
        LimparCamposCreditos();
      } else {
        CalcularTodos(p);
      }
      calculandoCreditos := false;
    }

    /** The `try` block of `calcularCreditosTributarios` with a positive revenue. */
    method CalcularTodos(p: Parametros)
      modifies this
      ensures campos == Parciais(old(campos), p)
      ensures Completos(old(campos)) ==> campos == Calculados(old(campos), p)
      ensures campos.Keys == old(campos).Keys && calculandoCreditos == old(calculandoCreditos)
    {
      ghost var c0 := campos;
      ParciaisCompletos(c0, p);
      EscritosPisCofins(c0, p);
      var ok := CalcularCreditosPisCofins(p);
      if !ok {
        return;
      }
      ghost var c1 := campos;
      EscritosIcms(c1, p);
      ok := CalcularCreditosIcms(p);
      if !ok {
        return;
      }
      ghost var c2 := campos;
      EscritosIpi(c2, p);
      ok := CalcularCreditosIpi(p);
      if !ok {
        return;
      }
      AtualizarTotaisCreditos();
    }

    /** `calcularDebitosPisCofins`: the two debits, written where the fields exist. */
    method CalcularDebitosPisCofins(faturamento: real, regime: string, pisCampo: Option<real>, cofinsCampo: Option<real>)
      modifies this
      ensures var d := DebitosPisCofins(faturamento, regime, pisCampo, cofinsCampo);
        campos == Atualizado(Atualizado(old(campos), Debito(Pis), d.0), Debito(Cofins), d.1)
      ensures calculandoCreditos == old(calculandoCreditos)
    {
      var a := AliquotasDebito(regime, pisCampo, cofinsCampo);
      AtualizarCampoMonetario(Debito(Pis), faturamento * (a.0 / 100.0));
      AtualizarCampoMonetario(Debito(Cofins), faturamento * (a.1 / 100.0));
      assert DebitosPisCofins(faturamento, regime, pisCampo, cofinsCampo).0 == faturamento * (a.0 / 100.0);
      assert DebitosPisCofins(faturamento, regime, pisCampo, cofinsCampo).1 == faturamento * (a.1 / 100.0);
    }

    /** `atualizarCampoMonetario`: the field is written only when it exists. */
    method AtualizarCampoMonetario(id: Campo, valor: real)
      modifies this
      ensures campos == Atualizado(old(campos), id, valor) && calculandoCreditos == old(calculandoCreditos)
    {
      if id in campos {
        campos := campos[id := valor];
      }
    }

    /** `calcularAliquotasEfetivasIndividuais`: for each tax, its debit over the revenue into its rate field when that exists. */
    method CalcularAliquotasEfetivasIndividuais(faturamento: real)
      modifies this
      ensures campos.Keys == old(campos).Keys && calculandoCreditos == old(calculandoCreditos)
      ensures forall t | AliquotaEfetiva(t) in campos ::
        campos[AliquotaEfetiva(t)] == AliquotaIndividual(Valor(old(campos), Debito(t)), faturamento)
      ensures forall id | id in campos && !id.AliquotaEfetiva? :: campos[id] == old(campos)[id]
    {
      var i := 0;
      while i < |Tributos|
        invariant 0 <= i <= |Tributos|
        invariant campos.Keys == old(campos).Keys && calculandoCreditos == old(calculandoCreditos)
        invariant forall id | id in campos && !id.AliquotaEfetiva? :: campos[id] == old(campos)[id]
        invariant forall t | t in Tributos[..i] && AliquotaEfetiva(t) in campos ::
          campos[AliquotaEfetiva(t)] == AliquotaIndividual(Valor(old(campos), Debito(t)), faturamento)
      {
        var t := Tributos[i];
        assert forall x :: x in Tributos[..i + 1] <==> x in Tributos[..i] || x == t;
        var debito := Valor(campos, Debito(t));
        if AliquotaEfetiva(t) in campos {
          campos := campos[AliquotaEfetiva(t) := AliquotaIndividual(debito, faturamento)];
        }
        i := i + 1;
      }
      forall t ensures t in Tributos {
        assert t == Pis || t == Cofins || t == Icms || t == Ipi || t == Iss;
      }
      assert Tributos[..i] == Tributos;
    }
  }

  /** The field after `atualizarCampoMonetario`. */
  function Atualizado(campos: map<Campo, real>, id: Campo, valor: real): (r: map<Campo, real>)
    ensures r.Keys == campos.Keys
    ensures id in campos ==> r[id] == valor
    ensures forall x | x in campos && x != id :: r[x] == campos[x]
  {
    if id in campos then campos[id := valor] else campos
  }
}
