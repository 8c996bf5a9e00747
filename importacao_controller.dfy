/**
 * The import controller: the files chosen for each kind of SPED, their validation, and the run
 * that processes every loaded file, consolidates the results and hands them to the simulator.
 */
module ImportacaoController {
  import opened JsText
  import opened JsNumber

  /** 50 MB. */
  const TamanhoMaximoArquivo: nat := 50 * 1024 * 1024

  /** A selected file: its name and its size in bytes. */
  datatype Arquivo = Arquivo(nome: string, tamanho: nat)

  /** What the validation reports; the message text is left abstract. */
  datatype Problema = MuitoGrande(tamanho: nat) | TipoNaoSuportado(extensao: string) | NomeSuspeito

  datatype Validacao = Validacao(valido: bool, erros: seq<Problema>, avisos: seq<Problema>)

  /** `nome.toLowerCase().split('.').pop()`: the text after the last point, or the whole name without one. */
  function Extensao(nome: string): (e: string)
    ensures '.' !in e
  {
    var partes := Split(ToLower(nome), '.');
    SplitSemSeparador(ToLower(nome), '.');
    partes[|partes| - 1]
  }

  /** The lower-cased name mentions one of the SPED families. */
  predicate NomeDeSped(nome: string)
  {
    var n := ToLower(nome);
    Includes(n, "sped") || Includes(n, "efd") || Includes(n, "ecf") || Includes(n, "ecd")
  }

  /**
   * `validarArquivoSelecionado`, its rules: only the size makes the file invalid; a wrong extension
   * is reported as an error without invalidating it, and an unexpected name is only a warning.
   */
  function Validar(a: Arquivo): (v: Validacao)
    ensures v.valido <==> a.tamanho <= TamanhoMaximoArquivo
    ensures MuitoGrande(a.tamanho) in v.erros <==> a.tamanho > TamanhoMaximoArquivo
    ensures TipoNaoSuportado(Extensao(a.nome)) in v.erros <==> Extensao(a.nome) != "txt"
    ensures |v.erros| <= 2
    ensures v.avisos == (if NomeDeSped(a.nome) then [] else [NomeSuspeito])
  {
    var erros := (if a.tamanho > TamanhoMaximoArquivo then [MuitoGrande(a.tamanho)] else [])
      + (if Extensao(a.nome) != "txt" then [TipoNaoSuportado(Extensao(a.nome))] else []);
    assert MuitoGrande(a.tamanho) in erros <==> a.tamanho > TamanhoMaximoArquivo;
    Validacao(a.tamanho <= TamanhoMaximoArquivo, erros, if NomeDeSped(a.nome) then [] else [NomeSuspeito])
  }

  datatype Status = Aguardando | Processando | Concluido | Erro | Cancelado

  datatype Carregado = Carregado(arquivo: Arquivo, validacao: Validacao)

  /** What the processing of one file keeps: its metadata and the parsed and extracted content, left abstract. */
  datatype Dados = Dados(tipoSped: string, nomeArquivo: string, tamanhoArquivo: nat, conteudo: string)

  /** `processarArquivoSped`: the data of the file, or the message of the error it threw. */
  datatype Processamento = Processado(dados: Dados) | Falhou(mensagem: string)

  /** An entry of `errosProcessamento`; the timestamp is left out. */
  datatype ErroProcessamento = ErroProcessamento(tipo: string, erro: string)

  /** The SPED types in order without one of them. */
  function Remover(tipos: seq<string>, t: string): (r: seq<string>)
    ensures forall x :: x in r <==> x in tipos && x != t
    ensures Distintos(tipos) ==> Distintos(r)
    decreases |tipos|
  {
    if |tipos| == 0 then []
    else
      var q := Remover(tipos[..|tipos| - 1], t);
      assert forall x | x in tipos[..|tipos| - 1] :: x in tipos;
      assert forall x | x in tipos :: x in tipos[..|tipos| - 1] || x == tipos[|tipos| - 1];
      DistintosAntes(tipos);
      if tipos[|tipos| - 1] == t then q
      else
        DistintosMais(q, tipos[|tipos| - 1]);
        q + [tipos[|tipos| - 1]]
  }

  lemma {:induction false} DistintosAntes(s: seq<string>)
    requires |s| > 0
    ensures Distintos(s) ==> Distintos(s[..|s| - 1]) && s[|s| - 1] !in s[..|s| - 1]
  {
  }

  lemma {:induction false} DistintosMais(s: seq<string>, x: string)
    ensures Distintos(s) && x !in s ==> Distintos(s + [x])
  {
    if Distintos(s) && x !in s {
      forall i, j | 0 <= i < j < |s + [x]| ensures (s + [x])[i] != (s + [x])[j] {
        if j == |s| {
          assert (s + [x])[i] == s[i];
        } else {
          assert (s + [x])[i] == s[i] && (s + [x])[j] == s[j];
        }
      }
    }
  }

  predicate Distintos(s: seq<string>)
  {
    forall i, j | 0 <= i < j < |s| :: s[i] != s[j]
  }

  /** `dadosProcessados` after the run: each type whose processing succeeded is stored under its name. */
  function Incorporar(dados: map<string, Dados>, tipos: seq<string>, processar: string -> Processamento): map<string, Dados>
    decreases |tipos|
  {
    if |tipos| == 0 then dados
    else
      var antes := Incorporar(dados, tipos[..|tipos| - 1], processar);
      var t := tipos[|tipos| - 1];
      if processar(t).Processado? then antes[t := processar(t).dados] else antes
  }

  /** `errosProcessamento` after the run: one entry per type whose processing failed, in order. */
  function Falhas(tipos: seq<string>, processar: string -> Processamento): seq<ErroProcessamento>
    decreases |tipos|
  {
    if |tipos| == 0 then []
    else
      var t := tipos[|tipos| - 1];
      Falhas(tipos[..|tipos| - 1], processar) + (if processar(t).Falhou? then [ErroProcessamento(t, processar(t).mensagem)] else [])
  }

  /** How many of the types were processed. */
  function Sucessos(tipos: seq<string>, processar: string -> Processamento): nat
    decreases |tipos|
  {
    if |tipos| == 0 then 0
    else Sucessos(tipos[..|tipos| - 1], processar) + (if processar(tipos[|tipos| - 1]).Processado? then 1 else 0)
  }

  function ErrosDe(erros: seq<ErroProcessamento>, t: string): nat
    decreases |erros|
  {
    if |erros| == 0 then 0 else ErrosDe(erros[..|erros| - 1], t) + (if erros[|erros| - 1].tipo == t then 1 else 0)
  }

  lemma {:induction false} ErrosDeConcat(a: seq<ErroProcessamento>, b: seq<ErroProcessamento>, t: string)
    ensures ErrosDe(a + b, t) == ErrosDe(a, t) + ErrosDe(b, t)
    decreases |b|
  {
    if |b| == 0 {
      assert a + b == a;
    } else {
      assert (a + b)[..|a + b| - 1] == a + b[..|b| - 1];
      ErrosDeConcat(a, b[..|b| - 1], t);
    }
  }

  /**
   * Every loaded type ends up in exactly one place: its data in `dadosProcessados` when processing
   * succeeded, exactly one entry in `errosProcessamento` when it failed; other entries are kept.
   */
  lemma {:induction false} CadaTipoUmDestino(dados: map<string, Dados>, tipos: seq<string>, processar: string -> Processamento, t: string)
    requires Distintos(tipos)
    ensures t in tipos && processar(t).Processado? ==> t in Incorporar(dados, tipos, processar) && Incorporar(dados, tipos, processar)[t] == processar(t).dados
    ensures t in tipos && processar(t).Falhou? ==> ErrosDe(Falhas(tipos, processar), t) == 1
    ensures t !in tipos ==> ErrosDe(Falhas(tipos, processar), t) == 0
    ensures t !in tipos ==> (t in Incorporar(dados, tipos, processar) <==> t in dados)
    ensures t !in tipos && t in dados ==> Incorporar(dados, tipos, processar)[t] == dados[t]
    decreases |tipos|
  {
    if |tipos| > 0 {
      var q := tipos[..|tipos| - 1];
      var u := tipos[|tipos| - 1];
      assert Distintos(q);
      assert u !in q;
      assert forall x | x in tipos :: x in q || x == u;
      CadaTipoUmDestino(dados, q, processar, t);
      var novo: seq<ErroProcessamento> := if processar(u).Falhou? then [ErroProcessamento(u, processar(u).mensagem)] else [];
      ErrosDeConcat(Falhas(q, processar), novo, t);
      assert novo == [] || novo[..0] == [];
    }
  }

  /** Each type goes one way or the other, so successes and failures add up to the types processed. */
  lemma {:induction false} SucessosEFalhas(dados: map<string, Dados>, tipos: seq<string>, processar: string -> Processamento)
    requires Distintos(tipos)
    requires forall t | t in tipos :: t !in dados
    ensures Sucessos(tipos, processar) + |Falhas(tipos, processar)| == |tipos|
    ensures |Incorporar(dados, tipos, processar)| == |dados| + Sucessos(tipos, processar)
    decreases |tipos|
  {
    if |tipos| > 0 {
      var q := tipos[..|tipos| - 1];
      var u := tipos[|tipos| - 1];
      assert Distintos(q) && u !in q;
      SucessosEFalhas(dados, q, processar);
      CadaTipoUmDestino(dados, q, processar, u);
    }
  }

  /** `gerarEstatisticasImportacao`: the counts, whether the run finished, and the types imported. */
  datatype Estatisticas = Estatisticas(
    arquivosCarregados: nat, arquivosProcessados: nat, errosEncontrados: nat, concluido: bool, tiposSpedImportados: set<string>)

  /** The controller and its `estadoImportacao`. */
  class Controlador {
    var arquivosCarregados: map<string, Carregado>
    /** The order of `Object.keys(arquivosCarregados)`: insertion order, an update keeping its place. */
    var ordemCarregados: seq<string>
    var dadosProcessados: map<string, Dados>
    var errosProcessamento: seq<ErroProcessamento>
    var statusAtual: Status
    var progressoTotal: real

    ghost predicate Valid()
      reads this
    {
      && (forall t :: t in arquivosCarregados <==> t in ordemCarregados)
      && Distintos(ordemCarregados)
    }

    /** The state `limparEstadoImportacao` sets. */
    predicate Limpo()
      reads this
    {
      && arquivosCarregados == map[] && ordemCarregados == [] && dadosProcessados == map[]
      && errosProcessamento == [] && statusAtual == Aguardando && progressoTotal == 0.0
    }

    constructor ()
      ensures Valid() && Limpo()
    {
      arquivosCarregados, ordemCarregados, dadosProcessados := map[], [], map[];
      errosProcessamento, statusAtual, progressoTotal := [], Aguardando, 0.0;
    }

    /** `limparEstadoImportacao`. */
    method LimparEstadoImportacao()
      modifies this
      ensures Valid() && Limpo()
    {
      arquivosCarregados, ordemCarregados, dadosProcessados := map[], [], map[];
      errosProcessamento, statusAtual, progressoTotal := [], Aguardando, 0.0;
    }

    /** `atualizarInterfaceProgresso`, its state: only `progressoTotal` changes. */
    method AtualizarInterfaceProgresso(progresso: real)
      modifies this
      ensures progressoTotal == progresso
      ensures arquivosCarregados == old(arquivosCarregados) && ordemCarregados == old(ordemCarregados)
      ensures dadosProcessados == old(dadosProcessados) && errosProcessamento == old(errosProcessamento)
      ensures statusAtual == old(statusAtual)
    {
      progressoTotal := progresso;
    }

    /**
     * `validarArquivoSelecionado`: nothing without a file; otherwise the first file is validated and
     * stored under its SPED type when valid, and any earlier file of that type is dropped when not.
     */
    method ValidarArquivoSelecionado(tipoSped: string, arquivos: seq<Arquivo>) returns (validacao: Option<Validacao>)
      requires Valid()
      modifies this
      ensures Valid()
      ensures |arquivos| == 0 ==> validacao.None? && arquivosCarregados == old(arquivosCarregados) && ordemCarregados == old(ordemCarregados)
      ensures |arquivos| > 0 ==> validacao == Some(Validar(arquivos[0]))
      ensures |arquivos| > 0 && validacao.value.valido ==>
        && arquivosCarregados == old(arquivosCarregados)[tipoSped := Carregado(arquivos[0], validacao.value)]
        && ordemCarregados == (if tipoSped in old(arquivosCarregados) then old(ordemCarregados) else old(ordemCarregados) + [tipoSped])
      ensures |arquivos| > 0 && !validacao.value.valido ==>
        && arquivosCarregados == old(arquivosCarregados) - {tipoSped}
        && ordemCarregados == Remover(old(ordemCarregados), tipoSped)
      ensures dadosProcessados == old(dadosProcessados) && errosProcessamento == old(errosProcessamento)
      ensures statusAtual == old(statusAtual) && progressoTotal == old(progressoTotal)
    {
      if |arquivos| == 0 {
        return None;
      }
      var v := Validar(arquivos[0]);
      validacao := Some(v);
      if v.valido {
        if tipoSped !in arquivosCarregados {
          ordemCarregados := ordemCarregados + [tipoSped];
        }
        arquivosCarregados := arquivosCarregados[tipoSped := Carregado(arquivos[0], v)];
      } else {
        arquivosCarregados := arquivosCarregados - {tipoSped};
        ordemCarregados := Remover(ordemCarregados, tipoSped);
      }
    }

    /** `cancelarImportacao`: whatever the status, the state ends reset; an intermediate `'cancelado'` is overwritten. */
    method CancelarImportacao()
      modifies this
      ensures Valid() && Limpo()
    {
      if statusAtual == Processando {
        statusAtual := Cancelado;
      }
      LimparEstadoImportacao();
      AtualizarInterfaceProgresso(0.0);
    }

    /** The loop of `iniciarProcessoImportacao` over the loaded types; the progress after k processed files of n is k/n·50. */
    method ProcessarCarregados(processar: string -> Processamento)
      requires Valid() && |ordemCarregados| > 0
      modifies this
      ensures Valid()
      ensures arquivosCarregados == old(arquivosCarregados) && ordemCarregados == old(ordemCarregados)
      ensures dadosProcessados == Incorporar(old(dadosProcessados), ordemCarregados, processar)
      ensures errosProcessamento == old(errosProcessamento) + Falhas(ordemCarregados, processar)
      ensures progressoTotal == Sucessos(ordemCarregados, processar) as real / |ordemCarregados| as real * 50.0
      ensures statusAtual == old(statusAtual)
    {
      var tipos := ordemCarregados;
      var total := |tipos|;
      var processados := 0;
      progressoTotal := 0.0;
      var i := 0;
      while i < total
        invariant 0 <= i <= total
        invariant arquivosCarregados == old(arquivosCarregados) && ordemCarregados == tipos && statusAtual == old(statusAtual)
        invariant processados == Sucessos(tipos[..i], processar)
        invariant dadosProcessados == Incorporar(old(dadosProcessados), tipos[..i], processar)
        invariant errosProcessamento == old(errosProcessamento) + Falhas(tipos[..i], processar)
        invariant progressoTotal == processados as real / total as real * 50.0
      {
        assert tipos[..i + 1][..i] == tipos[..i];
        assert tipos[..i + 1][i] == tipos[i];
        ProcessarUm(tipos[i], processar);
        if processar(tipos[i]).Processado? {
          processados := processados + 1;
          progressoTotal := processados as real / total as real * 50.0;
        }
        i := i + 1;
      }
      assert tipos[..total] == tipos;
    }

    /** One turn of the loop: the file's data stored, or one error appended. */
    method ProcessarUm(t: string, processar: string -> Processamento)
      modifies this
      ensures dadosProcessados == (if processar(t).Processado? then old(dadosProcessados)[t := processar(t).dados] else old(dadosProcessados))
      ensures errosProcessamento == old(errosProcessamento) + (if processar(t).Falhou? then [ErroProcessamento(t, processar(t).mensagem)] else [])
      ensures arquivosCarregados == old(arquivosCarregados) && ordemCarregados == old(ordemCarregados)
      ensures statusAtual == old(statusAtual) && progressoTotal == old(progressoTotal)
    {
      match processar(t)
      case Processado(dados) =>
        dadosProcessados := dadosProcessados[t := dados];
      case Falhou(mensagem) =>
        errosProcessamento := errosProcessamento + [ErroProcessamento(t, mensagem)];
    }

    /**
     * `iniciarProcessoImportacao`, its state transitions. `processar` stands for the parsing and
     * extraction of each file and `falhaIntegracao` for an error thrown while consolidating the data or
     * integrating them with the simulator.
     */
    method IniciarProcessoImportacao(processar: string -> Processamento, falhaIntegracao: bool)
      requires Valid()
      modifies this
      ensures Valid()
      ensures arquivosCarregados == old(arquivosCarregados) && ordemCarregados == old(ordemCarregados)
      ensures |ordemCarregados| == 0 ==>
        && statusAtual == Erro && progressoTotal == 0.0
        && dadosProcessados == old(dadosProcessados) && errosProcessamento == old(errosProcessamento)
      ensures |ordemCarregados| > 0 ==>
        && dadosProcessados == Incorporar(old(dadosProcessados), ordemCarregados, processar)
        && errosProcessamento == Falhas(ordemCarregados, processar)
        && (falhaIntegracao ==> statusAtual == Erro && progressoTotal == 0.0)
        && (!falhaIntegracao ==> statusAtual == Concluido && progressoTotal == 100.0)
      ensures |ordemCarregados| > 0 && old(dadosProcessados) == map[] ==>
        |dadosProcessados| + |errosProcessamento| == |arquivosCarregados|
    {
      if |ordemCarregados| == 0 {
        statusAtual := Erro;
        AtualizarInterfaceProgresso(0.0);
        return;
      }
      statusAtual := Processando;
      progressoTotal := 0.0;
      errosProcessamento := [];
      ghost var antes := dadosProcessados;
      ProcessarCarregados(processar);
      assert errosProcessamento == Falhas(ordemCarregados, processar);
      AtualizarInterfaceProgresso(60.0);
      AtualizarInterfaceProgresso(80.0);
      if falhaIntegracao {
        statusAtual := Erro;
        AtualizarInterfaceProgresso(0.0);
      } else {
        statusAtual := Concluido;
        AtualizarInterfaceProgresso(100.0);
      }
      if antes == map[] {
        SucessosEFalhas(antes, ordemCarregados, processar);
        assert |arquivosCarregados| == |ordemCarregados| by {
          CardinalidadeDasChaves(arquivosCarregados.Keys, ordemCarregados);
        }
      }
    }

    /**
     * `gerarResumoImportacao`: processed over loaded, then "com N erro(s)" only when there are errors;
     * the head, the tail and the length together fix the whole text.
     */
    function GerarResumoImportacao(): (r: string)
      reads this
      ensures StartsWith(r, Decimal(|dadosProcessados|) + "/" + Decimal(|arquivosCarregados|) + " arquivo(s) processado(s) ")
      ensures |errosProcessamento| > 0 ==> EndsWith(r, "com " + Decimal(|errosProcessamento|) + " erro(s)")
      ensures |errosProcessamento| == 0 ==> EndsWith(r, "com sucesso")
      ensures |r| == |Decimal(|dadosProcessados|) + "/" + Decimal(|arquivosCarregados|) + " arquivo(s) processado(s) "|
        + (if |errosProcessamento| > 0 then |"com " + Decimal(|errosProcessamento|) + " erro(s)"| else |"com sucesso"|)
    {
      var cabeca := Decimal(|dadosProcessados|) + "/" + Decimal(|arquivosCarregados|) + " arquivo(s) processado(s) ";
      var cauda := if |errosProcessamento| > 0 then "com " + Decimal(|errosProcessamento|) + " erro(s)" else "com sucesso";
      assert (cabeca + cauda)[..|cabeca|] == cabeca;
      assert (cabeca + cauda)[|cabeca + cauda| - |cauda|..] == cauda;
      cabeca + cauda
    }

    /** `gerarEstatisticasImportacao`. */
    function GerarEstatisticasImportacao(): (e: Estatisticas)
      reads this
      ensures e.arquivosCarregados == |arquivosCarregados| && e.arquivosProcessados == |dadosProcessados|
      ensures e.errosEncontrados == |errosProcessamento| && e.tiposSpedImportados == dadosProcessados.Keys
      ensures e.concluido <==> progressoTotal == 100.0
    {
      Estatisticas(|arquivosCarregados|, |dadosProcessados|, |errosProcessamento|, progressoTotal == 100.0, dadosProcessados.Keys)
    }
  }

  /** A text with a given head and tail and exactly their combined length is the head followed by the tail. */
  lemma CabecaECauda(r: string, cabeca: string, cauda: string)
    requires StartsWith(r, cabeca) && EndsWith(r, cauda) && |r| == |cabeca| + |cauda|
    ensures r == cabeca + cauda
  {
  }

  /** A set holding exactly the strings listed, each once, has as many elements as the list. */
  lemma {:induction false} CardinalidadeDasChaves(chaves: set<string>, lista: seq<string>)
    requires forall t :: t in chaves <==> t in lista
    requires Distintos(lista)
    ensures |chaves| == |lista|
    decreases |lista|
  {
    if |lista| == 0 {
      assert chaves == {};
    } else {
      var u := lista[|lista| - 1];
      var q := lista[..|lista| - 1];
      DistintosAntes(lista);
      assert forall x | x in lista :: x in q || x == u;
      CardinalidadeDasChaves(chaves - {u}, q);
    }
  }
}
