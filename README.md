# Split-payment simulator: SPED import and tax helpers, modelled in Dafny

This project models the computational core of a Brazilian split-payment tax-reform simulator. The simulator reads the SPED flat files that companies deliver to the Receita Federal: EFD ICMS/IPI (fiscal), EFD-Contribuições, ECF and ECD. These are pipe-delimited text files, one record per line, each line opening with a record code such as `0000`, `C100`, `C170`, `E110`, `M200` or `J100`. From them the simulator builds the company profile, the tax composition and the cash-cycle parameters of the simulation. The model covers:

- **`SpedParser`** (`sped_parser.dfy`). The first-generation parser, class `SpedParserAprimorado`. It detects the kind of file, binds positional fields to the record layouts, and appends the records per record code. It then extracts the fiscal and contributions tax totals, the effective rates and the financial indicators. It also models the stand-alone file validation.
- **`SpedParserTyped`** (`sped_parser_typed.dfy`). The second-generation parser. It detects the kind of file, converts each mapped record into a typed object (defaults for missing fields, monetary conversion), and routes every object into its bucket (`integrarDados`). It then relates items to documents and participants, and derives the accounting totals.
- **`SpedExtractor`** (`sped_extractor.dfy`). The first-generation extractor.
  - It builds the company information and the tax composition (class `ComposicaoTributaria`): gross revenue, debits and credits per tax, the net taxes and the effective rates.
  - It covers the 2026-2033 transition schedule and its yearly projection, the cash-cycle indicators (class `CicloFinanceiro`) and the data-quality score.
- **`SpedExtractorTyped`** (`sped_extractor_typed.dfy`). The second-generation extractor. It classifies the company kind, tax regime, VAT sector and kind of operation. It also gives the monthly PIS, COFINS, ICMS, IPI and ISS debits and credits with their estimates, the net-rate block and the financial cycle.
- **`ImportacaoController`** (`importacao_controller.dfy`). The import controller's state (class `Controlador`): file acceptance, the loaded and processed maps, the error list, the status and the progress, with the summary and statistics it reports.
- **`CreditosTributarios`** (`creditos_tributarios.dfy`). The tax-credit form (class `Formulario`): the PIS/COFINS, ICMS and IPI credit formulas, the totals, the clearing of the credit fields, the PIS/COFINS debits and the individual effective rates. It includes the flag that keeps the calculation from re-entering itself, and the currency text a field shows with the way the total reads that text back.
- **`Principal`** (`main_helpers.dfy`). The pure helpers of the main script: the dotted property-path lookup, the safe per-year data, the synthesis of the export structure, the transition-table rows, the log-filter visibility rule and the merge of SPED data into a JSON copy of the form data.
- **`ReorderPanels`** (`reorder_panels.dfy`). The one-off script that restructures the simulator's page into two columns. It extracts each input panel as a balanced `<div>` region, re-indents the regions line by line, and splices the new block between the untouched prefix and suffix.
- **`JsText`** and **`JsNumber`** (`js_text.dfy`, `js_number.dfy`). The JavaScript built-ins the code relies on:
  - `startsWith`, `includes`, `split`, `join`, `trim`, `toLowerCase`, string comparison and `replace`;
  - the falsy fallback `a || b`, `parseFloat` and `parseInt` on decimal text, and `Math.round`, `Math.max` and `Math.min`.

Conventions of the model:

- **Numbers.** Money and rates are `real`, so arithmetic is exact.
- **JavaScript values.** A JavaScript value is the `JsVal` datatype (undefined, null, number, NaN, string, boolean). `a || b` falls back on every falsy value.
- **Objects and records.** A plain object read by property name is a `map<string, ...>`. The parsed records of the second generation are such maps of `JsVal`.
- **State.** Objects whose fields the source updates in place are classes: the first parser, the first extractor's composition and cycle, the second parser's result, the controller, the credit form and the simulation result. Their methods state the whole new state.
- **Loops.** Loops in the source are methods with loop invariants, proved against recursive reference functions. The properties the source promises are then proved about those functions.
- **Parameters.** I/O, the DOM, the clock and the code each module calls but does not define become parameters:
  - the monthly revenue of the second extractor;
  - the processing result of each file in the controller;
  - the form inputs of the credit form.
- **`parseFloat`.** `parseFloat` is defined concretely on decimal text: leading white space, an optional sign, digits and one optional point. This lets the number cleaning that precedes it be proved end to end.

## Model

| member | source | states |
|---|---|---|
| SpedParser.LinhasSemQuebra | js/importador/sped-parser.js:627 | Splitting the text at line feeds (an optional carriage return before each dropped) leaves no line feed inside any line. |
| SpedParser.IdentificarTipoSped | js/importador/sped-parser.js:626-658 | Among the first 20 lines, the first one with at least three fields whose record says something decides: `0000` with purpose 0/1 is fiscal, 2/3 is contributions, `J001` is ECF, `I001` is ECD; the result is none exactly when no such line exists. |
| SpedParser.BindFields | js/importador/sped-parser.js:729-733 | Binding a layout to the fields of a line defines exactly the first min(layout, fields) names, and a name not repeated later holds the trimmed text of its own position. |
| SpedParser.LinhaRegistroComoEscrito | js/importador/sped-parser.js:714-736 | The record as the code builds it, the layout's i-th name taking field i of the split line; a record is produced only for a code with a layout and keeps the line itself. |
| SpedParser.CampoDeslocado | js/importador/sped-parser.js:729-733 | On a C100 line whose fields are the empty text, `C100`, `0` and the empty text, the code gives `REG` the empty text and `IND_OPER` the text `C100`: every field lands one name too early, because field 0 is the empty text before the leading pipe. |
| SpedParser.CampoDeslocadoEm | js/importador/sped-parser.js:714-736 | The same shift on every line that splits into those four fields, under every C100 layout that begins `REG`, `IND_OPER`, `IND_EMIT`, `COD_PART`. |
| SpedParser.LinhaRegistro | js/importador/sped-parser.js:714-736 | The intended record: the layout's names bound to the fields from field 1 on; a record exists only for a code with a layout and keeps its line. |
| SpedParser.RegGuardaCodigo | js/importador/sped-parser.js:714-736 | With the intended binding, a layout that starts with `REG` (and has no other `REG`) gives a record whose `REG` field is its trimmed record code. |
| SpedParser.ProcessarLinha | js/importador/sped-parser.js:714-736 | The loop that fills the record's fields yields the record of the line under the intended binding of the Findings table, where each name takes the field after the leading empty one; it does not give the shifted record the code builds. |
| SpedParser.AdicionarListas | js/importador/sped-parser.js:738-746 | Adding a record creates the list of its code when missing, appends its fields at the end of it, and leaves every other code's list alone. |
| SpedParser.AdicionarTodosListas | js/importador/sped-parser.js:738-746 | After adding several records, each code's list is its old list followed by the fields of that code's records, in file order. |
| SpedParser.Encontrados | js/importador/sped-parser.js:677-685 | The count of lines looked at (trimmed, at least 5 characters) never exceeds the lines read. |
| SpedParser.Extraido | js/importador/sped-parser.js:677-684 | A line yields at most one record, bound as intended, and none when it is not looked at. |
| SpedParser.ExtraidosLimite | js/importador/sped-parser.js:677-685 | The valid records never outnumber the lines looked at. |
| SpedParser.FormatarData | js/importador/sped-parser.js:881-889 | A date text of any length other than 8 gives the empty text; an 8-character text gives a 10-character `YYYY-MM-DD` with dashes at positions 4 and 7. |
| SpedParser.FormatarDataInversa | js/importador/sped-parser.js:881-889 | Reading day, month and year back out of the formatted date gives the original `DDMMYYYY` text. |
| SpedParser.ConverterParaNumero | js/importador/sped-parser.js:891-898 | Empty text and text `parseFloat` cannot read both give 0. |
| SpedParser.ConverterIgnoraPontos | js/importador/sped-parser.js:891-898 | Thousands separators do not matter: deleting every point first gives the same number. |
| SpedParser.ConverterDecimal | js/importador/sped-parser.js:891-898 | A Brazilian decimal `w,f` of digits reads as the integer part w plus f shifted by its length (`1234,56` is 1234.56). |
| SpedParser.SomarNeutro | js/importador/sped-parser.js:244-258 | Adding to the zeroed debit and credit totals gives the amounts added, and adding is associative, so the order of the passes does not change a total. |
| SpedParser.CanceladoNaoConta | js/importador/sped-parser.js:309-334 | A C100 document with situation 02, 03 or 04 adds neither debits nor credits. |
| SpedParser.ListasFiscalC100 | js/importador/sped-parser.js:289-356 | Replacing the C100 list leaves the E110, E210 and C170 lists the fiscal extraction reads untouched. |
| SpedParser.EntradaCredita | js/importador/sped-parser.js:317-323 | A valid incoming C100 (`IND_OPER` 0) adds its ICMS, IPI, PIS and COFINS to the credits and adds no debit. |
| SpedParser.SaidaDebita | js/importador/sped-parser.js:324-330 | A valid outgoing C100 (`IND_OPER` 1) adds only its PIS and COFINS, to the debits; its ICMS is left to E110. |
| SpedParser.ItemCstCredita | js/importador/sped-parser.js:337-355 | A C170 item credits PIS (COFINS) exactly when its PIS (COFINS) CST lies between `'50'` and `'66'` in string order; it never adds debits, ICMS or IPI. |
| SpedParser.CstFaixa | js/importador/sped-parser.js:346-353 | The comparison is on text: `'70'`, `'49'` and `''` give no credit; `'50'`, `'66'`, `'6'` and `'501'` do. |
| SpedParser.Liquido | js/importador/sped-parser.js:439-443 | Net tax is debit minus credit when that is positive and 0 otherwise; it is never negative. |
| SpedParser.AliquotasProporcionais | js/importador/sped-parser.js:432-455 | For a positive turnover each effective rate times the turnover is 100 times that tax's net amount, every rate is non-negative, and the total rate is the sum of the five. |
| SpedParser.Indicadores | js/importador/sped-parser.js:838-855 | A zero net revenue with a positive gross revenue becomes 95% of the gross; operating profit is net revenue minus costs and expenses; the margin times a positive net revenue is 100 times the profit, and is kept otherwise. |
| SpedParser.IndicadoresIdempotente | js/importador/sped-parser.js:838-855 | Computing the indicators twice is computing them once. |
| SpedParser.Faturamento | js/importador/sped-parser.js:433-435 | The turnover is the financial gross revenue when non-zero, else the company's, else the sum of `VL_DOC` over the outgoing C100 documents. |
| SpedParser.SpedParserAprimorado.constructor | js/importador/sped-parser.js:144-160 | A new parser has no records, zero counters, no file kind and zeroed taxes, rates and figures. |
| SpedParser.SpedParserAprimorado.AdicionarRegistro | js/importador/sped-parser.js:738-746 | The record map becomes the old map with the record added to its code's list. |
| SpedParser.SpedParserAprimorado.ProcessarLinhas | js/importador/sped-parser.js:660-697 | Every line is counted as read, the lines looked at are counted as found, the records they yield, bound as intended, are counted as valid and added in file order, and the counters stay ordered valid ≤ found ≤ read. |
| SpedParser.SpedParserAprimorado.ProcessarTodas | js/importador/sped-parser.js:668-694 | The loop over the lines, with the same counters and records as above. |
| SpedParser.SpedParserAprimorado.ProcessarUmaLinha | js/importador/sped-parser.js:669-685 | One line adds 1 to the lines read, 1 to the lines found when it is looked at, and its record, bound as intended, if any, to the records and the valid count. |
| SpedParser.SpedParserAprimorado.ExtrairTributariosFiscal | js/importador/sped-parser.js:289-356 | The debits and credits grow by the fiscal file's E110, E210, C100 and C170 amounts read from records bound as intended, and the sources by one label per record type present. |
| SpedParser.SpedParserAprimorado.ExtrairTributariosContribuicoes | js/importador/sped-parser.js:361-427 | The PIS and COFINS debits and credits grow by the M200, M600, M100, M500, C170 and F100 amounts, and the sources by one label per record type present (C170 never labelled). |
| SpedParser.SpedParserAprimorado.CalcularFaturamentoBase | js/importador/sped-parser.js:857-879 | A positive financial revenue, else a positive company revenue, else the outgoing C100 document totals. |
| SpedParser.SpedParserAprimorado.CalcularAliquotasEfetivas | js/importador/sped-parser.js:432-455 | With a positive turnover the rates become the net taxes as percentages of it; otherwise they are left as they were. |
| SpedParser.SpedParserAprimorado.ExtrairDadosTributarios | js/importador/sped-parser.js:241-284 | Debits, credits and sources become those of the file's kind computed from zero (only fiscal and contributions files add any), and the rates those of the turnover, or zero when it is not positive. |
| SpedParser.SpedParserAprimorado.ExtrairPorTipo | js/importador/sped-parser.js:270-278 | From zeroed totals, the switch on the file kind gives that kind's debits, credits and sources. |
| SpedParser.SpedParserAprimorado.CalcularIndicadoresFinanceiros | js/importador/sped-parser.js:838-855 | The financial figures become their indicators. |
| SpedParser.TributosFiscal | js/importador/sped-parser.js:291-355 | The passes over E110, E210, C100 and C170 give the fiscal debits and credits. |
| SpedParser.RegistrarFontesFiscal | js/importador/sped-parser.js:291-334 | The fiscal sources are the labels of E110, E210 and C100, in that order, for those present. |
| SpedParser.TributosContribuicoes | js/importador/sped-parser.js:363-426 | The passes over M200, M600, M100, M500, C170 and F100 give the contributions debits and credits. |
| SpedParser.RegistrarFontesContribuicoes | js/importador/sped-parser.js:363-426 | The contributions sources are the labels of M200, M600, M100, M500 and F100, in that order, for those present. |
| SpedParser.SomarPar | js/importador/sped-parser.js:291-305 | One pass over a record list gives the two filtered field sums (the E110 and E210 debit and credit totals). |
| SpedParser.SomarC100 | js/importador/sped-parser.js:309-334 | The C100 pass: cancelled documents skipped, incoming ones summed into the credits, outgoing ones into the PIS/COFINS debits. |
| SpedParser.SomarF100 | js/importador/sped-parser.js:410-426 | The F100 pass: incoming operations summed into the credits, outgoing ones into the debits. |
| SpedParser.SemLayoutM500 | js/importador/sped-parser.js:44-89 | The contributions layouts have no entry for M500. |
| SpedParser.LinhaM500Ignorada | js/importador/sped-parser.js:389-394 | Hence no M500 line ever becomes a record, and the M500 credit pass never adds anything. |
| SpedParser.ValidarArquivoSped | js/importador/sped-parser.js:961-983 | A file is valid exactly when its size is positive and at most 500 MB, with at most one error (empty or too large); a warning carries the extension exactly when it is neither `txt` nor `sped`. |
| SpedParser.ErrosExpostos | js/importador/sped-parser.js:935 | The result shows the first 50 errors: all of them when there are at most 50. |
| SpedParserTyped.TipoDeNome | js/importador/importador/sped-parser.js:7-56 | A kind name is a key of the record table exactly when it is `fiscal`, `contribuicoes`, `ecf` or `ecd`, and each names its own kind. |
| SpedParserTyped.DeterminarTipoSped | js/importador/importador/sped-parser.js:323-352 | Among the first 20 lines, the first `0000` line that names a kind decides (purpose field 9 is 0 for fiscal or 1 for contributions, else field 5 is `ECF` or `ECD`); none exactly when no such line exists. |
| SpedParserTyped.TipoDetectadoPrimeiro | js/importador/importador/sped-parser.js:323-352 | The detected kind is none exactly when no line names a kind, and otherwise it is the kind of the first line that names one. |
| SpedParserTyped.DetectadoPeloMetodo | js/importador/importador/sped-parser.js:323-352 | Any answer meeting the contract of the detection loop is the detected kind of the first 20 lines, so the loop and its reference definition agree. |
| SpedParserTyped.TipoEfetivo | js/importador/importador/sped-parser.js:119-129 | A given kind is used when it is a known one; an unknown given kind falls back to fiscal; with no kind given the detected one is used, and fiscal when none is detected. |
| SpedParserTyped.CampoEm | js/importador/importador/sped-parser.js:362-367 | A field position holds text exactly when it lies inside the line. |
| SpedParserTyped.ValidarCampo | js/importador/importador/sped-parser.js:362-367 | A missing position and an empty field both give the default; any other field gives itself. |
| SpedParserTyped.NumeroDe | js/importador/importador/sped-parser.js:379 | `parseFloat` gives a number or NaN. |
| SpedParserTyped.ConverterSemTexto | js/importador/importador/sped-parser.js:374-382 | A value that is not non-empty text converts to 0. |
| SpedParserTyped.ConverterVirgula | js/importador/importador/sped-parser.js:374-382 | A decimal `w,f` of digits converts to w plus f shifted by its length. |
| SpedParserTyped.SeguraNaoFalha | js/importador/importador/sped-parser.js:362-367 | A property built only from checked field reads (`validarCampo`, the money conversion, constants) never throws. |
| SpedParserTyped.MontarChaves | js/importador/importador/sped-parser.js:438-453 | An object literal is built exactly when none of its properties throws, and then its keys are exactly the layout's names. |
| SpedParserTyped.MontarValor | js/importador/importador/sped-parser.js:438-453 | A property not named again later holds its own computed value. |
| SpedParserTyped.Parse | js/importador/importador/sped-parser.js:389-391 | Below the least number of fields a record parser gives `null`; otherwise it gives the object exactly when building it does not throw. |
| SpedParserTyped.ParseN500 | js/importador/importador/sped-parser.js:706-737 | An N500 line whose account code is not `3.03`, `3.05`, `3.01` or `3.11` gives `null`. |
| SpedParserTyped.SeguroNaoFalha | js/importador/importador/sped-parser.js:432-458 | A layout whose properties all read checked fields never throws, whatever the line. |
| SpedParserTyped.C100Minimo | js/importador/importador/sped-parser.js:432-458 | The fiscal C100 parser gives `null` for fewer than 13 fields and a document for 13 or more. |
| SpedParserTyped.C170Falha | js/importador/importador/sped-parser.js:460-472 | A C170 item throws exactly when the line has fewer than 8 fields, that is when the quantity or the value field is missing. |
| SpedParserTyped.ContaTemCodigo | js/importador/importador/sped-parser.js:821-846 | A balance-sheet or income-statement account line gives an object of its own kind carrying its code and its name as text and a numeric final balance. |
| SpedParserTyped.ComDestino | js/importador/importador/sped-parser.js:1044-1048 | The records bound for one destination never outnumber the records. |
| SpedParserTyped.IntegrarSemTipo | js/importador/importador/sped-parser.js:1044-1048 | Records without a `tipo` of the switch change nothing, however many there are. |
| SpedParserTyped.IntegrarTodosLista | js/importador/importador/sped-parser.js:1059-1073 | Each list bucket (documents aside) ends as its old contents followed by the records routed to it, in the order read. |
| SpedParserTyped.ListaPasso | js/importador/importador/sped-parser.js:1071-1073 | One record is appended to the list bucket of its `tipo` and to no other. |
| SpedParserTyped.GrupoPasso | js/importador/importador/sped-parser.js:1075-1122 | One record is appended to `bucket[categoria]` of the group it is routed to, creating the list when missing, and to no other list. |
| SpedParserTyped.IntegrarTodosGrupo | js/importador/importador/sped-parser.js:1075-1122 | Each per-category list holds its old contents followed by the records routed to it, in the order read. |
| SpedParserTyped.CreditosCompartilhados | js/importador/importador/sped-parser.js:1110-1116 | A `credito` and a `credito_detalhe` of the same category end in the same list, in that order. |
| SpedParserTyped.DebitoIcms | js/importador/importador/sped-parser.js:1089-1108 | An ICMS `imposto` carrying a debit total is appended to `debitos.icms` re-tagged as a `debito`, and the `impostos` buckets are left alone. |
| SpedParserTyped.IntegrarTodosIndice | js/importador/importador/sped-parser.js:1126-1150 | `regimes`, `dre` and the IRPJ/CSLL calculations keep, for each key, the last record stored under it, and keep the old entry when no record names the key. |
| SpedParserTyped.IndicePasso | js/importador/importador/sped-parser.js:1126-1150 | One record overwrites the entry of its own key and leaves every other key as it was. |
| SpedParserTyped.DocumentosDe | js/importador/importador/sped-parser.js:1059-1063 | The documents kept are at most the records, and none has items or a participant attached yet. |
| SpedParserTyped.ItensDe | js/importador/importador/sped-parser.js:1065-1069 | The items kept are at most the records. |
| SpedParserTyped.IntegrarTodosDocumentos | js/importador/importador/sped-parser.js:1059-1069 | Documents with `indOper` and items with an id or a description are appended in the order read, and no others. |
| SpedParserTyped.IntegrarTodosEmpresa | js/importador/importador/sped-parser.js:1052-1057 | The company's property k is the one of the last company record that names the company (by name or CNPJ) and has k; later records override earlier ones. |
| SpedParserTyped.ObjetoDaLinha | js/importador/importador/sped-parser.js:133-161 | A line gives at most one record object. |
| SpedParserTyped.Objetos | js/importador/importador/sped-parser.js:133-161 | The lines give at most one object each. |
| SpedParserTyped.C100CurtoIgnorado | js/importador/importador/sped-parser.js:432-436 | A C100 line with fewer than 13 fields is never integrated. |
| SpedParserTyped.C170CurtoIgnorado | js/importador/importador/sped-parser.js:148-159 | A C170 line missing a quantity or a value field throws, is caught and is dropped. |
| SpedParserTyped.ObjetosConcat | js/importador/importador/sped-parser.js:133-161 | The objects of two runs of lines are those of each run, one after the other. |
| SpedParserTyped.LinhaSemObjeto | js/importador/importador/sped-parser.js:148-159 | A line that gives nothing (blank, unknown, `null` or thrown) does not stop the lines after it. |
| SpedParserTyped.ItensComChave | js/importador/importador/sped-parser.js:176-182 | The items of a key all have that key and are at most all the items. |
| SpedParserTyped.ItensPorDocumentoFiltra | js/importador/importador/sped-parser.js:174-182 | Each group of `itensPorDocumento` is exactly the items of its key in their original order, and a key has a group exactly when some item has it. |
| SpedParserTyped.PorCodigoUltimo | js/importador/importador/sped-parser.js:193-197 | A code is indexed exactly when some participant has it, and it names the last such participant. |
| SpedParserTyped.RelacionarItens | js/importador/importador/sped-parser.js:171-189 | Attaching the items keeps the number of documents. |
| SpedParserTyped.RelacionarParticipantes | js/importador/importador/sped-parser.js:192-204 | Attaching the participants keeps the number of documents. |
| SpedParserTyped.ItensDoDocumento | js/importador/importador/sped-parser.js:185-188 | When there are documents and items, each document's items are exactly the items carrying its id, in order, and its own fields are unchanged. |
| SpedParserTyped.ParticipanteDoDocumento | js/importador/importador/sped-parser.js:199-203 | A document whose participant code names a participant gets the last participant with that code; any other document is unchanged. |
| SpedParserTyped.SemIdNenhumItem | js/importador/importador/sped-parser.js:176-188 | A document gets an empty item list when no item names a document and it has no id of its own. |
| SpedParserTyped.SemChave | js/importador/importador/sped-parser.js:176-182 | No item is grouped under a key that no item has. |
| SpedParserTyped.SomaSaldoConcat | js/importador/importador/sped-parser.js:219-271 | Account totals add up across a split of the accounts. |
| SpedParserTyped.SomaSaldoMonotona | js/importador/importador/sped-parser.js:219-271 | A total over a more inclusive criterion is no smaller, when no balance is negative. |
| SpedParserTyped.SubGrupo | js/importador/importador/sped-parser.js:253-259 | An account of a sub-group `g.x` belongs to the group g. |
| SpedParserTyped.ReceitaBrutaNaLiquida | js/importador/importador/sped-parser.js:253-259 | Under prefix matching as written and under group matching alike, gross revenue (`3.1.1`) never exceeds net revenue (`3.1`) when no balance is negative. |
| SpedParserTyped.LucroNaReceitaComoEscrito | js/importador/importador/sped-parser.js:257-271 | As written, with prefix matching, an account `3.11` with a credit balance of 100 counts 100 in the net profit and 100 again in the net revenue. |
| SpedParserTyped.ReceitaSemLucro | js/importador/importador/sped-parser.js:257-271 | Read as groups, no account is both in `3.1` and in `3.11`, and the net profit account adds nothing to the net revenue. |
| SpedParserTyped.CapitalDeGiro | js/importador/importador/sped-parser.js:218-249 | Under either matching, once there are balance-sheet accounts, current assets, current liabilities, clients, stock and suppliers are the sums of the balances their criteria select, working capital is current assets less current liabilities, and nothing but the totals changes. |
| SpedParserTyped.Contabeis | js/importador/importador/sped-parser.js:217-272 | Only the totals change: the six balance-sheet totals are written exactly when there are balance-sheet accounts, the five income-statement totals exactly when there are income-statement accounts, and every other total keeps its value. |
| SpedParserTyped.TotaisBalanco | js/importador/importador/sped-parser.js:219-249 | The balance sheet adds its six totals and keeps every other total. |
| SpedParserTyped.TotaisResultado | js/importador/importador/sped-parser.js:252-271 | The income statement adds its five totals and keeps every other total. |
| SpedParserTyped.ResultadoPreservaBalanco | js/importador/importador/sped-parser.js:252-271 | Writing the income-statement totals leaves the balance-sheet totals as they were. |
| SpedParserTyped.TotaisDoResultado | js/importador/importador/sped-parser.js:252-271 | Under either matching, once there are income-statement accounts, gross and net revenue, gross profit, operating result and net profit are the sums of the balances their criteria select, and nothing but the totals changes. |
| SpedParserTyped.ReceitaLiquidaDasLeituras | js/importador/importador/sped-parser.js:257-271 | On a file whose only income-statement account is `3.11` with a credit balance of 100, the code as written reports a net revenue of 100 and the group reading a net revenue of 0. |
| SpedParserTyped.ExportacaoNoTotal | js/importador/importador/sped-parser.js:306-311 | Export revenue lies between 0 and the total revenue when no revenue is negative. |
| SpedParserTyped.PercentualExportacao | js/importador/importador/sped-parser.js:306-315 | With a non-empty revenue breakdown and no negative revenue, the export share is a fraction between 0 and 1. |
| SpedParserTyped.Fiscais | js/importador/importador/sped-parser.js:275-316 | Only the totals change: the incentive total is written exactly when there are incentives, and then as their sum; the IRPJ and CSLL rates exactly when that tax is calculated and the DRE has a net profit; the export share exactly when there is a revenue breakdown; every other total keeps its value. |
| SpedParserTyped.Resultado.constructor | js/importador/importador/sped-parser.js:100-116 | A new result holds the empty extraction. |
| SpedParserTyped.Resultado.IntegrarDados | js/importador/importador/sped-parser.js:1044-1194 | The result becomes the old one with the record integrated where its `tipo` routes it. |
| SpedParserTyped.Resultado.Empilhar | js/importador/importador/sped-parser.js:1075-1122 | The record is appended to one per-category list, created when missing, and every other part of the result is unchanged. |
| SpedParserTyped.Resultado.ProcessarRelacoesEntreDados | js/importador/importador/sped-parser.js:170-215 | Items and participants are attached and the totals of the file kind are computed, as the reference definition says; the totals match codes by prefix, as written, when the matching flag is false. |
| SpedParserTyped.Resultado.RelacionarItensDocumentos | js/importador/importador/sped-parser.js:171-189 | Each document's items are set from the items grouped by document id. |
| SpedParserTyped.Resultado.RelacionarParticipantesDocumentos | js/importador/importador/sped-parser.js:192-204 | Each document's participant is set from the participants indexed by code. |
| SpedParserTyped.Resultado.ProcessarLinhaDados | js/importador/importador/sped-parser.js:134-160 | One line's record, if it gives one, is integrated; otherwise the result is unchanged. |
| SpedParserTyped.AgruparItens | js/importador/importador/sped-parser.js:174-182 | The loop groups the items by document id as the reference grouping does. |
| SpedParserTyped.IndexarParticipantes | js/importador/importador/sped-parser.js:193-197 | The loop indexes the participants by code as the reference index does. |
| SpedParserTyped.ExtrairDados | js/importador/importador/sped-parser.js:98-168 | The result is the empty extraction with the objects of the lines integrated in order under the effective kind, then related with the chosen matching (false is the code as written). |
| SpedParserTyped.TipoParaExtracao | js/importador/importador/sped-parser.js:119-129 | The kind the extraction settles on is the effective kind. |
| SpedParserTyped.IntegrarUmaLinha | js/importador/importador/sped-parser.js:133-161 | Integrating the objects of the lines so far plus one more line is integrating that line's object, if any, after the others. |
| SpedExtractor.Escolher | js/importador/sped-extractor.js:287 | Each source file is looked up under two keys: the first key present is chosen, the second only when the first is missing, none when both are. |
| SpedExtractor.MaiorCampo | js/importador/sped-extractor.js:473-477 | The revenue kept from J100 is at least the initial figure and at least every record's gross revenue. |
| SpedExtractor.MaiorCampoAtingido | js/importador/sped-extractor.js:473-477 | That figure is attained: it is the initial one or some record's gross revenue. |
| SpedExtractor.FaturamentoNaoDiminui | js/importador/sped-extractor.js:372 | Each source (fiscal, contributions, ECF) leaves the revenue no smaller, and the ECF leaves a non-zero revenue untouched. |
| SpedExtractor.LiquidosNaoNegativos | js/importador/sped-extractor.js:505-527 | Each net tax is the debit less the credit when that is positive and 0 otherwise, and the net total is the five nets plus the other taxes. |
| SpedExtractor.AliquotaReconstroi | js/importador/sped-extractor.js:534-560 | With positive revenue, each effective rate applied back to the revenue gives its net tax, the total rate gives the net total, and a non-negative net gives a non-negative rate. |
| SpedExtractor.AliquotasSemFaturamento | js/importador/sped-extractor.js:535-538 | Without positive revenue the rates stay as they were. |
| SpedExtractor.ObservacoesDeContem | js/importador/sped-extractor.js:1498-1506 | The remarks about one tax concern that tax alone: "only debits" exactly when it has debits and no credits, "excess credits" exactly when its credits exceed its debits. |
| SpedExtractor.ApenasDebitosAte | js/importador/sped-extractor.js:1498-1506 | The first n taxes checked hold an "only debits" remark about a tax exactly when it is among them and has debits and no credits. |
| SpedExtractor.CreditosSuperioresAte | js/importador/sped-extractor.js:1498-1506 | The first n taxes checked hold an "excess credits" remark about a tax exactly when it is among them and its credits exceed its debits. |
| SpedExtractor.ObservacaoSeInconsistente | js/importador/sped-extractor.js:1493-1516 | The check adds a remark about a tax exactly when that tax has debits and no credits, or more credits than debits, and the total remark exactly when the net total is not positive. |
| SpedExtractor.ObservacoesSemTotal | js/importador/sped-extractor.js:1498-1506 | The per-tax remarks never include the one about the total. |
| SpedExtractor.ComposicaoTributaria.constructor | js/importador/sped-extractor.js:247-283 | A new composition has zero revenue, zero debits, credits, nets and rates, and no sources or remarks. |
| SpedExtractor.ComposicaoTributaria.ProcessarImpostosFiscal | js/importador/sped-extractor.js:328-387 | The composition becomes the old one after the fiscal file: sales and ICMS from C100, ICMS totals from E110, IPI from C400, revenue the larger figure. |
| SpedExtractor.ComposicaoTributaria.ProcessarImpostosContribuicoes | js/importador/sped-extractor.js:395-457 | The composition becomes the old one after the contributions file: revenue from A100, PIS from M100, COFINS from M200, credits from C100. |
| SpedExtractor.ComposicaoTributaria.ProcessarDadosECF | js/importador/sped-extractor.js:465-498 | The composition becomes the old one after the ECF: J100 revenue only while there is none, IRPJ and CSLL of J200 into the other taxes. |
| SpedExtractor.ComposicaoTributaria.CalcularImpostosLiquidos | js/importador/sped-extractor.js:505-527 | Only the nets change, to those of the debits and credits. |
| SpedExtractor.ComposicaoTributaria.CalcularAliquotasEfetivas | js/importador/sped-extractor.js:534-560 | The rates become the nets as percentages of a positive revenue; nothing changes otherwise. |
| SpedExtractor.ComposicaoTributaria.ProcessarFontes | js/importador/sped-extractor.js:286-302 | The sources present are processed in the order fiscal, contributions, ECF. |
| SpedExtractor.ComposicaoTributaria.Finalizar | js/importador/sped-extractor.js:304-309 | Nets, rates and the check are computed in that order. |
| SpedExtractor.ComposicaoTributaria.ValidarComposicaoTributaria | js/importador/sped-extractor.js:1493-1516 | The remarks grow by those of the check, nothing else changes. |
| SpedExtractor.Somar | js/importador/sped-extractor.js:343-351 | A `forEach` adding one field gives the field's sum over the records. |
| SpedExtractor.SomarDois | js/importador/sped-extractor.js:354-361 | A `forEach` adding two fields gives both sums. |
| SpedExtractor.Maior | js/importador/sped-extractor.js:474-477 | A `forEach` keeping the largest value gives the largest of the initial figure and the field. |
| SpedExtractor.SomarPares | js/importador/sped-extractor.js:482-486 | A `forEach` adding two fields of every record gives the sum of both. |
| SpedExtractor.ProcessarComposicaoTributaria | js/importador/sped-extractor.js:246-320 | The composition returned is the initial one after the sources present, then nets, rates and checks. |
| SpedExtractor.ComposicaoConsistente | js/importador/sped-extractor.js:246-320 | In the processed composition every net tax is non-negative, the net total is their sum plus the other taxes, and revenue is non-negative. |
| SpedExtractor.FonteFaturamento | js/importador/sped-extractor.js:286-302 | Each source step keeps the revenue from decreasing. |
| SpedExtractor.FontesFaturamento | js/importador/sped-extractor.js:286-302 | The revenue gathered from the sources is never negative. |
| SpedExtractor.FinalizadaMantem | js/importador/sped-extractor.js:304-309 | Finishing sets the nets from the debits and credits and keeps those and the revenue. |
| SpedExtractor.ExtrairInformacoesEmpresa | js/importador/sped-extractor.js:173-237 | The loop over the sources yields the company data of the reference definition. |
| SpedExtractor.EmpresaDoFiscal | js/importador/sped-extractor.js:189-202 | Only SPED Fiscal supplies the trade name, state registration, state, city and period, and no file supplies the activity. |
| SpedExtractor.EmpresaPrioridadeFiscal | js/importador/sped-extractor.js:210-218 | A name from SPED Fiscal is kept; SPED Contribuições supplies name and CNPJ exactly when SPED Fiscal gave no name. |
| SpedExtractor.EmpresaRegime | js/importador/sped-extractor.js:221-230 | The tax regime comes from the ECF alone. |
| SpedExtractor.EmpresaFontes | js/importador/sped-extractor.js:189-230 | `fonte` names, comma-separated and in order, the files that contributed. |
| SpedExtractor.JuntarMais | js/importador/sped-extractor.js:216 | Appending one more source name to the joined list is joining the longer list. |
| SpedExtractor.CronogramaCoerente | js/importador/sped-extractor.js:18-27 | The schedule covers 2026 to 2033 in order, each year's shares sum to 1, the VAT share lies in [0, 1] and only grows, and 2033 is all VAT. |
| SpedExtractor.ProjecaoDoAno | js/importador/sped-extractor.js:1323-1366 | A year's projection carries its year and shares, its total is the current taxes plus the VAT part, and its rate is 0 without positive revenue. |
| SpedExtractor.ProjecaoCoerente | js/importador/sped-extractor.js:1337-1358 | Each current tax is scaled by the current share and the VAT by its own; the working-capital impact is the VAT part times its share; the rate applied to revenue gives the total back. |
| SpedExtractor.ProjecaoInterpola | js/importador/sped-extractor.js:1337-1352 | A scheduled year's load lies between the current load and the full VAT load, and is the full VAT load in 2033. |
| SpedExtractor.ProjecoesPorAno | js/importador/sped-extractor.js:1282-1290 | There is a projection for exactly the scheduled years, each the projection of its year. |
| SpedExtractor.ProcessarTransicaoTributaria | js/importador/sped-extractor.js:1259-1312 | The loop over the schedule gives one projection per year and then the summary of the reference definition. |
| SpedExtractor.ImpactoDoAno | js/importador/sped-extractor.js:1356-1358 | A year's impact is the VAT load weighted by the square of that year's VAT share. |
| SpedExtractor.ImpactoTotalFechado | js/importador/sped-extractor.js:1375-1396 | The total impact is 3.65 times the full VAT load (the sum of the squared shares). |
| SpedExtractor.CicloFinanceiro.constructor | js/importador/sped-extractor.js:798-809 | A new cycle holds the defaults: 30 days to receive, to pay and in stock, and cycles that already agree with them (60 and 30). |
| SpedExtractor.CicloFinanceiro.CalcularIndicadoresCiclo | js/importador/sped-extractor.js:1237-1250 | The operating cycle is receiving plus stock days, the cash cycle is the operating cycle less paying days, and the terms are kept. |
| SpedExtractor.CicloFinanceiro.CalcularIndicadoresCicloCorrigido | js/importador/sped-extractor.js:882-901 | The same, with the cash cycle never below 5 days: exactly the difference when it is at least 5, and 5 otherwise. |
| SpedExtractor.Completude | js/importador/sped-extractor.js:1638-1642 | Completeness lies in 0..25; it reaches 20 exactly with positive revenue and positive net taxes, and is 0 exactly when there is none of revenue, taxes and net income. |
| SpedExtractor.Consistencia | js/importador/sped-extractor.js:1645-1648 | Consistency lies in 5..15 and is below 15 exactly when either side has more than three remarks. |
| SpedExtractor.Razoabilidade | js/importador/sped-extractor.js:1651-1658 | Reasonableness lies in 5..20; below 15 exactly for an overall rate outside 2–50 %; 20 exactly when the rate is inside and the margin within ±50 %. |
| SpedExtractor.Diversidade | js/importador/sped-extractor.js:1661-1663 | Diversity is 8 points per file, and 25 exactly from four files on. |
| SpedExtractor.NivelDe | js/importador/sped-extractor.js:1669-1675 | The level is high from 80 points, medium from 60 to 79, low below 60. |
| SpedExtractor.AvaliarQualidadeDados | js/importador/sped-extractor.js:1623-1694 | The score is the sum of the four criteria and lies in 10..85; a high level needs at least three files; each recommendation is given exactly when its criterion falls short. |
| SpedExtractorTyped.Somar | js/importador/importador/sped-extractor.js:1166-1171 | The accumulating `forEach` returns the in-order sum of the chosen amount over the records. |
| SpedExtractorTyped.SomaNaoNegativa | js/importador/importador/sped-extractor.js:1189-1191 | A sum of amounts that are never negative is never negative. |
| SpedExtractorTyped.LimitarValor | js/importador/importador/sped-extractor.js:1790-1792 | With min at most max the result lies in the interval, equals the value when it is already inside, and is the nearer bound otherwise. |
| SpedExtractorTyped.LimitarIdempotente | js/importador/importador/sped-extractor.js:1790-1792 | Clamping an already clamped value changes nothing. |
| SpedExtractorTyped.CfopsDistintosCorretos | js/importador/importador/sped-extractor.js:244-252 | The collected CFOPs are exactly the non-empty CFOPs of the items, each listed once. |
| SpedExtractorTyped.ContagemCfops | js/importador/importador/sped-extractor.js:279-287 | The industry, service and trade tallies of the CFOPs are never negative. |
| SpedExtractorTyped.TipoPorContagem | js/importador/importador/sped-extractor.js:303-309 | Industry exactly when its tally is positive and not below the other two; otherwise services exactly when services outnumber trade; otherwise trade. |
| SpedExtractorTyped.TipoEmpresaPrioridades | js/importador/importador/sped-extractor.js:215-241 | Any IPI record makes the company an industry; without IPI a CNAE division in 05-33 means industry and one in 45-47 means trade, and only then. |
| SpedExtractorTyped.CfopUnico | js/importador/importador/sped-extractor.js:244-252 | Items that all carry the same non-empty CFOP yield exactly that one CFOP. |
| SpedExtractorTyped.CfopIndustrial | js/importador/importador/sped-extractor.js:244-309 | With no IPI and no CNAE, items whose only CFOP is an industrial one classify the company as an industry. |
| SpedExtractorTyped.DeterminarTipoEmpresa | js/importador/importador/sped-extractor.js:215-310 | The imperative classification returns the kind of company the reference definition gives. |
| SpedExtractorTyped.ColetarCfops | js/importador/importador/sped-extractor.js:244-252 | The loop over the items collects exactly the distinct CFOPs of the reference definition. |
| SpedExtractorTyped.ContarCfops | js/importador/importador/sped-extractor.js:279-287 | The tally loop gives the reference tallies of industry, service and trade CFOPs. |
| SpedExtractorTyped.ContarProducaoPropria | js/importador/importador/sped-extractor.js:290-300 | The loop counts the items described as own production, as the reference count does. |
| SpedExtractorTyped.RegimePorEcf | js/importador/importador/sped-extractor.js:319-330 | An ECF taxation form of 1 or 2 gives the real-profit regime, 3 or 4 presumed profit, 5 to 7 the simplified regime. |
| SpedExtractorTyped.RegimePadrao | js/importador/importador/sped-extractor.js:317-394 | With no ECF, no regime record, no company regime, no simplified-regime tax, no PIS credit and no analytic item the regime defaults to presumed profit. |
| SpedExtractorTyped.SetorIVA | js/importador/importador/sped-extractor.js:163-208 | A known CNAE division selects its sector from the table, otherwise the default sector of the company kind; the sector is always one the table or the defaults name. |
| SpedExtractorTyped.Saidas | js/importador/importador/sped-extractor.js:952-958 | The outgoing documents are some of the documents, each one outgoing. |
| SpedExtractorTyped.DeterminarTipoOperacao | js/importador/importador/sped-extractor.js:945-998 | Fewer than five documents or no classified outgoing document give B2B; otherwise B2B above 80 per cent B2B documents, B2C below 20 per cent, mixed in between, each in both directions. |
| SpedExtractorTyped.ContarClasses | js/importador/importador/sped-extractor.js:960-981 | The loop counts the B2B and the B2C outgoing documents as the reference counts do. |
| SpedExtractorTyped.FiltrarSaidas | js/importador/importador/sped-extractor.js:952-958 | The filtering loop keeps exactly the outgoing documents. |
| SpedExtractorTyped.Prazo | js/importador/importador/sped-extractor.js:1677-1678 | A term computed from a balance is rounded and clamped into 1 to 180 days. |
| SpedExtractorTyped.ExtrairCicloFinanceiro | js/importador/importador/sped-extractor.js:1663-1743 | The three terms lie in 1 to 180 days and come from the balances against revenue, 60 and 70 per cent of it, or default to 30; the cash share is the clamped share of cash sales or 0.3 without sales, and the credit share is its complement. |
| SpedExtractorTyped.SomarVendas | js/importador/importador/sped-extractor.js:1713-1729 | The loop over the outgoing documents gives the reference total of sales and of cash sales. |
| SpedExtractorTyped.Senao | js/importador/importador/sped-extractor.js:1052 | A non-zero amount is kept and a zero one is replaced by the fallback. |
| SpedExtractorTyped.AjusteSocial | js/importador/importador/sped-extractor.js:1309-1327 | Only a consolidation adjustment with a code outside the fine and interest codes 4 and 5 contributes; nature 1 adds its value, nature 0 subtracts it, any other nature adds nothing. |
| SpedExtractorTyped.UltimaTotalizacaoNenhuma | js/importador/importador/sped-extractor.js:1341-1350 | When no total exceeds consolidation plus adjustments the total stays 0. |
| SpedExtractorTyped.UltimaTotalizacaoUltima | js/importador/importador/sped-extractor.js:1341-1350 | The total kept is that of the last record that exceeds consolidation plus adjustments. |
| SpedExtractorTyped.DebitosSociaisMaximo | js/importador/importador/sped-extractor.js:1353-1356 | The declared PIS or COFINS debit is the larger of the summed parts and the totalisation, so it is at least each and equals one of them. |
| SpedExtractorTyped.DebitosSociaisFonte | js/importador/importador/sped-extractor.js:1359-1370 | A non-zero declared debit is used; otherwise the simplified regime owes nothing and the other regimes owe the monthly revenue times the regime's rate. |
| SpedExtractorTyped.EstimativasSociais | js/importador/importador/sped-extractor.js:1052-1064 | With neither credits nor debits declared, the estimated credit is 48 per cent of the estimated debit, so the net estimate is never negative for non-negative revenue. |
| SpedExtractorTyped.TributosPorTipo | js/importador/importador/sped-extractor.js:1242-1249 | IPI credits and debits are zero outside industry; ISS is zero outside services and 5 per cent of monthly revenue for services. |
| SpedExtractorTyped.DebitosNaoNegativos | js/importador/importador/sped-extractor.js:1545 | For non-negative revenue the ICMS, IPI and ISS debits are never negative. |
| SpedExtractorTyped.CalcularCreditosSociais | js/importador/importador/sped-extractor.js:1005-1076 | The imperative PIS or COFINS credit calculation returns the reference credit, direct records first, then the detail records, then the estimate. |
| SpedExtractorTyped.UltimaAcima | js/importador/importador/sped-extractor.js:1341-1350 | The loop over the totalisation records returns the reference last total above the limit. |
| SpedExtractorTyped.CalcularDebitosSociais | js/importador/importador/sped-extractor.js:1288-1386 | The imperative PIS or COFINS debit calculation returns the reference debit. |
| SpedExtractorTyped.CalcularCreditosIcms | js/importador/importador/sped-extractor.js:1161-1235 | The ICMS credit comes from the E110 debits group, then the taxes group, then incoming analytic items, then credit records, then the 70 per cent, 18 per cent, 85 per cent estimate outside services, as the reference definition says. |
| SpedExtractorTyped.CalcularCreditosIpi | js/importador/importador/sped-extractor.js:1242-1281 | The IPI credit is zero outside industry and otherwise the declared credits, the incoming items' IPI or the 40 per cent, 10 per cent, 90 per cent estimate, as the reference definition says. |
| SpedExtractorTyped.CalcularDebitosIcms | js/importador/importador/sped-extractor.js:1498-1574 | The ICMS debit is the E110 debits plus the adjustments and incentives outside codes 4 and 5, floored at 0, or the 60 per cent, 18 per cent estimate outside services, as the reference definition says. |
| SpedExtractorTyped.CalcularDebitosIpi | js/importador/importador/sped-extractor.js:1581-1637 | The IPI debit is zero outside industry and otherwise the declared debits plus adjustments floored at 0 or the 40 per cent, 10 per cent estimate, as the reference definition says. |
| SpedExtractorTyped.Liquido | js/importador/importador/sped-extractor.js:520-524 | The net tax is never negative, is at least debit minus credit, and is either 0 or exactly that difference. |
| SpedExtractorTyped.AliquotasSemFaturamento | js/importador/importador/sped-extractor.js:553-557 | Without positive monthly revenue every effective rate is 0. |
| SpedExtractorTyped.AliquotasReconstroem | js/importador/importador/sped-extractor.js:506-536 | With positive revenue each effective rate is non-negative and gives back its net tax when applied to the revenue. |
| SpedExtractorTyped.AliquotaTotalSoma | js/importador/importador/sped-extractor.js:526-535 | The total effective rate is the sum of the five per-tax rates. |
| SpedExtractorTyped.ExtrairComposicao | js/importador/importador/sped-extractor.js:432-557 | The composition holds the debits and credits per tax of the reference definitions, ISS with no credit, and the effective rates they give. |
| ImportacaoController.Extensao | js/importador/importacao-controller.js:121 | The extension is the part of the lower-cased name after its last dot, so it contains no dot. |
| ImportacaoController.Validar | js/importador/importacao-controller.js:107-130 | A file is valid exactly when it is at most 50 MB; the size error appears exactly when it is larger, the type error exactly when the extension is not txt, and a warning exactly when the name mentions none of sped, efd, ecf and ecd. |
| ImportacaoController.Remover | js/importador/importacao-controller.js:147 | Deleting a type from the loaded files keeps every other type and no longer lists the deleted one, and keeps the list free of repeats. |
| ImportacaoController.CadaTipoUmDestino | js/importador/importacao-controller.js:207-230 | Each loaded type ends either among the processed data with its result or as exactly one recorded error; types not loaded gain no error and keep any earlier data. |
| ImportacaoController.SucessosEFalhas | js/importador/importacao-controller.js:207-230 | Successes and errors together account for every loaded file, and the processed data grows by the number of successes. |
| JsNumber.Decimal | js/importador/importacao-controller.js:684 | A count is rendered as a non-empty string of decimal digits. |
| JsNumber.DecimalRead | js/importador/importacao-controller.js:684 | Reading back the rendered digits gives the count again. |
| ImportacaoController.Controlador.constructor | js/importador/importacao-controller.js:13-19 | The import state starts with nothing loaded, processed or failed, waiting, at progress 0. |
| ImportacaoController.Controlador.LimparEstadoImportacao | js/importador/importacao-controller.js:575-584 | Clearing returns the state to the initial empty, waiting state at progress 0. |
| ImportacaoController.Controlador.AtualizarInterfaceProgresso | js/importador/importacao-controller.js:601-616 | The progress becomes the given value and nothing else in the state changes. |
| ImportacaoController.Controlador.ValidarArquivoSelecionado | js/importador/importacao-controller.js:102-150 | No file changes nothing; otherwise the first file is validated, a valid one is stored under its type keeping an existing key's place, an invalid one removes the type; the processed data, errors, status and progress stay as they were. |
| ImportacaoController.Controlador.CancelarImportacao | js/importador/importacao-controller.js:561-569 | Cancelling leaves the cleared state at progress 0. |
| ImportacaoController.Controlador.ProcessarCarregados | js/importador/importacao-controller.js:204-230 | The loop over the loaded types in key order records every success in the processed data and appends one error per failure, ending at half the successes out of the loaded files times 100. |
| ImportacaoController.Controlador.ProcessarUm | js/importador/importacao-controller.js:208-229 | One type either stores its processed data or appends one error, and nothing else changes. |
| ImportacaoController.Controlador.IniciarProcessoImportacao | js/importador/importacao-controller.js:182-264 | With no file loaded the run ends in error at progress 0 and changes no data; otherwise the errors are reset and refilled, the data gets every success, and the run ends concluded at 100 or in error at 0 when consolidation or integration fails; from an empty start the data and errors together match the loaded files. |
| ImportacaoController.Controlador.GerarResumoImportacao | js/importador/importacao-controller.js:679-685 | The summary starts with processed over loaded file counts, ends with the error count or with the success wording, and is exactly as long as the two, so it is that text and nothing else. |
| ImportacaoController.Controlador.GerarEstatisticasImportacao | js/importador/importacao-controller.js:770-778 | The statistics give the loaded, processed and error counts, the processed types, and whether progress reached 100. |
| ImportacaoController.CardinalidadeDasChaves | js/importador/importacao-controller.js:187 | A key set listed without repeats has as many keys as the list has entries. |
| CreditosTributarios.PisCofinsForma | js/utils/creditos-tributarios.js:80-109 | Outside the non-cumulative regime both credits are 0; inside it each is revenue times base percentage times credit percentage times the tax's rate, every percentage divided by 100. |
| CreditosTributarios.IncentivoIcms | js/utils/creditos-tributarios.js:122-138 | Without a positive incentive the ICMS credit is the gross credit; an incentive up to 100 per cent only reduces it, never below 0. |
| CreditosTributarios.CreditosNaoNegativos | js/utils/creditos-tributarios.js:92-165 | Non-negative revenue, percentages and rates, with an incentive of at most 100 per cent, give non-negative PIS, COFINS, ICMS and IPI credits. |
| CreditosTributarios.AliquotasDebito | js/utils/creditos-tributarios.js:285-293 | The cumulative regime uses 0.65 and 3.0 per cent; any other regime uses the form's rates or 1.65 and 7.6 per cent when absent or zero. |
| CreditosTributarios.RegimeCumulativo | js/utils/creditos-tributarios.js:284-299 | In the cumulative regime the debits are 0.65 and 3 per cent of revenue and there are no PIS or COFINS credits. |
| CreditosTributarios.AliquotaIndividualReconstroi | js/utils/creditos-tributarios.js:370-372 | With positive revenue the effective rate applied to the revenue gives back the debit; without it the rate is 0. |
| CreditosTributarios.Limpos | js/utils/creditos-tributarios.js:202-214 | Clearing zeroes exactly the nine credit fields present on the page and keeps every other field. |
| CreditosTributarios.CamposCreditosSaoDeCredito | js/utils/creditos-tributarios.js:203-207 | The cleared list is exactly the credit, total and calculated-credit fields. |
| CreditosTributarios.ComTotal | js/utils/creditos-tributarios.js:175-197 | The total field, when present, becomes the sum of the five credit fields, missing ones counting 0, and nothing else changes. |
| CreditosTributarios.AgrupadoSemPontos | js/utils/creditos-tributarios.js:437-440 | The whole part written by `pt-BR` grouping, its points removed, is the plain decimal digits of the number, and the numeric filter keeps all of it. |
| CreditosTributarios.MoedaNumerica | js/utils/creditos-tributarios.js:176-182 | The numeric filter keeps, of an amount's currency text, its sign, its grouped whole part, the comma and the two decimals. |
| CreditosTributarios.MoedaLida | js/utils/creditos-tributarios.js:176-182 | Read back with the thousands points removed, the currency text of every amount in cents gives that amount again. |
| CreditosTributarios.CentavosLidos | js/utils/creditos-tributarios.js:176-182 | An amount in whole cents, formatted and read back the corrected way, is itself. |
| CreditosTributarios.MilLidoComoEscrito | js/utils/creditos-tributarios.js:176-182 | 1234.56 is written `R$ 1.234,56`, which the code as written reads back as 1.234 and the corrected reading as 1234.56. |
| CreditosTributarios.TotalComoEscrito | js/utils/creditos-tributarios.js:175-190 | As written, a form whose PIS credit is 1234.56 reads back a credit total of 1.234, where the sum of its credits is 1234.56. |
| CreditosTributarios.TotalLidoCorrigido | js/utils/creditos-tributarios.js:175-197 | Read back the corrected way, credits in whole cents total exactly the sum of the credits, which is the total the model writes. |
| CreditosTributarios.TotalDosCreditos | js/utils/creditos-tributarios.js:42-49 | After the three calculations and the total, each credit field holds its formula, the PIS and COFINS calculation field their sum, and the total all four plus the ISS field. |
| CreditosTributarios.Escritos | js/utils/creditos-tributarios.js:106-108 | Writing fields in order stops at the first missing element, keeps the set of fields and leaves every field not written as it was. |
| CreditosTributarios.EscritosPisCofins | js/utils/creditos-tributarios.js:106-108 | The three PIS/COFINS writes all succeed exactly when their fields exist, and then leave the calculated fields. |
| CreditosTributarios.EscritosIcms | js/utils/creditos-tributarios.js:141-142 | The two ICMS writes all succeed exactly when their fields exist, and then leave the calculated fields. |
| CreditosTributarios.EscritosIpi | js/utils/creditos-tributarios.js:168-169 | The two IPI writes all succeed exactly when their fields exist, and then leave the calculated fields. |
| CreditosTributarios.ParciaisCompletos | js/utils/creditos-tributarios.js:27-70 | Nothing throws exactly on a complete form, and then the block leaves the calculated fields. |
| CreditosTributarios.IncompletoSemTotal | js/utils/creditos-tributarios.js:27-74 | On an incomplete form the caught exception skips the total, which keeps its old value, as does the ISS credit. |
| CreditosTributarios.SemSecaoPisCofins | js/utils/creditos-tributarios.js:106-108 | With the PIS and COFINS fields present and their section total missing, the two credits are written and nothing after them. |
| CreditosTributarios.Atualizado | js/utils/creditos-tributarios.js:386-391 | Writing a field present on the page sets it and leaves every other field; a missing field changes nothing. |
| CreditosTributarios.Formulario.constructor | js/utils/creditos-tributarios.js:12 | The form starts with the given fields and the guard flag down. |
| CreditosTributarios.Formulario.Escrever | js/utils/creditos-tributarios.js:85-87 | A write succeeds exactly when the element exists and then sets only that field. |
| CreditosTributarios.Formulario.CalcularCreditosPisCofins | js/utils/creditos-tributarios.js:80-109 | It succeeds exactly when the three fields exist and then leaves the PIS and COFINS credits and their sum; in every case the fields are those the writes in source order leave, up to the first missing element. |
| CreditosTributarios.Formulario.CalcularCreditosIcms | js/utils/creditos-tributarios.js:114-143 | It succeeds exactly when both ICMS fields exist and then leaves the ICMS credit in both; in every case the fields are those the writes in source order leave, up to the first missing element. |
| CreditosTributarios.Formulario.CalcularCreditosIpi | js/utils/creditos-tributarios.js:148-170 | It succeeds exactly when both IPI fields exist and then leaves the IPI credit in both; in every case the fields are those the writes in source order leave, up to the first missing element. |
| CreditosTributarios.Formulario.AtualizarTotaisCreditos | js/utils/creditos-tributarios.js:175-197 | The fields become those with the total recomputed. |
| CreditosTributarios.Formulario.LimparCamposCreditos | js/utils/creditos-tributarios.js:202-214 | The fields become the cleared fields. |
| CreditosTributarios.Formulario.CalcularCreditosTributarios | js/utils/creditos-tributarios.js:22-74 | A call while a calculation runs changes nothing; without positive revenue the credit fields are cleared; otherwise they are what the block leaves when the first missing element throws, which with every field present is the calculated credits and total; the guard flag is lowered again and the set of fields never changes. |
| CreditosTributarios.Formulario.CalcularTodos | js/utils/creditos-tributarios.js:42-49 | The fields left are those written up to the first missing element, with the later calculations and the total skipped; with every field present, the calculated credits and total. |
| CreditosTributarios.Formulario.CalcularDebitosPisCofins | js/utils/creditos-tributarios.js:284-300 | The PIS and COFINS debit fields receive the regime's debits and nothing else changes. |
| CreditosTributarios.Formulario.AtualizarCampoMonetario | js/utils/creditos-tributarios.js:386-391 | The field, when present, receives the value and nothing else changes. |
| CreditosTributarios.Formulario.CalcularAliquotasEfetivasIndividuais | js/utils/creditos-tributarios.js:367-379 | Each effective-rate field present receives its tax's debit over revenue times 100, or 0 without revenue, read from the fields before the loop; no other field changes. |
| Principal.Membro | js/main.js:1623 | Reading a member of a primitive value gives undefined. |
| Principal.CaminhoConcat | js/main.js:1619-1624 | Following a path in two pieces is following the first piece and then the second from where it ended. |
| Principal.CaminhoInterrompido | js/main.js:1620-1622 | Once the walk reaches undefined or null, any further step gives undefined. |
| Principal.SplitSemPonto | js/main.js:1617 | A path with no dot splits into just itself. |
| Principal.CaminhoSemPonto | js/main.js:1611-1613 | The direct access for a path without a dot agrees with the step-by-step walk. |
| Principal.ObterValorDePropertyPath | js/main.js:1607-1627 | A falsy object or an empty path gives undefined; otherwise the loop returns the value reached by following the dot-separated parts. |
| Principal.Abs | js/main.js:1020 | The absolute value is non-negative and is the value or its negation. |
| Principal.ObterDadosAnoSeguro | js/main.js:982-1050 | With neither the year nor the base impact the safe defaults come back; otherwise the tax differences are split minus current and VAT-without-split minus current. |
| Principal.AnoPresenteIgnoraBase | js/main.js:1007-1023 | When the year is present the base impact is not consulted and the margins stay 0. |
| Principal.SemCenarioIvaSemSplit | js/main.js:1012-1016 | A missing VAT-without-split scenario falls back to the current tax and working capital, so its difference is 0. |
| Principal.AnoAusenteUsaBase | js/main.js:1024-1046 | When the year is absent the taxes, the working-capital difference and the margins come from the base impact, the margins times 100. |
| Principal.MinimoExiste | js/main.js:1097 | A non-empty set of years has a least element. |
| Principal.Elemento | js/main.js:1097 | A set is empty or has an element. |
| Principal.Minimo | js/main.js:1097 | The least year belongs to the set and is at most every year in it. |
| Principal.Ordenados | js/main.js:1097 | The sorted years are increasing, are exactly the keys, and are as many as the keys. |
| Principal.ExportacaoCorreta | js/main.js:1096-1121 | The export lists the years in increasing order, has one row per year built from that year's data, a total variation equal to the sum of the rows' differences, and an increasing trend exactly when it is positive. |
| Principal.SomaDiferencasPorAno | js/main.js:1118 | Adding one year to the list adds its row's difference to the total. |
| Principal.SomaDiferencasSoDosAnos | js/main.js:1118 | The total depends only on the rows of the listed years. |
| Principal.Simulacao.constructor | js/main.js:1095 | The holder keeps the given result and export structure. |
| Principal.Simulacao.GarantirEstruturaExportacao | js/main.js:1095-1125 | An existing export or a result without annual data is left alone; otherwise the export becomes the reference export of the annual data; afterwards an export exists whenever annual data does. |
| Principal.ColetarLinhas | js/main.js:1100-1112 | The loop over the years builds exactly the reference rows. |
| Principal.SomarDiferencas | js/main.js:1118 | The loop over the years gives the reference sum of differences. |
| Principal.PercIva | js/main.js:1640-1649 | The VAT share is the schedule's value for 2026 to 2033 and 0 for any other year, always between 0 and 1. |
| Principal.LinhaCorreta | js/main.js:1649-1657 | The current and VAT shares add to 1; outside the schedule the row is all current tax; the total is the two parts and lies between the two scenario totals; with positive revenue the effective rate gives back the total, otherwise it is 0. |
| Principal.Mistura | js/main.js:1652-1654 | A weighted mix of two totals lies between them. |
| Principal.TabelaTransicao | js/main.js:1633-1670 | Without annual data no table is drawn; otherwise there is one row per year in increasing order, each the row its year's data gives. |
| Principal.LinhasDaTabela | js/main.js:1647-1670 | The loop builds the rows of the listed years in order. |
| Principal.AplicarFiltrosLog | js/main.js:599-632 | With no filter checked every entry is shown; otherwise each entry is shown exactly when a checked filter's class appears in it. |
| Principal.FiltrosMonotonos | js/main.js:627-630 | Checking more filters never hides an entry, and an entry with none of the four classes stays hidden. |
| Principal.IntegrarDadosSped | js/main.js:1799-1838 | Without SPED data the form data comes back unchanged; with it the integration fails exactly when the effective rates are missing. |
| Principal.IntegracaoSobrepoe | js/main.js:1807-1837 | The integrated data keeps every other form field, adds the SPED section and fiscal parameters flagged as having SPED data with the total rate over 100, and the credits merge the form's credits with the SPED credits, the SPED ones winning. |
| Principal.IntegracaoPuraMantem | js/main.js:1807-1837 | On form data with no NaN and no undefined entry anywhere, the copy changes nothing: every other entry is kept exactly and only the SPED section and the fiscal parameters are added. |
| Principal.CopiaCampos | js/main.js:1807 | The JSON copy of an object keeps exactly its defined properties, each copied in turn. |
| Principal.CopiaIdentidade | js/main.js:1807 | The JSON copy of any value has no NaN and no undefined property, and it is the value itself exactly when the value already has neither. |
| Principal.CopiaIdempotente | js/main.js:1807 | Copying the copy again gives the same copy. |
| Principal.Centesimo | js/main.js:1835 | Dividing by 100 takes a number n to n over 100, and an object, undefined or NaN to NaN; text is first converted as `Number` converts it. |
| Principal.CentesimoDeTexto | js/main.js:1835 | A total given as the text of a digit string is divided by 100 as its number would be. |
| ReorderPanels.Find | reorder_panels.py:29 | The index found is the first occurrence of the pattern at or after the start, and -1 exactly when there is none. |
| ReorderPanels.RFind | reorder_panels.py:35 | The index found is the last occurrence lying wholly inside the window, and -1 exactly when there is none. |
| ReorderPanels.SliceStartsWith | reorder_panels.py:48 | The rest of the text from a position starts with a pattern exactly when the pattern occurs at that position. |
| ReorderPanels.ScanRegion | reorder_panels.py:40-62 | When the div count that starts at a group box closes, the text from the box to that point is a balanced group box. |
| ReorderPanels.ExtractPanelHtml | reorder_panels.py:26-67 | A missing heading or an unclosed box gives nothing and the indices -1; otherwise the panel is the text from the last group box before the heading up to where the div count returns to zero, and it is a balanced group box. |
| ReorderPanels.CountDivs | reorder_panels.py:41-65 | The loop finds the end of the box exactly when the reference count closes, and at the same place. |
| ReorderPanels.ExtractedRegion | reorder_panels.py:35-67 | The box found by the backward search is a group box before the heading with no other group box in between, and the closed region is a balanced group box. |
| ReorderPanels.Excise | reorder_panels.py:88-90 | Replacing an extracted panel with its marker keeps the text before and after it and puts the marker in its place. |
| ReorderPanels.ExtractPanels | reorder_panels.py:69-92 | Every panel kept is a balanced group box under a key of the extraction order; when nothing fails every key has its panel, and a failure names one of the titles. |
| ReorderPanels.ButtonGroup | reorder_panels.py:95-112 | The button group starts at the first button-group div after its comment and ends at the first closing div after it; a missing comment, a missing div and a missing closing div each give their own error, and each error occurs exactly when its piece is the first one missing. |
| ReorderPanels.MainPanelContent | reorder_panels.py:115-140 | The panel content starts right after the main panel tag that follows its comment and ends at the last closing div before the end marker; each of the four errors occurs exactly when its piece is the first one missing. |
| ReorderPanels.ClosingAfterPanelTag | reorder_panels.py:126-138 | The closing div found cannot lie inside the panel tag, so the content range is well formed. |
| ReorderPanels.Indentation | reorder_panels.py:143-163 | A missing or out-of-range heading of the first panel, or no group box before it in the content, gives its own error exactly when it happens; otherwise the indentation is the text from the start of the group box's line up to the box when that text is white space, and the default otherwise. |
| ReorderPanels.SplitLines | reorder_panels.py:169 | No line from the split contains a line break. |
| ReorderPanels.SplitJoinLines | reorder_panels.py:169 | Splitting lines joined with newlines gives them back when none holds a break and the last is not empty. |
| ReorderPanels.Prefixed | reorder_panels.py:169 | Every line gets the indentation in front and the number of lines is kept. |
| ReorderPanels.IndentBlockLines | reorder_panels.py:168-169 | Indenting a block gives the block's own lines, each with the indentation in front. |
| ReorderPanels.NewSection | reorder_panels.py:168-195 | The new section opens the two-column container, holds the left column with the first three panels of the extraction order and the right column with the other three and then the button group, each block indented in order, and closes the container. |
| ReorderPanels.LineStart | reorder_panels.py:158 | The measured line starts just after the last line feed found before the group box, with no line feed between it and the box. |
| ReorderPanels.PanelsInOrder | reorder_panels.py:171-188 | The panels of a range of the extraction order, in that order. |
| ReorderPanels.BlocksConcat | reorder_panels.py:171-188 | A column's indented blocks for two lists one after the other are the blocks of the first list, then those of the second. |
| ReorderPanels.BlockAt | reorder_panels.py:171-188 | Each block of a column lies, indented and followed by a line feed, after the blocks before it and before the blocks after it. |
| ReorderPanels.ColumnOfThree | reorder_panels.py:171-178 | A column of three blocks is its comment line, its opening div line, the three indented blocks each on its own line, and its closing div. |
| ReorderPanels.ColumnOfFour | reorder_panels.py:180-188 | A column of four blocks is its comment line, its opening div line, the four indented blocks each on its own line, and its closing div. |
| ReorderPanels.Splice | reorder_panels.py:198-202 | The result is the text before the content, the new section, then the text after the content. |
| ReorderPanels.SpliceKeeps | reorder_panels.py:198-202 | The splice keeps the text before the content as a prefix and the text after it as a suffix. |
| ReorderPanels.Rebuild | reorder_panels.py:95-202 | The first failing step among the button group, the panel content and the indentation gives its error; otherwise the page becomes the text before the content, the new section, then the text after the content. |
| ReorderPanels.Restructure | reorder_panels.py:69-202 | A failed extraction names one of the panel titles; any other outcome is the rebuild of the page from a complete set of extracted panels, so a success keeps everything before and after the main panel's content. |

## Left out

- **I/O and the page.** File reading (`FileReader`, `lerArquivo`, `parsearArquivo`, `processarArquivo`), the DOM, the page's log area and its messages have no counterpart. The model takes what they deliver as parameters: the text already split into lines, the form's values, and the visible state of the log entries as a sequence of booleans.
- **Console logging, `fonteUtilizada` and the wording of messages.** These are diagnostics with no effect on any result. Errors, warnings and remarks appear as datatype values instead of text.
- **Timestamps and the clock.** `new Date().toISOString()` becomes a parameter or is dropped. The date arithmetic of `calcularFaturamentoMensal` and `calcularMesesAnalisados` is also left out. The second extractor therefore takes the monthly revenue as a parameter.
- **`parseFloat`, `parseInt` and `Number`.** Exponents, `Infinity` and hexadecimal prefixes are not read; they do not occur in SPED numeric fields. A value JavaScript would coerce to NaN is read as absent, and the source's `|| 0` then turns it into 0. `Number(text)` reads the same decimal text after trimming, the empty text as 0 and anything else as NaN.
- **`toLowerCase`.** Only ASCII letters are folded.
- **Number formatting.** `toFixed` and `formatarTamanhoArquivo` are left out. Of `formatarMoeda`, only the fallback branch is modelled (`FormatarMoeda`); `DataManager.formatarMoeda` is not part of this model. The fallback is `Intl.NumberFormat('pt-BR', {style: 'currency', currency: 'BRL'})`. The amount is rounded to cents with halves away from zero, and the non-breaking space after `R$` is written as a plain space, which the numeric filter drops either way; binary floating point is not modelled, and a negative amount that rounds to 0 is written without its minus sign. A form field holds the amount whose currency text it displays.
- **`TypeError`s.** The model represents only the exceptions the source catches. Examples: a C100 or C170 line too short to parse, a missing form element in the credit form, and missing effective rates in the merge of SPED data. A `startsWith` on a value that is not a string is read as false.
- Principal.Membro: reading a property of a string primitive (`length`, an index) gives undefined, where JavaScript gives the property; no path walked in the modelled merge reaches a string before its last segment.
- Principal.Espalhar: spreading a string gives no properties, where JavaScript gives one property per character; the merged sections are objects or missing.
- **First parser.** The financial-data, cash-cycle, company and result-assembly methods (`extrairDadosFinanceiros`, `extrairDadosCicloFinanceiro`, `calcularCicloFinanceiroECD`, `estimarCicloFinanceiro`, `extrairDadosEmpresa`, `extrairDadosFinanceirosECF`, `extrairDadosFinanceirosECD`, `extrairReceitasContribuicoes`, `finalizarEstatisticas`, `gerarResultado`, `gerarResultadoAprimorado`) are outside the modelled core.
- **Second parser.** `processarArquivo` only reads the file and calls `extrairDados`, so it is left out. A record's numeric property keys are stored under fixed text keys.
- **First extractor: top-level functions.** `processarDadosConsolidados` only assembles the parts and is left out. `estimarCicloFinanceiro`, `calcularCicloFinanceiroCorrigido` and `analisarFluxoCaixaECD` are left out too. The average terms are given to `CicloFinanceiro` by its caller.
- **First extractor: financial statements, remarks and checks.** `extrairDadosFinanceiros` and the financial-statement functions are left out: they call helpers that are not part of this model. `gerarObservacoesTransicao`, `gerarObservacoes`, `validarIntegridadeDados`, `validarDadosFinanceiros` and `validarCicloFinanceiro` are outside the modelled core.
- **First extractor: shape of the inputs.** The VAT parameters of the transition are taken as plain rates. The `parametrosIVA` object the callers build is not modelled, since its keys do not match the ones the projection reads.
- **Second extractor.** `extrairDadosParaSimulador`, `extrairDadosEmpresa`, `calcularMargemOperacional`, `detectarIncentivosICMS`, `calcularAliquotaEfetivaICMS`, `calcularDadosPisCofins`, `calcularDadosIPI`, `calcularDadosISS` and `extrairDadosIVA` are outside the modelled core. The same holds for the `fontesDados`, `periodoReferencia` and `configuracaoImpostos` parts of `extrairParametrosFiscais`.
- **Import controller: processing and interface.**
  - The parsing and extraction of each file (`processarArquivoSped`) is a parameter `processar` giving each type's outcome.
  - Consolidation and integration with the simulator (`consolidarDadosImportados`, `integrarComSimulador`) reduce to one flag saying whether they failed.
  - The interface functions (`desabilitarControlesImportacao`, `adicionarLogImportacao`, `atualizarStatusValidacao`, the SPED markers and notifications) are left out.
  - The getter of the current state is left out.
  - `tiposSpedImportados` is kept as the set of processed types.
- **Import controller: asynchrony.** `async` and `await` are left out. A run is one atomic transition.
- **Credit form: helper calls.** `calcularCreditosSimples` and `calcularCreditosLucro` are left out: they call helpers with arguments those helpers do not accept. The same applies to `calcularISS` and `atualizarTotaisDebitos`.
- **Credit form: other functions.** `calcularAliquotaEfetivaTotal` and its own flag are left out, as are the two `ajustarAliquotasPisCofins` definitions and the other `ajustar*` and `toggle*` interface functions. Reading a field (`extrairValorNumericoDeElemento`) is the field's amount. Field ids are the `Campo` datatype rather than strings.
- **Main script.**
  - Annual-result keys are int years, sorted numerically. For four-digit years this order agrees with the string sort of `Object.keys(...).sort()`.
  - The JSON deep copy of `integrarDadosSpedNaEstruturaPadrao` is modelled on the value model: NaN becomes null, and a property holding undefined is dropped, at every depth (`CopiaJson`). Arrays, dates, `toJSON` and infinite numbers are not in the value model. The input is left unmutated by construction.
  - The SPED data that `obterDadosSpedPrioritarios` would fetch is a parameter.
  - The table's HTML text is left out.
- **Panel script.** File reading and writing and the `print` calls are left out. `ExtractPanels` raises no exception: it returns no result and names the panel title instead.
- ReorderPanels.ExtractPanels: states that each panel kept is a balanced group box and that every key is extracted when nothing fails. It does not state that each panel equals the region `extract_panel_html` finds in the working text as cut so far.
- ReorderPanels.Restructure: states that its result is the rebuild from some complete set of panels. It does not name that set, because `ExtractPanels` is not tied to `extract_panel_html` (see above).
- SpedParser.ProcessarLinha: builds the record with the intended binding of the first Findings row, not the shifted one the code builds; `CampoDeslocado` and `CampoDeslocadoEm` model the code as written.
- SpedParser.Extraido: yields the record bound as intended, as `ProcessarLinha` does.
- SpedParser.SpedParserAprimorado.ProcessarLinhas: adds records bound as intended, as `ProcessarLinha` does.
- SpedParser.SpedParserAprimorado.ProcessarTodas: adds records bound as intended, as `ProcessarLinha` does.
- SpedParser.SpedParserAprimorado.ProcessarUmaLinha: adds the record bound as intended, as `ProcessarLinha` does.
- SpedParser.SpedParserAprimorado.ExtrairTributariosFiscal: reads the amounts of records bound as intended. As written, every field is read under the name of the field after it.
- CreditosTributarios.ComTotal: writes the sum of the credit amounts, the corrected total of the last Findings row. As written, the total reads each credit's currency text back and takes its thousands point for a decimal point (`TotalComoEscrito`).
- CreditosTributarios.TotalDosCreditos: its total is the corrected one of `ComTotal`.
- CreditosTributarios.Formulario.AtualizarTotaisCreditos: writes the corrected total of `ComTotal`.
- CreditosTributarios.Formulario.CalcularTodos: writes the corrected total of `ComTotal`.
- CreditosTributarios.Formulario.CalcularCreditosTributarios: writes the corrected total of `ComTotal`.

## Findings

| source | as written | input that shows it | evidently intended | confidence | as-written member | corrected member |
|---|---|---|---|---|---|---|
| js/importador/sped-parser.js:729-733 | `processarLinha` binds layout name i to field i of `split('\|')`, and field 0 is the empty text before the first pipe, so every name takes the value of the field before its own | the line `\|C100\|0\|`, which binds `REG` to the empty text and `IND_OPER` to `C100` | name i takes the field after the leading empty one, so `REG` holds the record code | not executed | SpedParser.CampoDeslocado | SpedParser.RegGuardaCodigo |
| js/importador/importador/sped-parser.js:257-271 | `processarDadosContabeis` selects the net-revenue accounts with `startsWith('3.1')`, which also matches account `3.11` (net profit); every total of the function matches codes by prefix in the same way, so `1.10` also counts as current assets | one DRE account `3.11` with balance 100, counted 100 in net revenue and 100 in net profit | net revenue takes only accounts in the hierarchical group 3.1, so 3.11 is not in it; `Contabeis` and the extraction take a matching flag, false for the code as written and true for the group reading (`ReceitaLiquidaDasLeituras` compares the two) | not executed | SpedParserTyped.LucroNaReceitaComoEscrito | SpedParserTyped.ReceitaSemLucro |
| js/utils/creditos-tributarios.js:176-182 | `atualizarTotaisCreditos` reads each credit back from its `formatarMoeda` text with `parseFloat(valor.replace(/[^\d,.-]/g, '').replace(',', '.'))`, which keeps the thousands point and makes the decimal comma a second point | a PIS credit of 1234.56, shown as `R$ 1.234,56`, filtered to `1.234,56`, turned into `1.234.56` and read as 1.234 | the total is the sum of the credits, which is what reading the text with its thousands points removed gives back | not executed | CreditosTributarios.TotalComoEscrito | CreditosTributarios.TotalLidoCorrigido |
