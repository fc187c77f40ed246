/**
 * `generate_ap004.py`: the AP004 file, one opt-in line per record (operation type, reference,
 * requester, financier, acquirers, final receiving user, payment arrangements, signature, start
 * and end dates, holder, portfolio, protocol, receiving institution). The two list fields are
 * joined with '|' and, when they hold more than one element, wrapped in quotes by hand before
 * the writer sees them.
 */
module Ap004 {
  import opened Wrappers
  import opened Text
  import opened Formatters
  import opened LineWriter
  import ListEncoder
  import FileWriter

  const LAYOUT := "CERC-AP004"
  const ROW_ARITY := 14
  const REFERENCE_PREFIX := "REF_"
  const OPERATION_TYPES := ["C", "A"]
  /** The operation type that updates an opt-in, and the only one that carries a protocol. */
  const UPDATE := "A"
  const MAX_ACQUIRERS := 2
  const MAX_ARRANGEMENTS := 3

  /**
   * `cnpj_credenciadora`, `cnpj_solicitante`, `cnpj_financiador`, the merchant CNPJs read from
   * their file, and the configured `arranjos_pagamento` and optional `carteira_padrao`.
   */
  datatype Config = Config(
    cnpjCredenciadora: string,
    cnpjSolicitante: string,
    cnpjFinanciador: string,
    cnpjsEc: seq<string>,
    arranjosPagamento: seq<string>,
    carteiraPadrao: Option<string>)

  /** `__init__` refuses a configuration whose merchant list is empty. */
  function NewConfig(
    cnpjCredenciadora: string, cnpjSolicitante: string, cnpjFinanciador: string, cnpjsEc: seq<string>,
    arranjosPagamento: seq<string>, carteiraPadrao: Option<string>): (r: Option<Config>)
    ensures r.None? <==> cnpjsEc == []
    ensures r.Some? ==>
      r.value == Config(cnpjCredenciadora, cnpjSolicitante, cnpjFinanciador, cnpjsEc, arranjosPagamento, carteiraPadrao)
  {
    if cnpjsEc == [] then None
    else Some(Config(cnpjCredenciadora, cnpjSolicitante, cnpjFinanciador, cnpjsEc, arranjosPagamento, carteiraPadrao))
  }

  datatype Record = Record(
    tipoOperacao: Option<string>,
    referenciaExterna: Option<string>,
    solicitante: Option<string>,
    financiador: Option<string>,
    credenciadoras: Option<seq<string>>,
    usuarioFinalRecebedor: Option<string>,
    arranjosPagamento: Option<seq<string>>,
    dataAssinatura: Option<Date>,
    dataInicio: Option<Date>,
    dataFim: Option<Date>,
    titular: Option<string>,
    carteira: Option<string>,
    protocolo: Option<string>,
    instituicaoRecebedoraAgenda: Option<string>)

  /**
   * `format_lista_credenciadoras` and `format_lista_arranjos`: the single element of a
   * one-element list, otherwise the elements joined with '|'. The special case changes nothing:
   * both are `'|'.join(xs)`, and an empty list gives the empty string.
   */
  function FormatLista(xs: seq<string>): (r: string)
    ensures r == Join(xs, [ListEncoder.ITEM_SEPARATOR])
    ensures xs == [] ==> r == ""
  {
    if |xs| == 1 then xs[0] else Join(xs, [ListEncoder.ITEM_SEPARATOR])
  }

  /**
   * The list token of `generate_row`: the formatted list, enclosed in a pair of literal quotes
   * when the list has more than one element.
   */
  function ListToken(xs: seq<string>): (token: string)
    ensures |xs| > 1 ==> token == [QUOTE] + Join(xs, [ListEncoder.ITEM_SEPARATOR]) + [QUOTE]
    ensures |xs| <= 1 ==> token == Join(xs, [ListEncoder.ITEM_SEPARATOR])
  {
    var s := FormatLista(xs);
    if |xs| > 1 then [QUOTE] + s + [QUOTE] else s
  }

  /**
   * A list of two or more elements, none holding a quote, reaches the file quoted twice: the
   * writer sees the hand-made quotes, encloses the token in its own pair and doubles the inner
   * ones, so `['a', 'b']` becomes `"""a|b"""`.
   */
  lemma ListTokenQuotedTwice(xs: seq<string>)
    requires |xs| > 1
    requires forall k | 0 <= k < |xs| :: QUOTE !in xs[k]
    ensures QuoteField(ListToken(xs)) ==
      [QUOTE, QUOTE, QUOTE] + Join(xs, [ListEncoder.ITEM_SEPARATOR]) + [QUOTE, QUOTE, QUOTE]
  {
    InJoin(xs, [ListEncoder.ITEM_SEPARATOR], QUOTE);
    PreQuotedTokenIsQuotedTwice(Join(xs, [ListEncoder.ITEM_SEPARATOR]));
  }

  /**
   * Reading a list token back: the '|'-separated parts inside a pair of literal quotes, nothing
   * for an empty token, and any other token as a one-element list.
   */
  function ParseListToken(token: string): (xs: seq<string>)
    ensures token == "" ==> xs == []
    ensures token != "" && QUOTE !in token ==> xs == [token]
  {
    if |token| >= 2 && token[0] == QUOTE && token[|token| - 1] == QUOTE then
      Split(token[1..|token| - 1], ListEncoder.ITEM_SEPARATOR)
    else if token == "" then []
    else [token]
  }

  /** The list elements of the layouts: CNPJs and arrangement codes, never empty, '|' or '"'. */
  predicate PlainElements(xs: seq<string>)
  {
    forall k | 0 <= k < |xs| :: xs[k] != "" && ListEncoder.ITEM_SEPARATOR !in xs[k] && QUOTE !in xs[k]
  }

  /** A list of plain elements comes back whole from its token, however long it is. */
  lemma ListTokenReadsBack(xs: seq<string>)
    requires PlainElements(xs)
    ensures ParseListToken(ListToken(xs)) == xs
  {
    var token := ListToken(xs);
    if |xs| > 1 {
      var joined := Join(xs, [ListEncoder.ITEM_SEPARATOR]);
      assert token[1..|token| - 1] == joined;
      SplitJoin(xs, ListEncoder.ITEM_SEPARATOR);
    } else if |xs| == 1 {
      assert token == xs[0];
    }
  }

  /**
   * A one-element list whose element needs no quoting is written bare, '|' or not: only the
   * longer lists carry quotes.
   */
  lemma SingleListTokenBare(x: string)
    requires !NeedsQuoting(x)
    ensures QuoteField(ListToken([x])) == x
  {
  }

  /**
   * The token `generate_row` writes at `position`: a missing operation type is "C", missing
   * dates are today's except the end date, and the end date, the holder and the receiving
   * institution are left empty when absent or empty.
   */
  function Field(data: Record, today: Date, position: nat): (token: string)
    requires position < ROW_ARITY
    ensures position == 0 && data.tipoOperacao.None? ==> token == "C"
    ensures position == 2 || position == 3 || position == 5 ==> |token| >= CNPJ_WIDTH
    ensures position == 7 || position == 8 ==> IsIsoDate(token)
    ensures position == 9 ==> (token == "" <==> data.dataFim.None?) && (token != "" ==> IsIsoDate(token))
    ensures position == 10 ==> (token == "" <==> !Truthy(data.titular))
    ensures position == 10 && token != "" ==> |token| >= CNPJ_WIDTH
    ensures position == 13 ==> (token == "" <==> !Truthy(data.instituicaoRecebedoraAgenda))
    ensures position == 13 && token != "" ==> |token| >= CNPJ_WIDTH
  {
    match position
    case 0 => data.tipoOperacao.GetOr("C")
    case 1 => data.referenciaExterna.GetOr("")
    case 2 => FormatCnpj(data.solicitante.GetOr(""))
    case 3 => FormatCnpj(data.financiador.GetOr(""))
    case 4 => ListToken(data.credenciadoras.GetOr([]))
    case 5 => FormatCnpj(data.usuarioFinalRecebedor.GetOr(""))
    case 6 => ListToken(data.arranjosPagamento.GetOr([]))
    case 7 => FormatDate(data.dataAssinatura.GetOr(today))
    case 8 => FormatDate(data.dataInicio.GetOr(today))
    case 9 => if data.dataFim.Some? then FormatDate(data.dataFim.value) else ""
    case 10 => if Truthy(data.titular) then FormatCnpj(data.titular.value) else ""
    case 11 => data.carteira.GetOr("")
    case 12 => data.protocolo.GetOr("")
    case _ =>
      if Truthy(data.instituicaoRecebedoraAgenda) then FormatCnpj(data.instituicaoRecebedoraAgenda.value) else ""
  }

  /** `generate_row`: the fourteen tokens in layout order. */
  function Row(data: Record, today: Date): (row: seq<string>)
    ensures |row| == ROW_ARITY
  {
    seq(ROW_ARITY, i requires 0 <= i < ROW_ARITY => Field(data, today, i))
  }

  /**
   * Every token of a row reads back as the value it was written from, or as its default: the
   * lists as their '|' join (inside literal quotes when longer than one), the dates as the same
   * day, the identifiers with their digits.
   */
  lemma RowReadsBack(data: Record, today: Date)
    ensures var row := Row(data, today);
      && row[0] == data.tipoOperacao.GetOr("C")
      && row[1] == data.referenciaExterna.GetOr("")
      && (IsDigits(data.solicitante.GetOr("")) ==>
            IsDigits(row[2]) && DigitsValue(row[2]) == DigitsValue(data.solicitante.GetOr("")))
      && (IsDigits(data.financiador.GetOr("")) ==>
            IsDigits(row[3]) && DigitsValue(row[3]) == DigitsValue(data.financiador.GetOr("")))
      && (PlainElements(data.credenciadoras.GetOr([])) ==>
            ParseListToken(row[4]) == data.credenciadoras.GetOr([]))
      && (IsDigits(data.usuarioFinalRecebedor.GetOr("")) ==>
            IsDigits(row[5]) && DigitsValue(row[5]) == DigitsValue(data.usuarioFinalRecebedor.GetOr("")))
      && (PlainElements(data.arranjosPagamento.GetOr([])) ==>
            ParseListToken(row[6]) == data.arranjosPagamento.GetOr([]))
      && IsIsoDate(row[7]) && ParseIsoDate(row[7]) == data.dataAssinatura.GetOr(today)
      && IsIsoDate(row[8]) && ParseIsoDate(row[8]) == data.dataInicio.GetOr(today)
      && (data.dataFim.Some? ==> IsIsoDate(row[9]) && ParseIsoDate(row[9]) == data.dataFim.value)
      && (!Truthy(data.titular) ==> row[10] == "")
      && (Truthy(data.titular) && IsDigits(data.titular.value) ==>
            IsDigits(row[10]) && DigitsValue(row[10]) == DigitsValue(data.titular.value))
      && row[11] == data.carteira.GetOr("")
      && row[12] == data.protocolo.GetOr("")
      && (!Truthy(data.instituicaoRecebedoraAgenda) ==> row[13] == "")
      && (Truthy(data.instituicaoRecebedoraAgenda) && IsDigits(data.instituicaoRecebedoraAgenda.value) ==>
            IsDigits(row[13]) && DigitsValue(row[13]) == DigitsValue(data.instituicaoRecebedoraAgenda.value))
  {
    TextTokensReadBack(data, today);
    CnpjTokensReadBack(data, today);
    OptionalCnpjTokensReadBack(data, today);
    ListTokensReadBack(data, today);
    SignatureDateReadsBack(data, today);
    StartDateReadsBack(data, today);
    if data.dataFim.Some? {
      EndDateReadsBack(data, today);
    }
  }

  lemma TextTokensReadBack(data: Record, today: Date)
    ensures var row := Row(data, today);
      && row[0] == data.tipoOperacao.GetOr("C")
      && row[1] == data.referenciaExterna.GetOr("")
      && row[11] == data.carteira.GetOr("")
      && row[12] == data.protocolo.GetOr("")
  {
  }

  lemma CnpjTokensReadBack(data: Record, today: Date)
    ensures var row := Row(data, today);
      && (IsDigits(data.solicitante.GetOr("")) ==>
            IsDigits(row[2]) && DigitsValue(row[2]) == DigitsValue(data.solicitante.GetOr("")))
      && (IsDigits(data.financiador.GetOr("")) ==>
            IsDigits(row[3]) && DigitsValue(row[3]) == DigitsValue(data.financiador.GetOr("")))
      && (IsDigits(data.usuarioFinalRecebedor.GetOr("")) ==>
            IsDigits(row[5]) && DigitsValue(row[5]) == DigitsValue(data.usuarioFinalRecebedor.GetOr("")))
  {
  }

  /**
   * The holder and the receiving institution are empty when missing or empty, and otherwise keep
   * the digit value of the CNPJ they were written from.
   */
  lemma OptionalCnpjTokensReadBack(data: Record, today: Date)
    ensures var row := Row(data, today);
      && (!Truthy(data.titular) ==> row[10] == "")
      && (Truthy(data.titular) && IsDigits(data.titular.value) ==>
            IsDigits(row[10]) && DigitsValue(row[10]) == DigitsValue(data.titular.value))
      && (!Truthy(data.instituicaoRecebedoraAgenda) ==> row[13] == "")
      && (Truthy(data.instituicaoRecebedoraAgenda) && IsDigits(data.instituicaoRecebedoraAgenda.value) ==>
            IsDigits(row[13]) && DigitsValue(row[13]) == DigitsValue(data.instituicaoRecebedoraAgenda.value))
  {
  }

  /** The acquirer and arrangement tokens give back the lists they were written from. */
  lemma ListTokensReadBack(data: Record, today: Date)
    ensures var row := Row(data, today);
      && (PlainElements(data.credenciadoras.GetOr([])) ==>
            ParseListToken(row[4]) == data.credenciadoras.GetOr([]))
      && (PlainElements(data.arranjosPagamento.GetOr([])) ==>
            ParseListToken(row[6]) == data.arranjosPagamento.GetOr([]))
  {
    var row := Row(data, today);
    if PlainElements(data.credenciadoras.GetOr([])) {
      assert row[4] == ListToken(data.credenciadoras.GetOr([]));
      ListTokenReadsBack(data.credenciadoras.GetOr([]));
    }
    if PlainElements(data.arranjosPagamento.GetOr([])) {
      assert row[6] == ListToken(data.arranjosPagamento.GetOr([]));
      ListTokenReadsBack(data.arranjosPagamento.GetOr([]));
    }
  }

  lemma SignatureDateReadsBack(data: Record, today: Date)
    ensures IsIsoDate(Row(data, today)[7]) && ParseIsoDate(Row(data, today)[7]) == data.dataAssinatura.GetOr(today)
  {
    FormatDateReadsBack(data.dataAssinatura.GetOr(today));
  }

  lemma StartDateReadsBack(data: Record, today: Date)
    ensures IsIsoDate(Row(data, today)[8]) && ParseIsoDate(Row(data, today)[8]) == data.dataInicio.GetOr(today)
  {
    FormatDateReadsBack(data.dataInicio.GetOr(today));
  }

  lemma EndDateReadsBack(data: Record, today: Date)
    requires data.dataFim.Some?
    ensures IsIsoDate(Row(data, today)[9]) && ParseIsoDate(Row(data, today)[9]) == data.dataFim.value
  {
    FormatDateReadsBack(data.dataFim.value);
  }

  /**
   * The draws of `generate_random_record`: the operation type and merchant as indices, the
   * signature date (today minus up to 30 days), the start date (today plus
   * `dias_futuros_inicio`), the end date (the start plus 30 to `dias_futuros_fim` days), how many
   * times the acquirer is listed, the positions `random.sample` picks from the configured
   * arrangements, and the protocol number (used only for an update).
   */
  datatype Draw = Draw(
    operacao: nat, ec: nat, dataAssinatura: Date, dataInicio: Date, dataFim: Date,
    credenciadoras: nat, arranjos: seq<nat>, protocol: nat)

  predicate ValidDraw(config: Config, d: Draw)
  {
    && d.operacao < |OPERATION_TYPES| && d.ec < |config.cnpjsEc|
    && 1 <= d.credenciadoras <= MAX_ACQUIRERS
    && 1 <= |d.arranjos| <= MAX_ARRANGEMENTS && |d.arranjos| <= |config.arranjosPagamento|
    && (forall k | 0 <= k < |d.arranjos| :: d.arranjos[k] < |config.arranjosPagamento|)
    && (forall k, j | 0 <= k < j < |d.arranjos| :: d.arranjos[k] != d.arranjos[j])
    && (OPERATION_TYPES[d.operacao] == UPDATE ==> 100000 <= d.protocol <= 999999)
  }

  /**
   * `generate_random_record`: the acquirer listed once or twice, one to three distinct
   * arrangements, a protocol only for an update, and the holder and the receiving institution
   * left empty.
   */
  function RandomRecord(config: Config, referencia: string, d: Draw): (r: Record)
    requires ValidDraw(config, d)
    ensures r.tipoOperacao.Some? && r.tipoOperacao.value in OPERATION_TYPES
    ensures r.referenciaExterna == Some(referencia)
    ensures r.solicitante == Some(config.cnpjSolicitante) && r.financiador == Some(config.cnpjFinanciador)
    ensures r.credenciadoras == Some(Repeat(config.cnpjCredenciadora, d.credenciadoras))
    ensures r.usuarioFinalRecebedor.Some? && r.usuarioFinalRecebedor.value in config.cnpjsEc
    ensures r.arranjosPagamento.Some? && 1 <= |r.arranjosPagamento.value| <= MAX_ARRANGEMENTS
    ensures forall k | 0 <= k < |r.arranjosPagamento.value| :: r.arranjosPagamento.value[k] in config.arranjosPagamento
    ensures r.dataFim.Some?
    ensures r.titular == Some("") && r.instituicaoRecebedoraAgenda == Some("")
    ensures r.carteira == Some(config.carteiraPadrao.GetOr("Carteira1"))
    ensures r.protocolo.Some? && (r.protocolo.value != "" <==> r.tipoOperacao.value == UPDATE)
  {
    var tipo := OPERATION_TYPES[d.operacao];
    var protocolo := if tipo == UPDATE then FileWriter.Protocol(d.protocol) else "";
    Record(
      Some(tipo), Some(referencia), Some(config.cnpjSolicitante), Some(config.cnpjFinanciador),
      Some(Repeat(config.cnpjCredenciadora, d.credenciadoras)),
      Some(config.cnpjsEc[d.ec]),
      Some(seq(|d.arranjos|, k requires 0 <= k < |d.arranjos| => config.arranjosPagamento[d.arranjos[k]])),
      Some(d.dataAssinatura), Some(d.dataInicio), Some(d.dataFim),
      Some(""), Some(config.carteiraPadrao.GetOr("Carteira1")), Some(protocolo), Some(""))
  }

  /**
   * In a generated line the holder and the receiving institution are empty, the end date is
   * written, and the protocol is present exactly on update lines.
   */
  lemma RandomRowOptionalFields(config: Config, referencia: string, d: Draw, today: Date)
    requires ValidDraw(config, d)
    ensures var row := Row(RandomRecord(config, referencia, d), today);
      && row[10] == "" && row[13] == ""
      && IsIsoDate(row[9]) && ParseIsoDate(row[9]) == d.dataFim
      && (row[12] != "" <==> row[0] == UPDATE)
  {
    var r := RandomRecord(config, referencia, d);
    RowReadsBack(r, today);
    assert Row(r, today)[10] == Field(r, today, 10);
    assert Row(r, today)[13] == Field(r, today, 13);
  }

  /** `[x] * n`. */
  function Repeat(x: string, n: nat): (r: seq<string>)
    ensures |r| == n && forall k | 0 <= k < n :: r[k] == x
  {
    seq(n, _ => x)
  }

  /**
   * The acquirer listed twice gives the token `"cnpj|cnpj"`, which the line carries as
   * `"""cnpj|cnpj"""`; listed once it is the bare CNPJ.
   */
  lemma RepeatedAcquirerToken(c: string, n: nat)
    requires 1 <= n <= MAX_ACQUIRERS && QUOTE !in c
    ensures n == 1 ==> ListToken(Repeat(c, n)) == c
    ensures n == 2 ==>
      && ListToken(Repeat(c, n)) == [QUOTE] + c + [ListEncoder.ITEM_SEPARATOR] + c + [QUOTE]
      && QuoteField(ListToken(Repeat(c, n))) ==
           [QUOTE, QUOTE, QUOTE] + c + [ListEncoder.ITEM_SEPARATOR] + c + [QUOTE, QUOTE, QUOTE]
  {
    var xs := Repeat(c, n);
    if n == 2 {
      assert xs == [c, c];
      assert Join(xs, [ListEncoder.ITEM_SEPARATOR]) == c + [ListEncoder.ITEM_SEPARATOR] + c;
      ListTokenQuotedTwice(xs);
    } else {
      assert xs == [c];
    }
  }

  /** In a generated line the acquirer token is the configured CNPJ, repeated as drawn. */
  lemma RandomAcquirersToken(config: Config, referencia: string, d: Draw, today: Date)
    requires ValidDraw(config, d)
    ensures Row(RandomRecord(config, referencia, d), today)[4] == ListToken(Repeat(config.cnpjCredenciadora, d.credenciadoras))
  {
    var r := RandomRecord(config, referencia, d);
    assert Row(r, today)[4] == Field(r, today, 4);
  }

  /** `generate_filename`: no `_ret` suffix, root taken from the acquirer's CNPJ. */
  function FileName(config: Config, date: Date): (name: string)
    ensures StartsWith(name, LAYOUT + "_" + FileWriter.CnpjRaiz(config.cnpjCredenciadora) + "_")
    ensures !EndsWith(name, FileWriter.RETURN_SUFFIX + FileWriter.CSV_EXTENSION)
  {
    assert Pow10(7) == 10000000;
    FileWriter.FileName(LAYOUT, config.cnpjCredenciadora, date, FileWriter.SEQUENCE, false)
  }

  /** The lines `generate_file` writes for the given draws: one per record, in record order. */
  function Lines(config: Config, draws: seq<Draw>, today: Date): (lines: seq<string>)
    requires forall k | 0 <= k < |draws| :: ValidDraw(config, draws[k])
    ensures |lines| == |draws|
  {
    seq(|draws|, k requires 0 <= k < |draws| =>
      WriteRow(Row(RandomRecord(config, FileWriter.Reference(REFERENCE_PREFIX, k), draws[k]), today)))
  }

  /** No two lines of a generated file are the same: each carries its own reference. */
  lemma LinesDistinct(config: Config, draws: seq<Draw>, today: Date)
    requires forall k | 0 <= k < |draws| :: ValidDraw(config, draws[k])
    ensures forall k, j | 0 <= k < j < |draws| :: Lines(config, draws, today)[k] != Lines(config, draws, today)[j]
  {
    var rows := seq(|draws|, k requires 0 <= k < |draws| =>
      Row(RandomRecord(config, FileWriter.Reference(REFERENCE_PREFIX, k), draws[k]), today));
    FileWriter.LinesDistinct(rows, 1, REFERENCE_PREFIX);
  }

  /**
   * `generate_file`: the records `REF_000001`, `REF_000002`, ... built from the draws in order,
   * then one written line per record in the same order.
   */
  method GenerateFile(config: Config, draws: seq<Draw>, date: Date, today: Date) returns (name: string, lines: seq<string>)
    requires forall k | 0 <= k < |draws| :: ValidDraw(config, draws[k])
    ensures name == FileName(config, date)
    ensures lines == Lines(config, draws, today)
  {
    name := FileName(config, date);
    var records := FileWriter.BuildRecords(draws,
      (i, d) requires ValidDraw(config, d) => RandomRecord(config, FileWriter.Reference(REFERENCE_PREFIX, i), d));
    lines := FileWriter.WriteRows(records, r => Row(r, today));
  }
}
