/**
 * `generate_ap010.py`: the AP010 file, one reconciled-schedule line per record (reference,
 * reference date, acquirer, final receiving user, payment arrangement, settlement date,
 * holder).
 */
module Ap010 {
  import opened Wrappers
  import opened Text
  import opened Formatters
  import opened LineWriter
  import FileWriter

  const LAYOUT := "CERC-AP010"
  const ROW_ARITY := 7
  const REFERENCE_PREFIX := "REF_"

  /**
   * `cnpj_credenciadora`, the merchant CNPJs read from `arquivo_cnpjs_ec` and the configured
   * `arranjos_pagamento`.
   */
  datatype Config = Config(cnpjCredenciadora: string, cnpjsEc: seq<string>, arranjosPagamento: seq<string>)

  /** `__init__` refuses a configuration whose merchant list is empty. */
  function NewConfig(cnpjCredenciadora: string, cnpjsEc: seq<string>, arranjosPagamento: seq<string>): (r: Option<Config>)
    ensures r.None? <==> cnpjsEc == []
    ensures r.Some? ==> r.value == Config(cnpjCredenciadora, cnpjsEc, arranjosPagamento)
  {
    if cnpjsEc == [] then None else Some(Config(cnpjCredenciadora, cnpjsEc, arranjosPagamento))
  }

  datatype Record = Record(
    referenciaExterna: Option<string>,
    dataReferencia: Option<Date>,
    credenciadora: Option<string>,
    usuarioFinalRecebedor: Option<string>,
    arranjoPagamento: Option<string>,
    dataLiquidacao: Option<Date>,
    titular: Option<string>)

  /**
   * The token `generate_row` writes at `position`: missing dates are today's, the acquirer is
   * zero-filled to 14 and the receiving user and the holder to 11, even though they carry a
   * merchant CNPJ.
   */
  function Field(data: Record, today: Date, position: nat): (token: string)
    requires position < ROW_ARITY
    ensures position == 1 || position == 5 ==> IsIsoDate(token)
    ensures position == 2 ==> |token| >= CNPJ_WIDTH
    ensures position == 3 || position == 6 ==> |token| >= CPF_WIDTH
  {
    match position
    case 0 => data.referenciaExterna.GetOr("")
    case 1 => FormatDate(data.dataReferencia.GetOr(today))
    case 2 => FormatCnpj(data.credenciadora.GetOr(""))
    case 3 => FormatCpf(data.usuarioFinalRecebedor.GetOr(""))
    case 4 => data.arranjoPagamento.GetOr("")
    case 5 => FormatDate(data.dataLiquidacao.GetOr(today))
    case _ => FormatCpf(data.titular.GetOr(""))
  }

  /** `generate_row`: the seven tokens in layout order. */
  function Row(data: Record, today: Date): (row: seq<string>)
    ensures |row| == ROW_ARITY
  {
    seq(ROW_ARITY, i requires 0 <= i < ROW_ARITY => Field(data, today, i))
  }

  /**
   * Every token of a row reads back as the value it was written from, or as its default: only
   * the zero-filling of a short identifier is lost between a record and its line.
   */
  lemma RowReadsBack(data: Record, today: Date)
    ensures var row := Row(data, today);
      && row[0] == data.referenciaExterna.GetOr("")
      && IsIsoDate(row[1]) && ParseIsoDate(row[1]) == data.dataReferencia.GetOr(today)
      && (IsDigits(data.credenciadora.GetOr("")) ==>
            IsDigits(row[2]) && DigitsValue(row[2]) == DigitsValue(data.credenciadora.GetOr("")))
      && (IsDigits(data.usuarioFinalRecebedor.GetOr("")) ==>
            IsDigits(row[3]) && DigitsValue(row[3]) == DigitsValue(data.usuarioFinalRecebedor.GetOr("")))
      && row[4] == data.arranjoPagamento.GetOr("")
      && IsIsoDate(row[5]) && ParseIsoDate(row[5]) == data.dataLiquidacao.GetOr(today)
      && (IsDigits(data.titular.GetOr("")) ==>
            IsDigits(row[6]) && DigitsValue(row[6]) == DigitsValue(data.titular.GetOr("")))
  {
    TextTokensReadBack(data, today);
    DateReadsBack(data, today, 1, data.dataReferencia.GetOr(today));
    DateReadsBack(data, today, 5, data.dataLiquidacao.GetOr(today));
  }

  lemma TextTokensReadBack(data: Record, today: Date)
    ensures var row := Row(data, today);
      && row[0] == data.referenciaExterna.GetOr("")
      && (IsDigits(data.credenciadora.GetOr("")) ==>
            IsDigits(row[2]) && DigitsValue(row[2]) == DigitsValue(data.credenciadora.GetOr("")))
      && (IsDigits(data.usuarioFinalRecebedor.GetOr("")) ==>
            IsDigits(row[3]) && DigitsValue(row[3]) == DigitsValue(data.usuarioFinalRecebedor.GetOr("")))
      && row[4] == data.arranjoPagamento.GetOr("")
      && (IsDigits(data.titular.GetOr("")) ==>
            IsDigits(row[6]) && DigitsValue(row[6]) == DigitsValue(data.titular.GetOr("")))
  {
  }

  lemma DateReadsBack(data: Record, today: Date, position: nat, date: Date)
    requires position == 1 || position == 5
    requires date == if position == 1 then data.dataReferencia.GetOr(today) else data.dataLiquidacao.GetOr(today)
    ensures IsIsoDate(Row(data, today)[position]) && ParseIsoDate(Row(data, today)[position]) == date
  {
    FormatDateReadsBack(date);
  }

  /** A record without an acquirer is written with fourteen zeros in its place. */
  lemma MissingAcquirerIsZeros(data: Record, today: Date)
    requires data.credenciadora.None?
    ensures Row(data, today)[2] == Zeros(CNPJ_WIDTH)
  {
    assert Row(data, today)[2] == ZFill("", CNPJ_WIDTH);
    assert ZFill("", CNPJ_WIDTH) == Zeros(CNPJ_WIDTH) + "";
  }

  /**
   * The draws of `generate_random_record`: the reference date (today minus up to 30 days) and
   * the indices of the chosen merchant and payment arrangement.
   */
  datatype Draw = Draw(dataReferencia: Date, ec: nat, arranjo: nat)

  predicate ValidDraw(config: Config, d: Draw)
  {
    d.ec < |config.cnpjsEc| && d.arranjo < |config.arranjosPagamento|
  }

  /**
   * `generate_random_record`: the chosen merchant is both the final receiving user and the
   * holder, and the settlement date is the reference date.
   */
  function RandomRecord(config: Config, referencia: string, d: Draw): (r: Record)
    requires ValidDraw(config, d)
    ensures r.referenciaExterna == Some(referencia)
    ensures r.dataReferencia == Some(d.dataReferencia) && r.dataLiquidacao == r.dataReferencia
    ensures r.credenciadora == Some(config.cnpjCredenciadora)
    ensures r.usuarioFinalRecebedor.Some? && r.usuarioFinalRecebedor.value in config.cnpjsEc
    ensures r.titular == r.usuarioFinalRecebedor
    ensures r.arranjoPagamento.Some? && r.arranjoPagamento.value in config.arranjosPagamento
  {
    var ec := config.cnpjsEc[d.ec];
    Record(
      Some(referencia), Some(d.dataReferencia), Some(config.cnpjCredenciadora), Some(ec),
      Some(config.arranjosPagamento[d.arranjo]), Some(d.dataReferencia), Some(ec))
  }

  /**
   * In a generated line the settlement date repeats the reference date, which is the drawn one,
   * the holder repeats the final receiving user, and the arrangement is one of the configured
   * ones.
   */
  lemma RandomRowSharedFields(config: Config, referencia: string, d: Draw, today: Date)
    requires ValidDraw(config, d)
    ensures var row := Row(RandomRecord(config, referencia, d), today);
      && row[5] == row[1] && ParseIsoDate(row[1]) == d.dataReferencia
      && row[6] == row[3]
      && row[4] in config.arranjosPagamento
  {
    var r := RandomRecord(config, referencia, d);
    DateReadsBack(r, today, 1, d.dataReferencia);
    assert Row(r, today)[4] == Field(r, today, 4);
  }

  /** `generate_filename`: `_ret` suffix, root taken from the acquirer's CNPJ. */
  function FileName(config: Config, date: Date): (name: string)
    ensures StartsWith(name, LAYOUT + "_" + FileWriter.CnpjRaiz(config.cnpjCredenciadora) + "_")
    ensures EndsWith(name, FileWriter.RETURN_SUFFIX + FileWriter.CSV_EXTENSION)
  {
    assert Pow10(7) == 10000000;
    FileWriter.FileName(LAYOUT, config.cnpjCredenciadora, date, FileWriter.SEQUENCE, true)
  }

  /** The lines `generate_file` writes for the given draws: one per record, in record order. */
  function Lines(config: Config, draws: seq<Draw>, today: Date): (lines: seq<string>)
    requires forall k | 0 <= k < |draws| :: ValidDraw(config, draws[k])
    ensures |lines| == |draws|
  {
    seq(|draws|, k requires 0 <= k < |draws| =>
      WriteRow(Row(RandomRecord(config, FileWriter.Reference(REFERENCE_PREFIX, k), draws[k]), today)))
  }

  /** No two lines of a generated file are the same: each starts with its own reference. */
  lemma LinesDistinct(config: Config, draws: seq<Draw>, today: Date)
    requires forall k | 0 <= k < |draws| :: ValidDraw(config, draws[k])
    ensures forall k, j | 0 <= k < j < |draws| :: Lines(config, draws, today)[k] != Lines(config, draws, today)[j]
  {
    var rows := seq(|draws|, k requires 0 <= k < |draws| =>
      Row(RandomRecord(config, FileWriter.Reference(REFERENCE_PREFIX, k), draws[k]), today));
    FileWriter.LinesDistinct(rows, 0, REFERENCE_PREFIX);
  }

  /**
   * `generate_file`: the records `REF_000001`, `REF_000002`, ... built from the draws in order,
   * then one written line per record in the same order.
   */
  method GenerateFile(config: Config, draws: seq<Draw>, date: Date, today: Date) returns (name: string, lines: seq<string>)
    requires forall k | 0 <= k < |draws| :: ValidDraw(config, draws[k])
    ensures name == FileName(config, date)
    ensures lines == Lines(config, draws, today)
  {
    name := FileName(config, date);
    var records := FileWriter.BuildRecords(draws,
      (i, d) requires ValidDraw(config, d) => RandomRecord(config, FileWriter.Reference(REFERENCE_PREFIX, i), d));
    lines := FileWriter.WriteRows(records, r => Row(r, today));
  }
}
