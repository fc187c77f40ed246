/**
 * `generate_ap003.py`: the AP003 file, one post-contracted settlement line per record
 * (reference, expected settlement date, holder, final receiving user, acquirer, payment
 * arrangement, actual settlement date, advanced amount, the account it was paid into and the
 * amount paid).
 */
module Ap003 {
  import opened Wrappers
  import opened Text
  import opened Formatters
  import opened LineWriter
  import opened Amounts
  import opened BankAccounts
  import FileWriter

  const LAYOUT := "CERC-AP003"
  const ROW_ARITY := 14
  const REFERENCE_PREFIX := "REF_"
  const DEFAULT_ISPB := "00000001"
  /** The lower bound of `uniform(100.00, valor_maximo_antecipacao)`, in reais. */
  const MIN_ADVANCE := 100.0
  /** `uniform(0.95, 1.0)`: the share of the advanced amount that is paid. */
  const MIN_PAID_FACTOR := 0.95

  /**
   * `cnpj_credenciadora`, the merchant CNPJs and bank accounts read from their files, and the
   * configured `arranjos_pagamento` and `valor_maximo_antecipacao` (in reais).
   */
  datatype Config = Config(
    cnpjCredenciadora: string,
    cnpjsEc: seq<string>,
    contasBancarias: seq<Account>,
    arranjosPagamento: seq<string>,
    valorMaximoAntecipacao: real)

  /** `__init__` refuses a configuration without merchants or without bank accounts. */
  function NewConfig(
    cnpjCredenciadora: string, cnpjsEc: seq<string>, contasBancarias: seq<Account>,
    arranjosPagamento: seq<string>, valorMaximoAntecipacao: real): (r: Option<Config>)
    ensures r.None? <==> cnpjsEc == [] || contasBancarias == []
    ensures r.Some? ==> r.value == Config(cnpjCredenciadora, cnpjsEc, contasBancarias, arranjosPagamento, valorMaximoAntecipacao)
  {
    if cnpjsEc == [] || contasBancarias == [] then None
    else Some(Config(cnpjCredenciadora, cnpjsEc, contasBancarias, arranjosPagamento, valorMaximoAntecipacao))
  }

  /** The record dictionary; amounts are in cents. */
  datatype Record = Record(
    referenciaExterna: Option<string>,
    dataLiquidacaoPrevista: Option<Date>,
    titular: Option<string>,
    usuarioFinalRecebedor: Option<string>,
    credenciadora: Option<string>,
    arranjoPagamento: Option<string>,
    dataLiquidacaoEfetiva: Option<Date>,
    valorAntecipado: Option<int>,
    titularConta: Option<string>,
    tipoConta: Option<string>,
    ispb: Option<string>,
    agencia: Option<string>,
    numeroConta: Option<string>,
    valorPago: Option<int>)

  /**
   * The token `generate_row` writes at `position`: missing dates are today's, the holder, the
   * receiving user and the account holder are zero-filled to 11, the acquirer to 14, the ISPB
   * to 8, and the amounts have two decimals.
   */
  function Field(data: Record, today: Date, position: nat): (token: string)
    requires position < ROW_ARITY
    ensures position == 1 || position == 6 ==> IsIsoDate(token)
    ensures position == 2 || position == 3 || position == 8 ==> |token| >= CPF_WIDTH
    ensures position == 4 ==> |token| >= CNPJ_WIDTH
    ensures position == 7 || position == 13 ==> HasFraction(token, AMOUNT_DECIMALS)
    ensures position == 10 ==> |token| >= ISPB_WIDTH
  {
    match position
    case 0 => data.referenciaExterna.GetOr("")
    case 1 => FormatDate(data.dataLiquidacaoPrevista.GetOr(today))
    case 2 => FormatCpf(data.titular.GetOr(""))
    case 3 => FormatCpf(data.usuarioFinalRecebedor.GetOr(""))
    case 4 => FormatCnpj(data.credenciadora.GetOr(""))
    case 5 => data.arranjoPagamento.GetOr("")
    case 6 => FormatDate(data.dataLiquidacaoEfetiva.GetOr(today))
    case 7 => FormatAmount(data.valorAntecipado.GetOr(0))
    case 8 => FormatCpf(data.titularConta.GetOr(""))
    case 9 => data.tipoConta.GetOr("CC")
    case 10 => FormatIspb(data.ispb, DEFAULT_ISPB)
    case 11 => data.agencia.GetOr("1234")
    case 12 => data.numeroConta.GetOr("123456-7")
    case _ => FormatAmount(data.valorPago.GetOr(0))
  }

  /** `generate_row`: the fourteen tokens in layout order. */
  function Row(data: Record, today: Date): (row: seq<string>)
    ensures |row| == ROW_ARITY
  {
    seq(ROW_ARITY, i requires 0 <= i < ROW_ARITY => Field(data, today, i))
  }

  /**
   * Every token of a row reads back as the value it was written from, or as its default: only
   * the zero-filling of a short identifier is lost between a record and its line.
   */
  lemma RowReadsBack(data: Record, today: Date)
    ensures var row := Row(data, today);
      && row[0] == data.referenciaExterna.GetOr("")
      && IsIsoDate(row[1]) && ParseIsoDate(row[1]) == data.dataLiquidacaoPrevista.GetOr(today)
      && (IsDigits(data.titular.GetOr("")) ==>
            IsDigits(row[2]) && DigitsValue(row[2]) == DigitsValue(data.titular.GetOr("")))
      && (IsDigits(data.usuarioFinalRecebedor.GetOr("")) ==>
            IsDigits(row[3]) && DigitsValue(row[3]) == DigitsValue(data.usuarioFinalRecebedor.GetOr("")))
      && (IsDigits(data.credenciadora.GetOr("")) ==>
            IsDigits(row[4]) && DigitsValue(row[4]) == DigitsValue(data.credenciadora.GetOr("")))
      && row[5] == data.arranjoPagamento.GetOr("")
      && IsIsoDate(row[6]) && ParseIsoDate(row[6]) == data.dataLiquidacaoEfetiva.GetOr(today)
      && ParseFixed(row[7], AMOUNT_DECIMALS) == Some(data.valorAntecipado.GetOr(0))
      && (IsDigits(data.titularConta.GetOr("")) ==>
            IsDigits(row[8]) && DigitsValue(row[8]) == DigitsValue(data.titularConta.GetOr("")))
      && row[9] == data.tipoConta.GetOr("CC")
      && (IsDigits(data.ispb.GetOr(DEFAULT_ISPB)) ==>
            IsDigits(row[10]) && DigitsValue(row[10]) == DigitsValue(data.ispb.GetOr(DEFAULT_ISPB)))
      && row[11] == data.agencia.GetOr("1234")
      && row[12] == data.numeroConta.GetOr("123456-7")
      && ParseFixed(row[13], AMOUNT_DECIMALS) == Some(data.valorPago.GetOr(0))
  {
    PartyTokensReadBack(data, today);
    AccountTokensReadBack(data, today);
    DateReadsBack(data, today, 1, data.dataLiquidacaoPrevista.GetOr(today));
    DateReadsBack(data, today, 6, data.dataLiquidacaoEfetiva.GetOr(today));
    AdvanceReadsBack(data, today);
    PaidReadsBack(data, today);
  }

  lemma PartyTokensReadBack(data: Record, today: Date)
    ensures var row := Row(data, today);
      && row[0] == data.referenciaExterna.GetOr("")
      && (IsDigits(data.titular.GetOr("")) ==>
            IsDigits(row[2]) && DigitsValue(row[2]) == DigitsValue(data.titular.GetOr("")))
      && (IsDigits(data.usuarioFinalRecebedor.GetOr("")) ==>
            IsDigits(row[3]) && DigitsValue(row[3]) == DigitsValue(data.usuarioFinalRecebedor.GetOr("")))
      && (IsDigits(data.credenciadora.GetOr("")) ==>
            IsDigits(row[4]) && DigitsValue(row[4]) == DigitsValue(data.credenciadora.GetOr("")))
      && row[5] == data.arranjoPagamento.GetOr("")
  {
  }

  lemma AccountTokensReadBack(data: Record, today: Date)
    ensures var row := Row(data, today);
      && (IsDigits(data.titularConta.GetOr("")) ==>
            IsDigits(row[8]) && DigitsValue(row[8]) == DigitsValue(data.titularConta.GetOr("")))
      && row[9] == data.tipoConta.GetOr("CC")
      && (IsDigits(data.ispb.GetOr(DEFAULT_ISPB)) ==>
            IsDigits(row[10]) && DigitsValue(row[10]) == DigitsValue(data.ispb.GetOr(DEFAULT_ISPB)))
      && row[11] == data.agencia.GetOr("1234")
      && row[12] == data.numeroConta.GetOr("123456-7")
  {
  }

  lemma DateReadsBack(data: Record, today: Date, position: nat, date: Date)
    requires position == 1 || position == 6
    requires date == if position == 1 then data.dataLiquidacaoPrevista.GetOr(today) else data.dataLiquidacaoEfetiva.GetOr(today)
    ensures IsIsoDate(Row(data, today)[position]) && ParseIsoDate(Row(data, today)[position]) == date
  {
    assert Row(data, today)[position] == Field(data, today, position) == FormatDate(date);
    FormatDateReadsBack(date);
  }

  lemma AdvanceReadsBack(data: Record, today: Date)
    ensures ParseFixed(Row(data, today)[7], AMOUNT_DECIMALS) == Some(data.valorAntecipado.GetOr(0))
  {
    FormatAmountReadsBack(data.valorAntecipado.GetOr(0));
  }

  lemma PaidReadsBack(data: Record, today: Date)
    ensures ParseFixed(Row(data, today)[13], AMOUNT_DECIMALS) == Some(data.valorPago.GetOr(0))
  {
    FormatAmountReadsBack(data.valorPago.GetOr(0));
  }

  /** A record without an ISPB is written with the default `00000001`, already eight digits. */
  lemma MissingIspbIsDefault(data: Record, today: Date)
    requires data.ispb.None?
    ensures Row(data, today)[10] == DEFAULT_ISPB
  {
    assert Row(data, today)[10] == FormatIspb(None, DEFAULT_ISPB);
  }

  /**
   * The draws of `generate_random_record`: the expected settlement date (today plus
   * `dias_futuros_liquidacao`) and the actual one (today minus up to 5 days), the indices of the
   * chosen merchant, account and arrangement, the advanced amount as drawn in reais, and the
   * share of it that is paid.
   */
  datatype Draw = Draw(
    dataPrevista: Date, dataEfetiva: Date, ec: nat, conta: nat, arranjo: nat, advance: real, paidFactor: real)

  predicate ValidDraw(config: Config, d: Draw)
  {
    && d.ec < |config.cnpjsEc| && d.conta < |config.contasBancarias| && d.arranjo < |config.arranjosPagamento|
    && UniformDraw(d.advance, MIN_ADVANCE, config.valorMaximoAntecipacao)
    && UniformDraw(d.paidFactor, MIN_PAID_FACTOR, 1.0)
  }

  /**
   * `generate_random_record`: the chosen merchant is both holder and receiving user, the
   * account's columns fall back to their defaults, the advanced amount is the draw rounded to
   * cents and the paid amount is the advanced amount scaled by the drawn share and rounded again.
   */
  function RandomRecord(config: Config, referencia: string, d: Draw): (r: Record)
    requires ValidDraw(config, d)
    ensures r.referenciaExterna == Some(referencia)
    ensures r.titular.Some? && r.titular.value in config.cnpjsEc && r.usuarioFinalRecebedor == r.titular
    ensures r.credenciadora == Some(config.cnpjCredenciadora)
    ensures r.arranjoPagamento.Some? && r.arranjoPagamento.value in config.arranjosPagamento
    ensures r.valorAntecipado == Some(ToCents(d.advance))
    ensures r.valorPago == Some(Scale(ToCents(d.advance), d.paidFactor))
    ensures r.ispb.Some?
    ensures var conta := config.contasBancarias[d.conta];
      conta.ispb.None? ==> r.ispb == Some(DEFAULT_ISPB)
  {
    var ec := config.cnpjsEc[d.ec];
    var conta := config.contasBancarias[d.conta];
    var advanced := ToCents(d.advance);
    Record(
      Some(referencia), Some(d.dataPrevista), Some(ec), Some(ec), Some(config.cnpjCredenciadora),
      Some(config.arranjosPagamento[d.arranjo]), Some(d.dataEfetiva), Some(advanced),
      Some(conta.numeroDocumentoTitular.GetOr("11111111111")), Some(conta.tipoConta.GetOr("CC")),
      Some(conta.ispb.GetOr(DEFAULT_ISPB)), Some(conta.agencia.GetOr("1234")),
      Some(conta.numeroConta.GetOr("123456-7")), Some(Scale(advanced, d.paidFactor)))
  }

  /**
   * The paid amount never exceeds the advanced amount and is at least 95% of it, rounded: a
   * non-negative amount scaled by a share between 0.95 and 1 and rounded to cents.
   */
  lemma PaidWithinAdvance(advanced: int, factor: real)
    requires advanced >= 0 && MIN_PAID_FACTOR <= factor <= 1.0
    ensures RoundHalfEven(advanced as real * MIN_PAID_FACTOR) <= Scale(advanced, factor) <= advanced
  {
    RoundScaledBetween(advanced, factor, advanced as real * factor);
  }

  /** The rounding step of `PaidWithinAdvance`, with the scaled amount named `scaled`. */
  lemma RoundScaledBetween(advanced: int, factor: real, scaled: real)
    requires advanced >= 0 && MIN_PAID_FACTOR <= factor <= 1.0 && scaled == advanced as real * factor
    ensures RoundHalfEven(advanced as real * MIN_PAID_FACTOR) <= RoundHalfEven(scaled) <= advanced
  {
    ScaledBetween(advanced, factor);
    RoundBetween(advanced as real * MIN_PAID_FACTOR, scaled, advanced);
  }

  /** Scaling a non-negative amount by a share between 0.95 and 1 keeps it between 95% and all of it. */
  lemma ScaledBetween(advanced: int, factor: real)
    requires advanced >= 0 && MIN_PAID_FACTOR <= factor <= 1.0
    ensures advanced as real * MIN_PAID_FACTOR <= advanced as real * factor <= advanced as real
  {
    var a := advanced as real;
    assert a * factor - a * MIN_PAID_FACTOR == a * (factor - MIN_PAID_FACTOR);
    assert a - a * factor == a * (1.0 - factor);
  }

  /** In a generated line the holder repeats the receiving user. */
  lemma RandomRowHolder(config: Config, referencia: string, d: Draw, today: Date)
    requires ValidDraw(config, d)
    ensures var row := Row(RandomRecord(config, referencia, d), today);
      row[3] == row[2]
  {
    var r := RandomRecord(config, referencia, d);
    var row := Row(r, today);
    assert row[2] == Field(r, today, 2) && row[3] == Field(r, today, 3);
  }

  /** In a generated line the advanced amount and the amount paid read back as the drawn ones. */
  lemma RandomRowAmounts(config: Config, referencia: string, d: Draw, today: Date)
    requires ValidDraw(config, d)
    ensures var row := Row(RandomRecord(config, referencia, d), today);
      && ParseFixed(row[7], AMOUNT_DECIMALS) == Some(ToCents(d.advance))
      && ParseFixed(row[13], AMOUNT_DECIMALS) == Some(Scale(ToCents(d.advance), d.paidFactor))
  {
    var r := RandomRecord(config, referencia, d);
    AdvanceReadsBack(r, today);
    PaidReadsBack(r, today);
  }

  /**
   * When the configured maximum is not negative, the amount paid is at most the advanced amount
   * and at least 95% of it (rounded).
   */
  lemma RandomPaidWithinAdvance(config: Config, d: Draw)
    requires ValidDraw(config, d) && config.valorMaximoAntecipacao >= 0.0
    ensures var advanced := ToCents(d.advance);
      && 0 <= Scale(advanced, d.paidFactor) <= advanced
      && RoundHalfEven(advanced as real * MIN_PAID_FACTOR) <= Scale(advanced, d.paidFactor)
  {
    assert d.advance >= 0.0;
    PaidWithinAdvance(ToCents(d.advance), d.paidFactor);
  }

  /** `generate_filename`: no `_ret` suffix, root taken from the acquirer's CNPJ. */
  function FileName(config: Config, date: Date): (name: string)
    ensures StartsWith(name, LAYOUT + "_" + FileWriter.CnpjRaiz(config.cnpjCredenciadora) + "_")
    ensures !EndsWith(name, FileWriter.RETURN_SUFFIX + FileWriter.CSV_EXTENSION)
  {
    assert Pow10(7) == 10000000;
    FileWriter.FileName(LAYOUT, config.cnpjCredenciadora, date, FileWriter.SEQUENCE, false)
  }

  /** The lines `generate_file` writes for the given draws: one per record, in record order. */
  function Lines(config: Config, draws: seq<Draw>, today: Date): (lines: seq<string>)
    requires forall k | 0 <= k < |draws| :: ValidDraw(config, draws[k])
    ensures |lines| == |draws|
  {
    seq(|draws|, k requires 0 <= k < |draws| =>
      WriteRow(Row(RandomRecord(config, FileWriter.Reference(REFERENCE_PREFIX, k), draws[k]), today)))
  }

  /** No two lines of a generated file are the same: each starts with its own reference. */
  lemma LinesDistinct(config: Config, draws: seq<Draw>, today: Date)
    requires forall k | 0 <= k < |draws| :: ValidDraw(config, draws[k])
    ensures forall k, j | 0 <= k < j < |draws| :: Lines(config, draws, today)[k] != Lines(config, draws, today)[j]
  {
    var rows := seq(|draws|, k requires 0 <= k < |draws| =>
      Row(RandomRecord(config, FileWriter.Reference(REFERENCE_PREFIX, k), draws[k]), today));
    FileWriter.LinesDistinct(rows, 0, REFERENCE_PREFIX);
  }

  /**
   * `generate_file`: the records `REF_000001`, `REF_000002`, ... built from the draws in order,
   * then one written line per record in the same order.
   */
  method GenerateFile(config: Config, draws: seq<Draw>, date: Date, today: Date) returns (name: string, lines: seq<string>)
    requires forall k | 0 <= k < |draws| :: ValidDraw(config, draws[k])
    ensures name == FileName(config, date)
    ensures lines == Lines(config, draws, today)
  {
    name := FileName(config, date);
    var records := FileWriter.BuildRecords(draws,
      (i, d) requires ValidDraw(config, d) => RandomRecord(config, FileWriter.Reference(REFERENCE_PREFIX, i), d));
    lines := FileWriter.WriteRows(records, r => Row(r, today));
  }
}
