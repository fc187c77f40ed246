/**
 * `generate_ap012.py`: the AP012 file, one contract-reconciliation line per record
 * (reference, reference date, participant, holder, effect type, operation modality, contract and
 * contracting-party counts, total outstanding balance, portfolio).
 */
module Ap012 {
  import opened Wrappers
  import opened Text
  import opened Formatters
  import opened LineWriter
  import FileWriter

  const LAYOUT := "CERC-AP012"
  const ROW_ARITY := 10
  const REFERENCE_PREFIX := "REF_"
  const EFFECT_TYPES := ["1", "2", "3", "4"]
  const MODALITIES := ["1", "2", "3"]
  const MAX_CONTRACTS := 10
  /** `uniform(10000.00, 1000000.00)`, in cents. */
  const MIN_BALANCE := 1000000
  const MAX_BALANCE := 100000000

  datatype Config = Config(cnpjParticipante: string, cnpjDetentor: string, carteiraPadrao: Option<string>)

  datatype Record = Record(
    referenciaExterna: Option<string>,
    dataReferencia: Option<Date>,
    participante: Option<string>,
    detentor: Option<string>,
    tipoEfeito: Option<string>,
    modalidadeOperacao: Option<string>,
    quantidadeContratos: Option<int>,
    quantidadeContratantes: Option<int>,
    saldoDevedorTotal: Option<int>,
    carteira: Option<string>)

  /**
   * The token `generate_row` writes at `position`: a missing reference date is today's, a
   * missing effect type or modality is "1", the counts are `str(int)` and the balance has two
   * decimals.
   */
  function Field(data: Record, today: Date, position: nat): (token: string)
    requires position < ROW_ARITY
    ensures position == 1 ==> IsIsoDate(token)
    ensures position == 2 || position == 3 ==> |token| >= CNPJ_WIDTH
    ensures position == 8 ==> HasFraction(token, AMOUNT_DECIMALS)
  {
    match position
    case 0 => data.referenciaExterna.GetOr("")
    case 1 => FormatDate(data.dataReferencia.GetOr(today))
    case 2 => FormatCnpj(data.participante.GetOr(""))
    case 3 => FormatCnpj(data.detentor.GetOr(""))
    case 4 => data.tipoEfeito.GetOr("1")
    case 5 => data.modalidadeOperacao.GetOr("1")
    case 6 => IntToString(data.quantidadeContratos.GetOr(0))
    case 7 => IntToString(data.quantidadeContratantes.GetOr(0))
    case 8 => FormatAmount(data.saldoDevedorTotal.GetOr(0))
    case _ => data.carteira.GetOr("")
  }

  /** `generate_row`: the ten tokens in layout order. */
  function Row(data: Record, today: Date): (row: seq<string>)
    ensures |row| == ROW_ARITY
  {
    seq(ROW_ARITY, i requires 0 <= i < ROW_ARITY => Field(data, today, i))
  }

  /**
   * Every token of a row reads back as the value it was written from, or as its default: only
   * the zero-filling of a short CNPJ is lost between a record and its line.
   */
  lemma RowReadsBack(data: Record, today: Date)
    ensures var row := Row(data, today);
      && row[0] == data.referenciaExterna.GetOr("")
      && IsIsoDate(row[1]) && ParseIsoDate(row[1]) == data.dataReferencia.GetOr(today)
      && (IsDigits(data.participante.GetOr("")) ==>
            IsDigits(row[2]) && DigitsValue(row[2]) == DigitsValue(data.participante.GetOr("")))
      && (IsDigits(data.detentor.GetOr("")) ==>
            IsDigits(row[3]) && DigitsValue(row[3]) == DigitsValue(data.detentor.GetOr("")))
      && row[4] == data.tipoEfeito.GetOr("1") && row[5] == data.modalidadeOperacao.GetOr("1")
      && ParseInt(row[6]) == Some(data.quantidadeContratos.GetOr(0))
      && ParseInt(row[7]) == Some(data.quantidadeContratantes.GetOr(0))
      && ParseFixed(row[8], AMOUNT_DECIMALS) == Some(data.saldoDevedorTotal.GetOr(0))
      && row[9] == data.carteira.GetOr("")
  {
    TextTokensReadBack(data, today);
    DateReadsBack(data, today);
    CountReadsBack(data, today, 6, data.quantidadeContratos.GetOr(0));
    CountReadsBack(data, today, 7, data.quantidadeContratantes.GetOr(0));
    BalanceReadsBack(data, today);
  }

  lemma TextTokensReadBack(data: Record, today: Date)
    ensures var row := Row(data, today);
      && row[0] == data.referenciaExterna.GetOr("")
      && (IsDigits(data.participante.GetOr("")) ==>
            IsDigits(row[2]) && DigitsValue(row[2]) == DigitsValue(data.participante.GetOr("")))
      && (IsDigits(data.detentor.GetOr("")) ==>
            IsDigits(row[3]) && DigitsValue(row[3]) == DigitsValue(data.detentor.GetOr("")))
      && row[4] == data.tipoEfeito.GetOr("1") && row[5] == data.modalidadeOperacao.GetOr("1")
      && row[9] == data.carteira.GetOr("")
  {
  }

  lemma DateReadsBack(data: Record, today: Date)
    ensures IsIsoDate(Row(data, today)[1]) && ParseIsoDate(Row(data, today)[1]) == data.dataReferencia.GetOr(today)
  {
    FormatDateReadsBack(data.dataReferencia.GetOr(today));
  }

  lemma CountReadsBack(data: Record, today: Date, position: nat, count: int)
    requires position == 6 || position == 7
    requires count == if position == 6 then data.quantidadeContratos.GetOr(0) else data.quantidadeContratantes.GetOr(0)
    ensures ParseInt(Row(data, today)[position]) == Some(count)
  {
    IntToStringReadsBack(count);
  }

  lemma BalanceReadsBack(data: Record, today: Date)
    ensures ParseFixed(Row(data, today)[8], AMOUNT_DECIMALS) == Some(data.saldoDevedorTotal.GetOr(0))
  {
    FormatAmountReadsBack(data.saldoDevedorTotal.GetOr(0));
  }

  /**
   * The draws of `generate_random_record`: the reference date (today minus up to 30 days), the
   * effect type and modality as indices, `randint(1, 10)` contracts, `randint(1, contracts)`
   * contracting parties, and the balance in cents.
   */
  datatype Draw = Draw(dataReferencia: Date, effect: nat, modality: nat, contracts: int, parties: int, balance: int)

  predicate ValidDraw(d: Draw)
  {
    && d.effect < |EFFECT_TYPES| && d.modality < |MODALITIES|
    && 1 <= d.contracts <= MAX_CONTRACTS && 1 <= d.parties <= d.contracts
    && MIN_BALANCE <= d.balance <= MAX_BALANCE
  }

  function RandomRecord(config: Config, referencia: string, d: Draw): (r: Record)
    requires ValidDraw(d)
    ensures r.referenciaExterna == Some(referencia)
    ensures r.participante == Some(config.cnpjParticipante) && r.detentor == Some(config.cnpjDetentor)
    ensures r.tipoEfeito.Some? && r.tipoEfeito.value in {"1", "2", "3", "4"}
    ensures r.modalidadeOperacao.Some? && r.modalidadeOperacao.value in {"1", "2", "3"}
    ensures r.quantidadeContratos.Some? && r.quantidadeContratantes.Some?
    ensures 1 <= r.quantidadeContratantes.value <= r.quantidadeContratos.value <= MAX_CONTRACTS
    ensures r.saldoDevedorTotal.Some? && MIN_BALANCE <= r.saldoDevedorTotal.value <= MAX_BALANCE
    ensures r.carteira == Some(config.carteiraPadrao.GetOr("Carteira1"))
  {
    Record(
      Some(referencia), Some(d.dataReferencia), Some(config.cnpjParticipante), Some(config.cnpjDetentor),
      Some(EFFECT_TYPES[d.effect]), Some(MODALITIES[d.modality]),
      Some(d.contracts), Some(d.parties), Some(d.balance),
      Some(config.carteiraPadrao.GetOr("Carteira1")))
  }

  /**
   * The values a generated line carries stay in the ranges `generate_random_record` draws from:
   * one of the listed effect types and modalities, between 1 and 10 contracts, never more
   * contracting parties than contracts, and a balance between 10 000.00 and 1 000 000.00.
   */
  lemma RandomRowInRange(config: Config, referencia: string, d: Draw, today: Date)
    requires ValidDraw(d)
    ensures var row := Row(RandomRecord(config, referencia, d), today);
      && row[4] in EFFECT_TYPES && row[5] in MODALITIES
      && ParseInt(row[6]).Some? && ParseInt(row[7]).Some?
      && 1 <= ParseInt(row[7]).value <= ParseInt(row[6]).value <= MAX_CONTRACTS
      && ParseFixed(row[8], AMOUNT_DECIMALS).Some?
      && MIN_BALANCE <= ParseFixed(row[8], AMOUNT_DECIMALS).value <= MAX_BALANCE
  {
    RowReadsBack(RandomRecord(config, referencia, d), today);
  }

  /** The counts of a generated line are written as one or two digits, with no padding. */
  lemma RandomCountsUnpadded(config: Config, referencia: string, d: Draw, today: Date)
    requires ValidDraw(d)
    ensures var row := Row(RandomRecord(config, referencia, d), today);
      && 1 <= |row[6]| <= 2 && 1 <= |row[7]| <= 2 && row[6][0] != '0' && row[7][0] != '0'
  {
    assert Pow10(2) == 100;
    NatToStringLength(d.contracts, 2);
    NatToStringLength(d.parties, 2);
  }

  /** `generate_filename`: `_ret` suffix, root taken from the participant's CNPJ. */
  function FileName(config: Config, date: Date): (name: string)
    ensures StartsWith(name, LAYOUT + "_" + FileWriter.CnpjRaiz(config.cnpjParticipante) + "_")
    ensures EndsWith(name, FileWriter.RETURN_SUFFIX + FileWriter.CSV_EXTENSION)
  {
    assert Pow10(7) == 10000000;
    FileWriter.FileName(LAYOUT, config.cnpjParticipante, date, FileWriter.SEQUENCE, true)
  }

  /** The lines `generate_file` writes for the given draws: one per record, in record order. */
  function Lines(config: Config, draws: seq<Draw>, today: Date): (lines: seq<string>)
    requires forall k | 0 <= k < |draws| :: ValidDraw(draws[k])
    ensures |lines| == |draws|
  {
    seq(|draws|, k requires 0 <= k < |draws| =>
      WriteRow(Row(RandomRecord(config, FileWriter.Reference(REFERENCE_PREFIX, k), draws[k]), today)))
  }

  /** No two lines of a generated file are the same: each starts with its own reference. */
  lemma LinesDistinct(config: Config, draws: seq<Draw>, today: Date)
    requires forall k | 0 <= k < |draws| :: ValidDraw(draws[k])
    ensures forall k, j | 0 <= k < j < |draws| :: Lines(config, draws, today)[k] != Lines(config, draws, today)[j]
  {
    var rows := seq(|draws|, k requires 0 <= k < |draws| =>
      Row(RandomRecord(config, FileWriter.Reference(REFERENCE_PREFIX, k), draws[k]), today));
    FileWriter.LinesDistinct(rows, 0, REFERENCE_PREFIX);
  }

  /**
   * `generate_file`: the records `REF_000001`, `REF_000002`, ... built from the draws in order,
   * then one written line per record in the same order.
   */
  method GenerateFile(config: Config, draws: seq<Draw>, date: Date, today: Date) returns (name: string, lines: seq<string>)
    requires forall k | 0 <= k < |draws| :: ValidDraw(draws[k])
    ensures name == FileName(config, date)
    ensures lines == Lines(config, draws, today)
  {
    name := FileName(config, date);
    var records := FileWriter.BuildRecords(draws,
      (i, d) requires ValidDraw(d) => RandomRecord(config, FileWriter.Reference(REFERENCE_PREFIX, i), d));
    lines := FileWriter.WriteRows(records, r => Row(r, today));
  }
}
