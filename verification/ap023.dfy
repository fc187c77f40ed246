/**
 * `generate_ap023.py`: the AP023 file, one opt-in reconciliation line per record (reference,
 * reference date, requester, financier, optional receiving institution, number of active
 * opt-ins, portfolio).
 */
module Ap023 {
  import opened Wrappers
  import opened Text
  import opened Formatters
  import opened LineWriter
  import FileWriter

  const LAYOUT := "CERC-AP023"
  const ROW_ARITY := 7
  const REFERENCE_PREFIX := "REF_"
  /** `randint(1, 20)` active opt-ins. */
  const MAX_ACTIVE_OPTINS := 20

  /** `cnpj_solicitante`, `cnpj_financiador` and the optional `carteira_padrao` of the configuration. */
  datatype Config = Config(cnpjSolicitante: string, cnpjFinanciador: string, carteiraPadrao: Option<string>)

  datatype Record = Record(
    referenciaExterna: Option<string>,
    dataReferencia: Option<Date>,
    solicitante: Option<string>,
    financiador: Option<string>,
    instituicaoRecebedoraAgenda: Option<string>,
    quantidadeOptinsAtivos: Option<int>,
    carteira: Option<string>)

  /**
   * The token `generate_row` writes at `position`: a missing reference date is today's, the
   * receiving institution is zero-filled only when it is present and not empty (otherwise the
   * token is empty), and the number of opt-ins is `str(int)`.
   */
  function Field(data: Record, today: Date, position: nat): (token: string)
    requires position < ROW_ARITY
    ensures position == 1 ==> IsIsoDate(token)
    ensures position == 2 || position == 3 ==> |token| >= CNPJ_WIDTH
    ensures position == 4 ==> (token == "" <==> !Truthy(data.instituicaoRecebedoraAgenda))
    ensures position == 4 && token != "" ==> |token| >= CNPJ_WIDTH
  {
    match position
    case 0 => data.referenciaExterna.GetOr("")
    case 1 => FormatDate(data.dataReferencia.GetOr(today))
    case 2 => FormatCnpj(data.solicitante.GetOr(""))
    case 3 => FormatCnpj(data.financiador.GetOr(""))
    case 4 =>
      if Truthy(data.instituicaoRecebedoraAgenda) then FormatCnpj(data.instituicaoRecebedoraAgenda.value) else ""
    case 5 => IntToString(data.quantidadeOptinsAtivos.GetOr(0))
    case _ => data.carteira.GetOr("")
  }

  /** `generate_row`: the seven tokens in layout order. */
  function Row(data: Record, today: Date): (row: seq<string>)
    ensures |row| == ROW_ARITY
  {
    seq(ROW_ARITY, i requires 0 <= i < ROW_ARITY => Field(data, today, i))
  }

  /**
   * Every token of a row reads back as the value it was written from, or as its default: only
   * the zero-filling of a short CNPJ is lost between a record and its line.
   */
  lemma RowReadsBack(data: Record, today: Date)
    ensures var row := Row(data, today);
      && row[0] == data.referenciaExterna.GetOr("")
      && IsIsoDate(row[1]) && ParseIsoDate(row[1]) == data.dataReferencia.GetOr(today)
      && (IsDigits(data.solicitante.GetOr("")) ==>
            IsDigits(row[2]) && DigitsValue(row[2]) == DigitsValue(data.solicitante.GetOr("")))
      && (IsDigits(data.financiador.GetOr("")) ==>
            IsDigits(row[3]) && DigitsValue(row[3]) == DigitsValue(data.financiador.GetOr("")))
      && (!Truthy(data.instituicaoRecebedoraAgenda) ==> row[4] == "")
      && (Truthy(data.instituicaoRecebedoraAgenda) && IsDigits(data.instituicaoRecebedoraAgenda.value) ==>
            IsDigits(row[4]) && DigitsValue(row[4]) == DigitsValue(data.instituicaoRecebedoraAgenda.value))
      && ParseInt(row[5]) == Some(data.quantidadeOptinsAtivos.GetOr(0))
      && row[6] == data.carteira.GetOr("")
  {
    TextTokensReadBack(data, today);
    InstitutionReadsBack(data, today);
    DateReadsBack(data, today);
    CountReadsBack(data, today);
  }

  lemma TextTokensReadBack(data: Record, today: Date)
    ensures var row := Row(data, today);
      && row[0] == data.referenciaExterna.GetOr("")
      && (IsDigits(data.solicitante.GetOr("")) ==>
            IsDigits(row[2]) && DigitsValue(row[2]) == DigitsValue(data.solicitante.GetOr("")))
      && (IsDigits(data.financiador.GetOr("")) ==>
            IsDigits(row[3]) && DigitsValue(row[3]) == DigitsValue(data.financiador.GetOr("")))
      && row[6] == data.carteira.GetOr("")
  {
  }

  /**
   * The receiving institution is empty when missing or empty, and otherwise keeps the digit
   * value of the CNPJ it was written from.
   */
  lemma InstitutionReadsBack(data: Record, today: Date)
    ensures var row := Row(data, today);
      && (!Truthy(data.instituicaoRecebedoraAgenda) ==> row[4] == "")
      && (Truthy(data.instituicaoRecebedoraAgenda) && IsDigits(data.instituicaoRecebedoraAgenda.value) ==>
            IsDigits(row[4]) && DigitsValue(row[4]) == DigitsValue(data.instituicaoRecebedoraAgenda.value))
  {
  }

  lemma DateReadsBack(data: Record, today: Date)
    ensures IsIsoDate(Row(data, today)[1]) && ParseIsoDate(Row(data, today)[1]) == data.dataReferencia.GetOr(today)
  {
    FormatDateReadsBack(data.dataReferencia.GetOr(today));
  }

  lemma CountReadsBack(data: Record, today: Date)
    ensures ParseInt(Row(data, today)[5]) == Some(data.quantidadeOptinsAtivos.GetOr(0))
  {
    IntToStringReadsBack(data.quantidadeOptinsAtivos.GetOr(0));
  }

  /**
   * The draws of `generate_random_record`: the reference date (today minus up to 30 days) and
   * `randint(1, 20)` active opt-ins.
   */
  datatype Draw = Draw(dataReferencia: Date, optins: int)

  predicate ValidDraw(d: Draw)
  {
    1 <= d.optins <= MAX_ACTIVE_OPTINS
  }

  /** `generate_random_record`: the receiving institution is always the empty string. */
  function RandomRecord(config: Config, referencia: string, d: Draw): (r: Record)
    requires ValidDraw(d)
    ensures r.referenciaExterna == Some(referencia) && r.dataReferencia == Some(d.dataReferencia)
    ensures r.solicitante == Some(config.cnpjSolicitante) && r.financiador == Some(config.cnpjFinanciador)
    ensures r.instituicaoRecebedoraAgenda == Some("")
    ensures r.quantidadeOptinsAtivos.Some? && 1 <= r.quantidadeOptinsAtivos.value <= MAX_ACTIVE_OPTINS
    ensures r.carteira == Some(config.carteiraPadrao.GetOr("Carteira1"))
  {
    Record(
      Some(referencia), Some(d.dataReferencia), Some(config.cnpjSolicitante), Some(config.cnpjFinanciador),
      Some(""), Some(d.optins), Some(config.carteiraPadrao.GetOr("Carteira1")))
  }

  /**
   * In a generated line the receiving institution is empty (the optional field is left out, not
   * zero-filled), the reference date is the drawn one and the opt-in count reads back between
   * 1 and 20.
   */
  lemma RandomRowShape(config: Config, referencia: string, d: Draw, today: Date)
    requires ValidDraw(d)
    ensures var row := Row(RandomRecord(config, referencia, d), today);
      && row[4] == ""
      && ParseIsoDate(row[1]) == d.dataReferencia
      && ParseInt(row[5]).Some? && 1 <= ParseInt(row[5]).value <= MAX_ACTIVE_OPTINS
  {
    RowReadsBack(RandomRecord(config, referencia, d), today);
    assert Row(RandomRecord(config, referencia, d), today)[4] == Field(RandomRecord(config, referencia, d), today, 4);
  }

  /** `generate_filename`: `_ret` suffix, root taken from the requester's CNPJ. */
  function FileName(config: Config, date: Date): (name: string)
    ensures StartsWith(name, LAYOUT + "_" + FileWriter.CnpjRaiz(config.cnpjSolicitante) + "_")
    ensures EndsWith(name, FileWriter.RETURN_SUFFIX + FileWriter.CSV_EXTENSION)
  {
    assert Pow10(7) == 10000000;
    FileWriter.FileName(LAYOUT, config.cnpjSolicitante, date, FileWriter.SEQUENCE, true)
  }

  /** The lines `generate_file` writes for the given draws: one per record, in record order. */
  function Lines(config: Config, draws: seq<Draw>, today: Date): (lines: seq<string>)
    requires forall k | 0 <= k < |draws| :: ValidDraw(draws[k])
    ensures |lines| == |draws|
  {
    seq(|draws|, k requires 0 <= k < |draws| =>
      WriteRow(Row(RandomRecord(config, FileWriter.Reference(REFERENCE_PREFIX, k), draws[k]), today)))
  }

  /** No two lines of a generated file are the same: each starts with its own reference. */
  lemma LinesDistinct(config: Config, draws: seq<Draw>, today: Date)
    requires forall k | 0 <= k < |draws| :: ValidDraw(draws[k])
    ensures forall k, j | 0 <= k < j < |draws| :: Lines(config, draws, today)[k] != Lines(config, draws, today)[j]
  {
    var rows := seq(|draws|, k requires 0 <= k < |draws| =>
      Row(RandomRecord(config, FileWriter.Reference(REFERENCE_PREFIX, k), draws[k]), today));
    FileWriter.LinesDistinct(rows, 0, REFERENCE_PREFIX);
  }

  /**
   * `generate_file`: the records `REF_000001`, `REF_000002`, ... built from the draws in order,
   * then one written line per record in the same order.
   */
  method GenerateFile(config: Config, draws: seq<Draw>, date: Date, today: Date) returns (name: string, lines: seq<string>)
    requires forall k | 0 <= k < |draws| :: ValidDraw(draws[k])
    ensures name == FileName(config, date)
    ensures lines == Lines(config, draws, today)
  {
    name := FileName(config, date);
    var records := FileWriter.BuildRecords(draws,
      (i, d) requires ValidDraw(d) => RandomRecord(config, FileWriter.Reference(REFERENCE_PREFIX, i), d));
    lines := FileWriter.WriteRows(records, r => Row(r, today));
  }
}
