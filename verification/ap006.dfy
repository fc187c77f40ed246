/**
 * `generate_ap006.py`: the AP006 file, one opt-out line per record (external reference,
 * opt-in protocol, requesting CNPJ, portfolio).
 */
module Ap006 {
  import opened Wrappers
  import opened Text
  import opened Formatters
  import opened LineWriter
  import FileWriter

  const LAYOUT := "CERC-AP006"
  const ROW_ARITY := 4
  const REFERENCE_PREFIX := "REF_"

  /** `cnpj_credenciadora`, `cnpj_solicitante` and the optional `carteira_padrao` of the configuration. */
  datatype Config = Config(cnpjCredenciadora: string, cnpjSolicitante: string, carteiraPadrao: Option<string>)

  datatype Record = Record(
    referenciaExterna: Option<string>,
    protocoloOptin: Option<string>,
    solicitante: Option<string>,
    carteira: Option<string>)

  /**
   * The token `generate_row` writes at `position`: the requesting CNPJ is zero-filled to 14,
   * any missing value is written empty.
   */
  function Field(data: Record, position: nat): (token: string)
    requires position < ROW_ARITY
    ensures position == 2 ==> |token| >= CNPJ_WIDTH
  {
    match position
    case 0 => data.referenciaExterna.GetOr("")
    case 1 => data.protocoloOptin.GetOr("")
    case 2 => FormatCnpj(data.solicitante.GetOr(""))
    case _ => data.carteira.GetOr("")
  }

  /** `generate_row`: the four tokens in layout order. */
  function Row(data: Record): (row: seq<string>)
    ensures |row| == ROW_ARITY
  {
    seq(ROW_ARITY, i requires 0 <= i < ROW_ARITY => Field(data, i))
  }

  /** `generate_random_record`, the protocol number being the draw. */
  function RandomRecord(config: Config, referencia: string, protocol: nat): (r: Record)
    requires 100000 <= protocol <= 999999
    ensures r.referenciaExterna == Some(referencia)
    ensures r.protocoloOptin.Some? && StartsWith(r.protocoloOptin.value, FileWriter.PROTOCOL_PREFIX)
    ensures r.solicitante == Some(config.cnpjSolicitante)
    ensures r.carteira == Some(config.carteiraPadrao.GetOr("Carteira1"))
  {
    Record(Some(referencia), Some(FileWriter.Protocol(protocol)), Some(config.cnpjSolicitante), Some(config.carteiraPadrao.GetOr("Carteira1")))
  }

  /**
   * A generated line reads back as its reference, a protocol whose digits give back the drawn
   * number, the zero-filled requesting CNPJ and the portfolio (the configured one, else
   * "Carteira1").
   */
  lemma RandomLineReadsBack(config: Config, referencia: string, protocol: nat)
    requires 100000 <= protocol <= 999999
    ensures var tokens := ParseLine(WriteRow(Row(RandomRecord(config, referencia, protocol))));
      && tokens.Some? && |tokens.value| == ROW_ARITY
      && tokens.value[0] == referencia
      && StartsWith(tokens.value[1], FileWriter.PROTOCOL_PREFIX)
      && IsDigits(tokens.value[1][|FileWriter.PROTOCOL_PREFIX|..]) && DigitsValue(tokens.value[1][|FileWriter.PROTOCOL_PREFIX|..]) == protocol
      && tokens.value[2] == FormatCnpj(config.cnpjSolicitante)
      && tokens.value[3] == config.carteiraPadrao.GetOr("Carteira1")
  {
    ParseWriteRow(Row(RandomRecord(config, referencia, protocol)));
  }

  /** `generate_filename`: no `_ret` suffix, root taken from the acquirer's CNPJ. */
  function FileName(config: Config, date: Date): (name: string)
    ensures StartsWith(name, LAYOUT + "_" + FileWriter.CnpjRaiz(config.cnpjCredenciadora) + "_")
    ensures !EndsWith(name, FileWriter.RETURN_SUFFIX + FileWriter.CSV_EXTENSION)
  {
    assert Pow10(7) == 10000000;
    FileWriter.FileName(LAYOUT, config.cnpjCredenciadora, date, FileWriter.SEQUENCE, false)
  }

  /** The lines `generate_file` writes for the drawn protocol numbers: one per record, in record order. */
  function Lines(config: Config, protocols: seq<nat>): (lines: seq<string>)
    requires forall k | 0 <= k < |protocols| :: 100000 <= protocols[k] <= 999999
    ensures |lines| == |protocols|
  {
    seq(|protocols|, k requires 0 <= k < |protocols| =>
      WriteRow(Row(RandomRecord(config, FileWriter.Reference(REFERENCE_PREFIX, k), protocols[k]))))
  }

  /** No two lines of a generated file are the same, even when two protocol draws coincide. */
  lemma LinesDistinct(config: Config, protocols: seq<nat>)
    requires forall k | 0 <= k < |protocols| :: 100000 <= protocols[k] <= 999999
    ensures forall k, j | 0 <= k < j < |protocols| :: Lines(config, protocols)[k] != Lines(config, protocols)[j]
  {
    var rows := seq(|protocols|, k requires 0 <= k < |protocols| =>
      Row(RandomRecord(config, FileWriter.Reference(REFERENCE_PREFIX, k), protocols[k])));
    FileWriter.LinesDistinct(rows, 0, REFERENCE_PREFIX);
  }

  /**
   * `generate_file`: the records `REF_000001`, `REF_000002`, ... built from the draws in order,
   * then one written line per record in the same order.
   */
  method GenerateFile(config: Config, protocols: seq<nat>, date: Date) returns (name: string, lines: seq<string>)
    requires forall k | 0 <= k < |protocols| :: 100000 <= protocols[k] <= 999999
    ensures name == FileName(config, date)
    ensures lines == Lines(config, protocols)
  {
    name := FileName(config, date);
    var records := FileWriter.BuildRecords(protocols,
      (i, n) requires 100000 <= n <= 999999 => RandomRecord(config, FileWriter.Reference(REFERENCE_PREFIX, i), n));
    lines := FileWriter.WriteRows(records, Row);
  }
}
