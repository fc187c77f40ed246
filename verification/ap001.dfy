/**
 * `generate_ap001.py`: the AP001 file, one line per commercial establishment
 * (operation type, external reference, CNPJ, corporate name, trade name).
 */
module Ap001 {
  import opened Wrappers
  import opened Text
  import opened Formatters
  import opened LineWriter
  import FileWriter

  const LAYOUT := "CERC-AP001"
  const ROW_ARITY := 5
  const REFERENCE_PREFIX := "REF_"

  /** The values `generate_random_record` chooses from. */
  const OPERATION_TYPES := ["C", "A", "I"]
  const CORPORATE_NAMES := [
    "Empresa Teste Ltda",
    "Comercio Exemplo ME",
    "Servicos Demonstrativos EIRELI",
    "Negocios Ficticios SA",
    "Estabelecimento Modelo Ltda"
  ]
  const TRADE_NAMES := [
    "Loja Teste",
    "Comercio Exemplo",
    "Servicos Demo",
    "Negocios Modelo",
    "Estabelecimento Teste"
  ]

  /** The generator's configuration: `cnpj_credenciadora`. */
  datatype Config = Config(cnpjCredenciadora: string)

  /** The record dictionary; `None` is a missing key. */
  datatype Record = Record(
    tipoOperacao: Option<string>,
    referenciaExterna: Option<string>,
    cnpj: Option<string>,
    razaoSocial: Option<string>,
    nomeFantasia: Option<string>)

  /**
   * The token `generate_row` writes at `position`: a missing operation type is "C", the CNPJ is
   * zero-filled to 14, any other missing value is written empty.
   */
  function Field(data: Record, position: nat): (token: string)
    requires position < ROW_ARITY
    ensures position == 2 ==> |token| >= CNPJ_WIDTH
    ensures position == 0 && data.tipoOperacao.None? ==> token == "C"
  {
    match position
    case 0 => data.tipoOperacao.GetOr("C")
    case 1 => data.referenciaExterna.GetOr("")
    case 2 => FormatCnpj(data.cnpj.GetOr(""))
    case 3 => data.razaoSocial.GetOr("")
    case _ => data.nomeFantasia.GetOr("")
  }

  /** `generate_row`: the five tokens in layout order. */
  function Row(data: Record): (row: seq<string>)
    ensures |row| == ROW_ARITY
  {
    seq(ROW_ARITY, i requires 0 <= i < ROW_ARITY => Field(data, i))
  }

  /** The draws of `generate_random_cnpj`: `randint(10000000, 99999999)`, `randint(1000, 9999)`, `randint(10, 99)`. */
  datatype CnpjDraw = CnpjDraw(root: nat, branch: nat, check: nat)

  predicate ValidCnpjDraw(d: CnpjDraw)
  {
    10000000 <= d.root <= 99999999 && 1000 <= d.branch <= 9999 && 10 <= d.check <= 99
  }

  /** `generate_random_cnpj`: the three numbers written one after the other. */
  function RandomCnpj(d: CnpjDraw): (cnpj: string)
    requires ValidCnpjDraw(d)
    ensures |cnpj| == CNPJ_WIDTH && IsDigits(cnpj)
    ensures cnpj[0] != '0'
  {
    assert Pow10(7) == 10000000 && Pow10(8) == 100000000;
    assert Pow10(3) == 1000 && Pow10(4) == 10000 && Pow10(1) == 10 && Pow10(2) == 100;
    NatToStringExactLength(d.root, 8);
    NatToStringExactLength(d.branch, 4);
    NatToStringExactLength(d.check, 2);
    var cnpj := NatToString(d.root) + NatToString(d.branch) + NatToString(d.check);
    assert cnpj[0] == NatToString(d.root)[0];
    assert IsDigits(cnpj) by {
      forall i | 0 <= i < |cnpj| ensures IsDigit(cnpj[i]) {
        if i < 8 {
          assert cnpj[i] == NatToString(d.root)[i];
        } else if i < 12 {
          assert cnpj[i] == NatToString(d.branch)[i - 8];
        } else {
          assert cnpj[i] == NatToString(d.check)[i - 12];
        }
      }
    }
    cnpj
  }

  /** A generated CNPJ already has fourteen digits, so formatting it leaves it unchanged. */
  lemma RandomCnpjIsFormatted(d: CnpjDraw)
    requires ValidCnpjDraw(d)
    ensures FormatCnpj(RandomCnpj(d)) == RandomCnpj(d)
  {
  }

  /** The choices of `generate_random_record`, as indices into its lists. */
  datatype Draw = Draw(operation: nat, cnpj: CnpjDraw, corporateName: nat, tradeName: nat)

  predicate ValidDraw(d: Draw)
  {
    d.operation < |OPERATION_TYPES| && ValidCnpjDraw(d.cnpj)
    && d.corporateName < |CORPORATE_NAMES| && d.tradeName < |TRADE_NAMES|
  }

  /** `generate_random_record`: every key present, the operation one of C, A, I. */
  function RandomRecord(referencia: string, d: Draw): (r: Record)
    requires ValidDraw(d)
    ensures r.tipoOperacao.Some? && r.tipoOperacao.value in {"C", "A", "I"}
    ensures r.referenciaExterna == Some(referencia)
    ensures r.cnpj.Some? && |r.cnpj.value| == CNPJ_WIDTH && IsDigits(r.cnpj.value)
    ensures r.razaoSocial.Some? && r.nomeFantasia.Some?
  {
    Record(
      Some(OPERATION_TYPES[d.operation]),
      Some(referencia),
      Some(RandomCnpj(d.cnpj)),
      Some(CORPORATE_NAMES[d.corporateName]),
      Some(TRADE_NAMES[d.tradeName]))
  }

  /**
   * The line written for a generated record reads back, through the `;` reader, as exactly the
   * drawn values: the operation, the reference, the unpadded CNPJ and the two names.
   */
  lemma RandomLineReadsBack(referencia: string, d: Draw)
    requires ValidDraw(d)
    ensures ParseLine(WriteRow(Row(RandomRecord(referencia, d)))) == Some([
      OPERATION_TYPES[d.operation], referencia, RandomCnpj(d.cnpj),
      CORPORATE_NAMES[d.corporateName], TRADE_NAMES[d.tradeName]])
  {
    var row := Row(RandomRecord(referencia, d));
    ParseWriteRow(row);
    RandomCnpjIsFormatted(d.cnpj);
    assert row == [OPERATION_TYPES[d.operation], referencia, RandomCnpj(d.cnpj),
      CORPORATE_NAMES[d.corporateName], TRADE_NAMES[d.tradeName]];
  }

  /** `generate_filename`: no `_ret` suffix, root taken from the acquirer's CNPJ. */
  function FileName(config: Config, date: Date): (name: string)
    ensures StartsWith(name, LAYOUT + "_" + FileWriter.CnpjRaiz(config.cnpjCredenciadora) + "_")
    ensures !EndsWith(name, FileWriter.RETURN_SUFFIX + FileWriter.CSV_EXTENSION)
  {
    assert FileWriter.SEQUENCE < Pow10(FileWriter.SEQUENCE_WIDTH) by {
      assert Pow10(7) == 10000000;
    }
    FileWriter.FileName(LAYOUT, config.cnpjCredenciadora, date, FileWriter.SEQUENCE, false)
  }

  /** The lines `generate_file` writes for the given draws: one per record, in record order. */
  function Lines(draws: seq<Draw>): (lines: seq<string>)
    requires forall k | 0 <= k < |draws| :: ValidDraw(draws[k])
    ensures |lines| == |draws|
  {
    seq(|draws|, k requires 0 <= k < |draws| =>
      WriteRow(Row(RandomRecord(FileWriter.Reference(REFERENCE_PREFIX, k), draws[k]))))
  }

  /** No two lines of a generated file are the same: each carries its own reference. */
  lemma LinesDistinct(draws: seq<Draw>)
    requires forall k | 0 <= k < |draws| :: ValidDraw(draws[k])
    ensures forall k, j | 0 <= k < j < |draws| :: Lines(draws)[k] != Lines(draws)[j]
  {
    var rows := seq(|draws|, k requires 0 <= k < |draws| =>
      Row(RandomRecord(FileWriter.Reference(REFERENCE_PREFIX, k), draws[k])));
    FileWriter.LinesDistinct(rows, 1, REFERENCE_PREFIX);
  }

  /**
   * `generate_file`: the records `REF_000001`, `REF_000002`, ... built from the draws in order,
   * then one written line per record in the same order.
   */
  method GenerateFile(config: Config, draws: seq<Draw>, date: Date) returns (name: string, lines: seq<string>)
    requires forall k | 0 <= k < |draws| :: ValidDraw(draws[k])
    ensures name == FileName(config, date)
    ensures lines == Lines(draws)
  {
    name := FileName(config, date);
    var records := FileWriter.BuildRecords(draws,
      (i, d) requires ValidDraw(d) => RandomRecord(FileWriter.Reference(REFERENCE_PREFIX, i), d));
    lines := FileWriter.WriteRows(records, Row);
  }
}
