/**
 * What every `generate_file` and `generate_filename` share: the external references
 * `REF_000001`, `REF_000002`, ... given to the records in index order (and the `PROT_` protocol
 * numbers some layouts draw), the loop that hands each record's row to `writer.writerow`, and
 * the file name `{tipo_leiaute}_{cnpj_raiz}_{YYYYMMDD}_{sequence:07d}[_ret].csv`.
 */
module FileWriter {
  import opened Text
  import opened Formatters
  import opened LineWriter

  /** `self.sequence`: set to 1 by every generator and never changed. */
  const SEQUENCE := 1
  const SEQUENCE_WIDTH := 7
  const REFERENCE_WIDTH := 6

  /** `f"{prefix}{i+1:06d}"`: the external reference of the record at index `i`. */
  function Reference(prefix: string, i: nat): (r: string)
    ensures StartsWith(r, prefix)
    ensures IsDigits(r[|prefix|..]) && DigitsValue(r[|prefix|..]) == i + 1
    ensures |r| >= |prefix| + REFERENCE_WIDTH
    ensures i + 1 < Pow10(REFERENCE_WIDTH) ==> |r| == |prefix| + REFERENCE_WIDTH
  {
    var r := prefix + PadNat(i + 1, REFERENCE_WIDTH);
    assert r[..|prefix|] == prefix && r[|prefix|..] == PadNat(i + 1, REFERENCE_WIDTH);
    r
  }

  const PROTOCOL_PREFIX := "PROT_"

  /**
   * `f"{prefix}{randint(10**(digits-1), 10**digits - 1)}"`: the prefix and exactly `digits`
   * digits, reading back as the drawn number.
   */
  function Tagged(prefix: string, n: nat, digits: nat): (t: string)
    requires digits >= 1 && Pow10(digits - 1) <= n < Pow10(digits)
    ensures |t| == |prefix| + digits && StartsWith(t, prefix)
    ensures IsDigits(t[|prefix|..]) && DigitsValue(t[|prefix|..]) == n
  {
    NatToStringExactLength(n, digits);
    var t := prefix + NatToString(n);
    assert t[..|prefix|] == prefix && t[|prefix|..] == NatToString(n);
    t
  }

  /** `f"PROT_{randint(100000, 999999)}"`: the prefix and exactly six digits. */
  function Protocol(n: nat): (p: string)
    requires 100000 <= n <= 999999
    ensures |p| == |PROTOCOL_PREFIX| + 6 && StartsWith(p, PROTOCOL_PREFIX)
    ensures IsDigits(p[|PROTOCOL_PREFIX|..]) && DigitsValue(p[|PROTOCOL_PREFIX|..]) == n
  {
    assert Pow10(5) == 100000 && Pow10(6) == 1000000;
    Tagged(PROTOCOL_PREFIX, n, 6)
  }

  /** Records at different indices never get the same reference, however many there are. */
  lemma ReferenceInjective(prefix: string, i: nat, j: nat)
    requires i != j
    ensures Reference(prefix, i) != Reference(prefix, j)
  {
  }

  /** `cnpj[:8]`: the root of a CNPJ, its first eight characters (fewer when it is shorter). */
  function CnpjRaiz(cnpj: string): (r: string)
    ensures |r| == if |cnpj| < 8 then |cnpj| else 8
    ensures StartsWith(cnpj, r)
  {
    if |cnpj| < 8 then cnpj else cnpj[..8]
  }

  const CSV_EXTENSION := ".csv"
  const RETURN_SUFFIX := "_ret"

  /**
   * The string part of `generate_filename` (the output directory is not part of it):
   * `f"{tipo_leiaute}_{cnpj_raiz}_{date:%Y%m%d}_{sequence:07d}"`, then `_ret` for the layouts
   * that carry it, then `.csv`.
   */
  function FileName(layout: string, cnpj: string, date: Date, sequence: nat, ret: bool): (name: string)
    requires sequence < Pow10(SEQUENCE_WIDTH)
    ensures StartsWith(name, layout + "_" + CnpjRaiz(cnpj) + "_")
    ensures |name| == |layout| + |CnpjRaiz(cnpj)| + 22 + (if ret then 4 else 0)
    ensures var k := |layout| + |CnpjRaiz(cnpj)| + 2;
      && name[k..k + 8] == FormatDateCompact(date)
      && name[k + 8] == '_'
      && IsDigits(name[k + 9..k + 16]) && DigitsValue(name[k + 9..k + 16]) == sequence
    ensures EndsWith(name, RETURN_SUFFIX + CSV_EXTENSION) <==> ret
    ensures EndsWith(name, CSV_EXTENSION)
  {
    var date8 := FormatDateCompact(date);
    var seq7 := PadNat(sequence, SEQUENCE_WIDTH);
    FileNameShape(layout, cnpj, date8, seq7, sequence, ret);
    layout + "_" + CnpjRaiz(cnpj) + "_" + date8 + "_" + seq7 + (if ret then RETURN_SUFFIX else "") + CSV_EXTENSION
  }

  lemma FileNameShape(layout: string, cnpj: string, date8: string, seq7: string, sequence: nat, ret: bool)
    requires |date8| == 8 && |seq7| == SEQUENCE_WIDTH && IsDigits(seq7) && DigitsValue(seq7) == sequence
    ensures var name := layout + "_" + CnpjRaiz(cnpj) + "_" + date8 + "_" + seq7
        + (if ret then RETURN_SUFFIX else "") + CSV_EXTENSION;
      && StartsWith(name, layout + "_" + CnpjRaiz(cnpj) + "_")
      && |name| == |layout| + |CnpjRaiz(cnpj)| + 22 + (if ret then 4 else 0)
      && var k := |layout| + |CnpjRaiz(cnpj)| + 2;
      && name[k..k + 8] == date8
      && name[k + 8] == '_'
      && IsDigits(name[k + 9..k + 16]) && DigitsValue(name[k + 9..k + 16]) == sequence
      && (EndsWith(name, RETURN_SUFFIX + CSV_EXTENSION) <==> ret)
      && EndsWith(name, CSV_EXTENSION)
  {
    var head := layout + "_" + CnpjRaiz(cnpj) + "_";
    assert IsDigit(seq7[6]);
    FileNameParts(head, date8, seq7, ret);
  }

  lemma FileNameParts(head: string, date8: string, seq7: string, ret: bool)
    requires |date8| == 8 && |seq7| == 7 && IsDigit(seq7[6])
    ensures var name := head + date8 + "_" + seq7 + (if ret then RETURN_SUFFIX else "") + CSV_EXTENSION;
      && StartsWith(name, head)
      && |name| == |head| + 20 + (if ret then 4 else 0)
      && name[|head|..|head| + 8] == date8
      && name[|head| + 8] == '_'
      && name[|head| + 9..|head| + 16] == seq7
      && (EndsWith(name, RETURN_SUFFIX + CSV_EXTENSION) <==> ret)
      && EndsWith(name, CSV_EXTENSION)
  {
    var tail := (if ret then RETURN_SUFFIX else "") + CSV_EXTENSION;
    var name := head + date8 + "_" + seq7 + tail;
    assert name == head + date8 + "_" + seq7 + (if ret then RETURN_SUFFIX else "") + CSV_EXTENSION;
    assert name[..|head|] == head;
    assert name[|head|..|head| + 8] == date8;
    assert name[|head| + 9..|head| + 16] == seq7;
    assert name[|name| - 4..] == CSV_EXTENSION;
    if ret {
      assert name[|name| - 8..] == RETURN_SUFFIX + CSV_EXTENSION;
    } else {
      assert name[|name| - 5] == seq7[6];
    }
  }

  /**
   * The record loop of `generate_file`: `for i in range(num_records)` builds the record of
   * index `i` (whose reference is `f"REF_{i+1:06d}"`) from the i-th draw and appends it.
   */
  method BuildRecords<D, R>(draws: seq<D>, make: (nat, D) --> R) returns (records: seq<R>)
    requires forall k | 0 <= k < |draws| :: make.requires(k, draws[k])
    ensures |records| == |draws|
    ensures forall k | 0 <= k < |draws| :: records[k] == make(k, draws[k])
  {
    records := [];
    var i := 0;
    while i < |draws|
      invariant 0 <= i <= |draws|
      invariant |records| == i
      invariant forall k | 0 <= k < i :: records[k] == make(k, draws[k])
    {
      records := records + [make(i, draws[i])];
      i := i + 1;
    }
  }

  /**
   * The writing loop of `generate_file`: `for record in records: writer.writerow(generate_row(record))`.
   * The file receives one line per record, in the order of the records.
   */
  method WriteRows<R>(records: seq<R>, row: R -> seq<string>) returns (lines: seq<string>)
    ensures |lines| == |records|
    ensures forall k | 0 <= k < |records| :: lines[k] == WriteRow(row(records[k]))
  {
    lines := [];
    var i := 0;
    while i < |records|
      invariant 0 <= i <= |records|
      invariant |lines| == i
      invariant forall k | 0 <= k < i :: lines[k] == WriteRow(row(records[k]))
    {
      lines := lines + [WriteRow(row(records[i]))];
      i := i + 1;
    }
  }

  /**
   * Rows that carry the reference of their own index at the same position are written as
   * pairwise different lines.
   */
  lemma LinesDistinct(rows: seq<seq<string>>, position: nat, prefix: string)
    requires forall k | 0 <= k < |rows| :: position < |rows[k]| && rows[k][position] == Reference(prefix, k)
    ensures forall k, j | 0 <= k < j < |rows| :: WriteRow(rows[k]) != WriteRow(rows[j])
  {
    forall k, j | 0 <= k < j < |rows|
      ensures WriteRow(rows[k]) != WriteRow(rows[j])
    {
      ReferenceInjective(prefix, k, j);
      if WriteRow(rows[k]) == WriteRow(rows[j]) {
        WriteRowInjective(rows[k], rows[j]);
      }
    }
  }
}
