/**
 * `generate_ap008.py`: the AP008 file, one contract-effect line per record (reference, contract
 * identifier, registrar, acquirer, final receiving user, arrangement, then campo 7 — the
 * effect's fifteen sub-fields followed by the list of bank accounts it pays into).
 */
module Ap008 {
  import opened Wrappers
  import opened Text
  import opened Formatters
  import opened LineWriter
  import opened Amounts
  import opened BankAccounts
  import opened ListEncoder
  import FileWriter

  const LAYOUT := "CERC-AP008"
  const ROW_ARITY := 7
  /** The position of campo 7 in the row. */
  const CAMPO7 := 6
  /** Sub-fields 7.1 to 7.15, written once per effect. */
  const EFFECT_ARITY := 15
  /** Sub-fields 7.16 to 7.22, written once per bank account. */
  const ACCOUNT_ARITY := 7
  const REFERENCE_PREFIX := "REF_EXTERNA_"
  const CONTRACT_PREFIX := "CONTRATO_"
  const EFFECT_PREFIX := "EFEITO_"
  const DEFAULT_REGISTRAR := "12345678000190"
  const DEFAULT_HOLDER := "12345678901"
  const DEFAULT_ISPB := "12345678"
  const DEFAULT_HOLDER_NAME := "Titular da Conta"
  /** `constituicao_ur` 1: constituted. */
  const CONSTITUTED := "1"
  /** `status_operacao` 0 is success and 1 is error; only an error carries a code and description. */
  const STATUS_SUCCESS := "0"
  const STATUS_ERROR := "1"
  /** `regra_divisao` 1 (fixed amount) or 2 (percentage). */
  const DIVISION_RULES := ["1", "2"]
  const FIXED_AMOUNT := "1"
  const MAX_ACCOUNTS := 3
  /** `uniform(100.00, valor_maximo_pagamento)`, in reais. */
  const MIN_PAYMENT := 100.0

  /**
   * `cnpj_credenciadora`, the merchant CNPJs and bank accounts read from their files, and the
   * configured optional `entidade_registradora`, `arranjos_pagamento`, `valor_maximo_pagamento`
   * (in reais), `prioridade_maxima` and the optional account defaults `tipo_conta_padrao`,
   * `compe_padrao` and `ispb_padrao`.
   */
  datatype Config = Config(
    cnpjCredenciadora: string,
    entidadeRegistradora: Option<string>,
    cnpjsEc: seq<string>,
    contasBancarias: seq<Account>,
    arranjosPagamento: seq<string>,
    valorMaximoPagamento: real,
    prioridadeMaxima: int,
    tipoContaPadrao: Option<string>,
    compePadrao: Option<string>,
    ispbPadrao: Option<string>)

  /** `__init__` refuses a configuration without merchants or without bank accounts. */
  function NewConfig(
    cnpjCredenciadora: string, entidadeRegistradora: Option<string>, cnpjsEc: seq<string>,
    contasBancarias: seq<Account>, arranjosPagamento: seq<string>, valorMaximoPagamento: real,
    prioridadeMaxima: int, tipoContaPadrao: Option<string>, compePadrao: Option<string>,
    ispbPadrao: Option<string>): (r: Option<Config>)
    ensures r.None? <==> cnpjsEc == [] || contasBancarias == []
    ensures r.Some? ==> r.value == Config(cnpjCredenciadora, entidadeRegistradora, cnpjsEc,
      contasBancarias, arranjosPagamento, valorMaximoPagamento, prioridadeMaxima, tipoContaPadrao,
      compePadrao, ispbPadrao)
  {
    if cnpjsEc == [] || contasBancarias == [] then None
    else Some(Config(cnpjCredenciadora, entidadeRegistradora, cnpjsEc, contasBancarias,
      arranjosPagamento, valorMaximoPagamento, prioridadeMaxima, tipoContaPadrao, compePadrao, ispbPadrao))
  }

  /** The record dictionary; amounts are in cents. */
  datatype Record = Record(
    referenciaExterna: Option<string>,
    identificadorContrato: Option<string>,
    entidadeRegistradora: Option<string>,
    instituicaoCredenciadora: Option<string>,
    usuarioFinalRecebedor: Option<string>,
    arranjoPagamento: Option<string>,
    identificadorEfeitoContrato: Option<string>,
    dataLiquidacao: Option<Date>,
    titularUr: Option<string>,
    constituicaoUr: Option<string>,
    valorConstituidoTotal: Option<int>,
    valorBloqueado: Option<int>,
    indicadorOneracao: Option<string>,
    regraDivisao: Option<string>,
    valorOnerado: Option<int>,
    protocolo: Option<string>,
    dataHoraEvento: Option<DateTime>,
    statusOperacao: Option<string>,
    codigoErro: Option<string>,
    descricaoErro: Option<string>,
    valorConstituidoEfeito: Option<int>,
    contas: Option<seq<Account>>)

  // ---------------------------------------------------------------- format_campo7_lista

  /**
   * `campo7_base`: sub-fields 7.1 to 7.15 — the effect identifier, the settlement date (today
   * when missing), the holder zero-filled to 14, the constitution, the constituted and blocked
   * amounts, the encumbrance indicator, the division rule, the encumbered amount, the protocol,
   * the event timestamp (now when missing), the status (success when missing), the error code
   * and description, and the effect's constituted amount.
   */
  function EffectFields(data: Record, now: DateTime): (fields: seq<string>)
    ensures |fields| == EFFECT_ARITY
  {
    seq(EFFECT_ARITY, position requires 0 <= position < EFFECT_ARITY => EffectField(data, now, position))
  }

  /** Sub-field 7.(`position` + 1), taken from the group it belongs to. */
  function EffectField(data: Record, now: DateTime, position: nat): string
    requires position < EFFECT_ARITY
  {
    if position < 4 then EffectHead(data, now)[position]
    else if position < 9 then EffectAmounts(data)[position - 4]
    else if position < 12 then EventSubFields(data, now)[position - 9]
    else if position < 14 then ErrorSubFields(data)[position - 12]
    else FormatAmount(data.valorConstituidoEfeito.GetOr(0))
  }

  /** Sub-fields 7.1 to 7.4. */
  function EffectHead(data: Record, now: DateTime): (fields: seq<string>)
    ensures |fields| == 4
  {
    [ data.identificadorEfeitoContrato.GetOr(""),
      FormatDate(data.dataLiquidacao.GetOr(now.date)),
      FormatCnpj(data.titularUr.GetOr("")),
      data.constituicaoUr.GetOr("") ]
  }

  /** Sub-fields 7.5 to 7.9: three amounts with two decimals around the encumbrance terms. */
  function EffectAmounts(data: Record): (fields: seq<string>)
    ensures |fields| == 5
  {
    [ FormatAmount(data.valorConstituidoTotal.GetOr(0)),
      FormatAmount(data.valorBloqueado.GetOr(0)),
      data.indicadorOneracao.GetOr(""),
      data.regraDivisao.GetOr(""),
      FormatAmount(data.valorOnerado.GetOr(0)) ]
  }

  /** Sub-fields 7.10 to 7.12: the protocol, the event timestamp and the status. */
  function EventSubFields(data: Record, now: DateTime): (fields: seq<string>)
    ensures |fields| == 3
  {
    [ data.protocolo.GetOr(""),
      FormatDateTimeRfc3339(data.dataHoraEvento.GetOr(now)),
      data.statusOperacao.GetOr(STATUS_SUCCESS) ]
  }

  /**
   * Sub-fields 7.13 and 7.14: the error code and description are written only when the status
   * is an error, and are empty otherwise whatever the record holds.
   */
  function ErrorSubFields(data: Record): (fields: seq<string>)
    ensures |fields| == 2
    ensures data.statusOperacao != Some(STATUS_ERROR) ==> fields == ["", ""]
  {
    if data.statusOperacao == Some(STATUS_ERROR) then
      [data.codigoErro.GetOr(""), data.descricaoErro.GetOr("")]
    else
      ["", ""]
  }

  /**
   * The account `format_campo7_lista` uses when the record has none: fixed holder, branch,
   * account and name, and the configured type, COMPE and ISPB defaults.
   */
  function DefaultAccount(config: Config): (conta: Account)
    ensures conta.compe == Some(config.compePadrao.GetOr("001"))
    ensures conta.ispb == Some(config.ispbPadrao.GetOr(DEFAULT_ISPB))
    ensures conta.tipoConta == Some(config.tipoContaPadrao.GetOr("CC"))
  {
    Account(
      Some(DEFAULT_HOLDER), Some(config.tipoContaPadrao.GetOr("CC")), Some(config.compePadrao.GetOr("001")),
      Some(config.ispbPadrao.GetOr(DEFAULT_ISPB)), Some("1234"), Some("123456-7"), Some(DEFAULT_HOLDER_NAME))
  }

  /** The accounts campo 7 lists: the record's own, or the default account alone. */
  function Accounts(config: Config, data: Record): (contas: seq<Account>)
    ensures |contas| >= 1
    ensures data.contas.Some? && data.contas.value != [] ==> contas == data.contas.value
  {
    if data.contas.None? || data.contas.value == [] then [DefaultAccount(config)] else data.contas.value
  }

  /**
   * `conta_info`: sub-fields 7.16 to 7.22 — the holder's document zero-filled to 11, the
   * account type (the configured default when missing), the COMPE code zero-filled to 3 when
   * present and not empty and otherwise empty, the ISPB zero-filled to 8 (the configured
   * default when missing), the branch, the account number and the holder's name.
   */
  function AccountFields(config: Config, conta: Account): (fields: seq<string>)
    ensures |fields| == ACCOUNT_ARITY
    ensures |fields[0]| >= CPF_WIDTH && |fields[3]| >= ISPB_WIDTH
    ensures fields[2] == "" <==> !Truthy(conta.compe)
  {
    [ FormatCpf(conta.numeroDocumentoTitular.GetOr(DEFAULT_HOLDER)),
      conta.tipoConta.GetOr(config.tipoContaPadrao.GetOr("CC")),
      FormatCompe(conta.compe),
      FormatIspb(conta.ispb, config.ispbPadrao.GetOr(DEFAULT_ISPB)),
      conta.agencia.GetOr("1234"),
      conta.numeroConta.GetOr("123456-7"),
      conta.nomeTitular.GetOr(DEFAULT_HOLDER_NAME) ]
  }

  function AccountItems(config: Config, contas: seq<Account>): (items: seq<seq<string>>)
    ensures |items| == |contas| && forall k | 0 <= k < |contas| :: items[k] == AccountFields(config, contas[k])
  {
    seq(|contas|, k requires 0 <= k < |contas| => AccountFields(config, contas[k]))
  }

  /**
   * Campo 7: the fifteen effect sub-fields joined with ';', a ';', then each account's
   * sub-fields joined with ';' and the accounts with '|'.
   */
  function Campo7(config: Config, data: Record, now: DateTime): string
  {
    EncodeItem(EffectFields(data, now)) + [FIELD_SEPARATOR] + EncodeItems(AccountItems(config, Accounts(config, data)))
  }

  /** `format_campo7_lista`: the default account when needed, then the loop over the accounts. */
  method FormatCampo7(config: Config, data: Record, now: DateTime) returns (campo7: string)
    ensures campo7 == Campo7(config, data, now)
  {
    var contas := data.contas.GetOr([]);
    if contas == [] {
      contas := [DefaultAccount(config)];
    }
    assert contas == Accounts(config, data);
    var formatted := EncodeEach(contas, conta => AccountFields(config, conta));
    assert ItemsOf(contas, conta => AccountFields(config, conta)) == AccountItems(config, contas);
    campo7 := EncodeItem(EffectFields(data, now)) + [FIELD_SEPARATOR] + formatted;
  }

  /**
   * How campo 7 reads as a list: the first item holds the effect's fifteen sub-fields followed
   * by the first account's seven, and every further item holds one more account's seven.
   */
  function Campo7Items(config: Config, data: Record, now: DateTime): (items: seq<seq<string>>)
    ensures |items| == |Accounts(config, data)|
    ensures items[0] == EffectFields(data, now) + AccountFields(config, Accounts(config, data)[0])
    ensures forall k | 1 <= k < |items| :: items[k] == AccountFields(config, Accounts(config, data)[k])
  {
    WithHead(EffectFields(data, now), AccountItems(config, Accounts(config, data)))
  }

  /** Campo 7 is exactly the list encoding of `Campo7Items`. */
  lemma Campo7Encodes(config: Config, data: Record, now: DateTime)
    ensures Campo7(config, data, now) == EncodeItems(Campo7Items(config, data, now))
  {
    var accounts := AccountItems(config, Accounts(config, data));
    EncodeItemsWithHead(EffectFields(data, now), accounts);
  }

  /**
   * Campo 7 reads back as `Campo7Items`, every sub-field in place, provided no sub-field holds
   * ';' or '|' (which the format has no way to escape).
   */
  lemma Campo7ReadsBack(config: Config, data: Record, now: DateTime)
    requires var items := Campo7Items(config, data, now);
      forall k, j | 0 <= k < |items| && 0 <= j < |items[k]| :: IsPlainField(items[k][j])
    ensures DecodeItems(Campo7(config, data, now)) == Campo7Items(config, data, now)
  {
    Campo7Encodes(config, data, now);
    DecodeEncode(Campo7Items(config, data, now));
  }

  /**
   * A record without accounts gets exactly one account item, carrying the configured type and
   * ISPB, the configured COMPE code zero-filled (empty only if it is configured empty) and the
   * fixed holder, branch, account and name.
   */
  lemma DefaultAccountItem(config: Config, data: Record, now: DateTime)
    requires data.contas.None? || data.contas.value == []
    ensures var items := Campo7Items(config, data, now);
      var fields := AccountFields(config, DefaultAccount(config));
      && |items| == 1
      && items[0] == EffectFields(data, now) + fields
      && fields[0] == FormatCpf(DEFAULT_HOLDER)
      && fields[1] == config.tipoContaPadrao.GetOr("CC")
      && (fields[2] == "" <==> config.compePadrao == Some(""))
      && fields[3] == ZFill(config.ispbPadrao.GetOr(DEFAULT_ISPB), ISPB_WIDTH)
      && fields[6] == DEFAULT_HOLDER_NAME
  {
    assert Accounts(config, data) == [DefaultAccount(config)];
  }

  /**
   * The effect identifier (7.1) and the constitution (7.4) read back as the record's values,
   * empty when missing, and the holder (7.3) is zero-filled to a CNPJ's 14 digits and loses
   * only that filling.
   */
  lemma EffectHeadReadsBack(data: Record, now: DateTime)
    ensures var fields := EffectFields(data, now);
      && fields[0] == data.identificadorEfeitoContrato.GetOr("")
      && |fields[2]| >= CNPJ_WIDTH
      && (IsDigits(data.titularUr.GetOr("")) ==>
            IsDigits(fields[2]) && DigitsValue(fields[2]) == DigitsValue(data.titularUr.GetOr("")))
      && fields[3] == data.constituicaoUr.GetOr("")
  {
    var fields := EffectFields(data, now);
    assert fields[0] == EffectField(data, now, 0) && fields[3] == EffectField(data, now, 3);
    assert fields[2] == FormatCnpj(data.titularUr.GetOr("")) by {
      assert fields[2] == EffectField(data, now, 2);
    }
  }

  /** The encumbrance indicator (7.7) and the division rule (7.8) read back as the record's. */
  lemma EncumbranceTermsReadBack(data: Record, now: DateTime)
    ensures var fields := EffectFields(data, now);
      && fields[6] == data.indicadorOneracao.GetOr("")
      && fields[7] == data.regraDivisao.GetOr("")
  {
    var fields := EffectFields(data, now);
    assert fields[6] == EffectField(data, now, 6) && fields[7] == EffectField(data, now, 7);
  }

  /**
   * The protocol (7.10) and the status (7.12) read back as the record's; only a missing status
   * has a default, success.
   */
  lemma EventTermsReadBack(data: Record, now: DateTime)
    ensures var fields := EffectFields(data, now);
      && fields[9] == data.protocolo.GetOr("")
      && fields[11] == data.statusOperacao.GetOr(STATUS_SUCCESS)
  {
    var fields := EffectFields(data, now);
    assert fields[9] == EffectField(data, now, 9) && fields[11] == EffectField(data, now, 11);
  }

  /**
   * The error code and description (7.13, 7.14) carry the record's values, empty when missing,
   * if the status is an error, and are empty otherwise whatever the record holds.
   */
  lemma ErrorFieldsReadBack(data: Record, now: DateTime)
    ensures var fields := EffectFields(data, now);
      && fields[12] == (if data.statusOperacao == Some(STATUS_ERROR) then data.codigoErro.GetOr("") else "")
      && fields[13] == (if data.statusOperacao == Some(STATUS_ERROR) then data.descricaoErro.GetOr("") else "")
  {
    var fields := EffectFields(data, now);
    assert fields[12] == EffectField(data, now, 12) && fields[13] == EffectField(data, now, 13);
  }

  /** The settlement date and the event timestamp read back as the record's, or today's and now. */
  lemma EffectDatesReadBack(data: Record, now: DateTime)
    ensures var fields := EffectFields(data, now);
      && IsIsoDate(fields[1]) && ParseIsoDate(fields[1]) == data.dataLiquidacao.GetOr(now.date)
      && IsRfc3339UtcDateTime(fields[10]) && ParseRfc3339(fields[10]) == data.dataHoraEvento.GetOr(now)
  {
    var fields := EffectFields(data, now);
    assert fields[1] == FormatDate(data.dataLiquidacao.GetOr(now.date)) by {
      assert fields[1] == EffectField(data, now, 1);
    }
    assert fields[10] == FormatDateTimeRfc3339(data.dataHoraEvento.GetOr(now)) by {
      assert fields[10] == EffectField(data, now, 10);
    }
    FormatDateReadsBack(data.dataLiquidacao.GetOr(now.date));
    FormatDateTimeReadsBack(data.dataHoraEvento.GetOr(now));
  }

  /**
   * The four amounts of the effect (7.5, 7.6, 7.9, 7.15) read back as the record's, in cents,
   * zero when missing.
   */
  lemma EffectAmountsReadBack(data: Record, now: DateTime)
    ensures var fields := EffectFields(data, now);
      && ParseFixed(fields[4], AMOUNT_DECIMALS) == Some(data.valorConstituidoTotal.GetOr(0))
      && ParseFixed(fields[5], AMOUNT_DECIMALS) == Some(data.valorBloqueado.GetOr(0))
      && ParseFixed(fields[8], AMOUNT_DECIMALS) == Some(data.valorOnerado.GetOr(0))
      && ParseFixed(fields[14], AMOUNT_DECIMALS) == Some(data.valorConstituidoEfeito.GetOr(0))
  {
    var fields := EffectFields(data, now);
    assert fields[4] == FormatAmount(data.valorConstituidoTotal.GetOr(0)) by {
      assert fields[4] == EffectField(data, now, 4);
    }
    assert fields[5] == FormatAmount(data.valorBloqueado.GetOr(0)) by {
      assert fields[5] == EffectField(data, now, 5);
    }
    assert fields[8] == FormatAmount(data.valorOnerado.GetOr(0)) by {
      assert fields[8] == EffectField(data, now, 8);
    }
    assert fields[14] == FormatAmount(data.valorConstituidoEfeito.GetOr(0)) by {
      assert fields[14] == EffectField(data, now, 14);
    }
    FormatAmountReadsBack(data.valorConstituidoTotal.GetOr(0));
    FormatAmountReadsBack(data.valorBloqueado.GetOr(0));
    FormatAmountReadsBack(data.valorOnerado.GetOr(0));
    FormatAmountReadsBack(data.valorConstituidoEfeito.GetOr(0));
  }

  // ---------------------------------------------------------------- generate_row

  /**
   * `generate_row`: the reference and contract identifier, the registrar, acquirer and final
   * receiving user zero-filled to 14, the arrangement, then campo 7.
   */
  function Row(config: Config, data: Record, now: DateTime): (row: seq<string>)
    ensures |row| == ROW_ARITY
    ensures |row[2]| >= CNPJ_WIDTH && |row[3]| >= CNPJ_WIDTH && |row[4]| >= CNPJ_WIDTH
  {
    [ data.referenciaExterna.GetOr(""),
      data.identificadorContrato.GetOr(""),
      FormatCnpj(data.entidadeRegistradora.GetOr("")),
      FormatCnpj(data.instituicaoCredenciadora.GetOr("")),
      FormatCnpj(data.usuarioFinalRecebedor.GetOr("")),
      data.arranjoPagamento.GetOr(""),
      Campo7(config, data, now) ]
  }

  /**
   * Fields 1 to 6 read back as the record's values, the identifiers losing only their
   * zero-filling; field 7 is campo 7.
   */
  lemma RowReadsBack(config: Config, data: Record, now: DateTime)
    ensures var row := Row(config, data, now);
      && row[0] == data.referenciaExterna.GetOr("")
      && row[1] == data.identificadorContrato.GetOr("")
      && (IsDigits(data.entidadeRegistradora.GetOr("")) ==>
            IsDigits(row[2]) && DigitsValue(row[2]) == DigitsValue(data.entidadeRegistradora.GetOr("")))
      && (IsDigits(data.instituicaoCredenciadora.GetOr("")) ==>
            IsDigits(row[3]) && DigitsValue(row[3]) == DigitsValue(data.instituicaoCredenciadora.GetOr("")))
      && (IsDigits(data.usuarioFinalRecebedor.GetOr("")) ==>
            IsDigits(row[4]) && DigitsValue(row[4]) == DigitsValue(data.usuarioFinalRecebedor.GetOr("")))
      && row[5] == data.arranjoPagamento.GetOr("")
      && row[CAMPO7] == Campo7(config, data, now)
  {
  }

  /**
   * Campo 7 always holds ';' — right after the effect sub-fields — so the writer always quotes
   * it, whether or not it lists several accounts; reading the line back gives the row exactly.
   */
  lemma Campo7Quoted(config: Config, data: Record, now: DateTime)
    ensures var row := Row(config, data, now);
      && FIELD_SEPARATOR in row[CAMPO7]
      && NeedsQuoting(row[CAMPO7])
      && QuoteField(row[CAMPO7])[0] == QUOTE
      && ParseLine(WriteRow(row)) == Some(row)
  {
    var row := Row(config, data, now);
    var effect := EncodeItem(EffectFields(data, now));
    assert row[CAMPO7][|effect|] == FIELD_SEPARATOR;
    ParseWriteRow(row);
  }

  // ---------------------------------------------------------------- generate_random_record

  /**
   * The draws of one record: the merchant, the number of accounts (`randint(1, 3)`), the
   * accounts `random.sample` picks, the settlement date (today plus `dias_futuros_liquidacao`),
   * the uniform draws of the payment, the constitution factor, the blocked amount and the
   * percentage in reais, the priority, the division rule, the arrangement, the protocol and
   * effect numbers, and the contract number `generate_file` draws for the record.
   */
  datatype Draw = Draw(
    ec: nat, numContas: nat, contas: seq<nat>, dataLiquidacao: Date,
    pagamento: real, totalFactor: real, bloqueado: real, percentual: real,
    prioridade: int, regra: nat, arranjo: nat, protocol: nat, efeito: nat, contrato: nat)

  /** The constituted total the draws give: the payment scaled by the drawn factor. */
  function Total(d: Draw): int
  {
    Scale(ToCents(d.pagamento), d.totalFactor)
  }

  predicate ValidDraw(config: Config, d: Draw)
  {
    && d.ec < |config.cnpjsEc| && d.arranjo < |config.arranjosPagamento| && d.regra < |DIVISION_RULES|
    && 1 <= d.numContas <= MAX_ACCOUNTS
    && |d.contas| == (if d.numContas < |config.contasBancarias| then d.numContas else |config.contasBancarias|)
    && (forall k | 0 <= k < |d.contas| :: d.contas[k] < |config.contasBancarias|)
    && (forall k, j | 0 <= k < j < |d.contas| :: d.contas[k] != d.contas[j])
    && UniformDraw(d.pagamento, MIN_PAYMENT, config.valorMaximoPagamento)
    && UniformDraw(d.totalFactor, 1.0, 1.5)
    && UniformDraw(d.bloqueado, 0.0, Reais(Total(d)) * 0.3)
    && UniformDraw(d.percentual, 10.0, 100.0)
    && 1 <= d.prioridade <= config.prioridadeMaxima
    && 100000 <= d.protocol <= 999999 && 100000 <= d.efeito <= 999999
    && 10000 <= d.contrato <= 99999
  }

  /** `f"EFEITO_{randint(100000, 999999)}"`. */
  function EffectId(n: nat): (id: string)
    requires 100000 <= n <= 999999
    ensures |id| == |EFFECT_PREFIX| + 6 && StartsWith(id, EFFECT_PREFIX)
    ensures IsDigits(id[|EFFECT_PREFIX|..]) && DigitsValue(id[|EFFECT_PREFIX|..]) == n
  {
    assert Pow10(5) == 100000 && Pow10(6) == 1000000;
    FileWriter.Tagged(EFFECT_PREFIX, n, 6)
  }

  /** `f"CONTRATO_{randint(10000, 99999)}"`. */
  function ContractId(n: nat): (id: string)
    requires 10000 <= n <= 99999
    ensures |id| == |CONTRACT_PREFIX| + 5 && StartsWith(id, CONTRACT_PREFIX)
    ensures IsDigits(id[|CONTRACT_PREFIX|..]) && DigitsValue(id[|CONTRACT_PREFIX|..]) == n
  {
    assert Pow10(4) == 10000 && Pow10(5) == 100000;
    FileWriter.Tagged(CONTRACT_PREFIX, n, 5)
  }

  /** The accounts `random.sample` picks, by their drawn indices. */
  function SampledAccounts(config: Config, indices: seq<nat>): (contas: seq<Account>)
    requires forall k | 0 <= k < |indices| :: indices[k] < |config.contasBancarias|
    ensures |contas| == |indices|
    ensures forall k | 0 <= k < |indices| :: contas[k] == config.contasBancarias[indices[k]]
  {
    seq(|indices|, k requires 0 <= k < |indices| => config.contasBancarias[indices[k]])
  }

  /**
   * `valor_onerado`: the payment itself under a fixed-amount division, otherwise the drawn
   * percentage.
   */
  function EncumberedAmount(regra: string, pagamento: int, percentual: real): (cents: int)
    ensures regra == FIXED_AMOUNT ==> cents == pagamento
    ensures regra != FIXED_AMOUNT ==> cents == ToCents(percentual)
  {
    if regra == FIXED_AMOUNT then pagamento else ToCents(percentual)
  }

  /**
   * `generate_random_record`: the merchant is both receiving user and holder, the constituted
   * total is the payment scaled by the drawn factor, a fixed-amount division encumbers exactly
   * the payment, the operation succeeded (so no error code or description), and the sampled
   * accounts are the ones paid into.
   */
  function RandomRecord(config: Config, referencia: string, contrato: string, d: Draw, now: DateTime): (r: Record)
    requires ValidDraw(config, d)
    ensures r.referenciaExterna == Some(referencia) && r.identificadorContrato == Some(contrato)
    ensures r.entidadeRegistradora == Some(config.entidadeRegistradora.GetOr(DEFAULT_REGISTRAR))
    ensures r.instituicaoCredenciadora == Some(config.cnpjCredenciadora)
    ensures r.usuarioFinalRecebedor.Some? && r.usuarioFinalRecebedor.value in config.cnpjsEc
    ensures r.titularUr == r.usuarioFinalRecebedor
    ensures r.constituicaoUr == Some(CONSTITUTED)
    ensures r.valorConstituidoEfeito == Some(ToCents(d.pagamento))
    ensures r.valorConstituidoTotal == Some(Total(d))
    ensures r.valorBloqueado == Some(ToCents(d.bloqueado))
    ensures r.indicadorOneracao.Some? && IsDigits(r.indicadorOneracao.value)
    ensures r.regraDivisao.Some? && r.regraDivisao.value in DIVISION_RULES
    ensures r.regraDivisao == Some(FIXED_AMOUNT) ==> r.valorOnerado == r.valorConstituidoEfeito
    ensures r.regraDivisao != Some(FIXED_AMOUNT) ==> r.valorOnerado == Some(ToCents(d.percentual))
    ensures r.statusOperacao == Some(STATUS_SUCCESS) && r.codigoErro.None? && r.descricaoErro.None?
    ensures r.dataHoraEvento == Some(now)
    ensures r.contas.Some? && |r.contas.value| <= MAX_ACCOUNTS
    ensures config.contasBancarias != [] ==> 1 <= |r.contas.value|
    ensures forall k | 0 <= k < |r.contas.value| :: r.contas.value[k] in config.contasBancarias
  {
    var ec := config.cnpjsEc[d.ec];
    var contas := SampledAccounts(config, d.contas);
    var pagamento := ToCents(d.pagamento);
    var regra := DIVISION_RULES[d.regra];
    Record(
      Some(referencia), Some(contrato), Some(config.entidadeRegistradora.GetOr(DEFAULT_REGISTRAR)),
      Some(config.cnpjCredenciadora), Some(ec), Some(config.arranjosPagamento[d.arranjo]),
      Some(EffectId(d.efeito)), Some(d.dataLiquidacao), Some(ec), Some(CONSTITUTED),
      Some(Total(d)), Some(ToCents(d.bloqueado)), Some(NatToString(d.prioridade)), Some(regra),
      Some(EncumberedAmount(regra, pagamento, d.percentual)),
      Some(FileWriter.Protocol(d.protocol)), Some(now), Some(STATUS_SUCCESS), None, None,
      Some(pagamento), Some(contas))
  }

  /**
   * The encumbrance indicator is the drawn priority, between 1 and `prioridade_maxima`; a
   * percentage division encumbers between 10.00 and 100.00.
   */
  lemma RandomEncumbrance(config: Config, referencia: string, contrato: string, d: Draw, now: DateTime)
    requires ValidDraw(config, d)
    ensures var r := RandomRecord(config, referencia, contrato, d, now);
      && 1 <= DigitsValue(r.indicadorOneracao.value) <= config.prioridadeMaxima
      && (r.regraDivisao != Some(FIXED_AMOUNT) ==> 1000 <= r.valorOnerado.value <= 10000)
  {
    RoundWithin(d.percentual * 100.0, 1000, 10000);
  }

  /**
   * With a non-negative configured maximum, the payment is at most the constituted total and
   * the blocked amount is between nothing and the total.
   */
  lemma RandomAmounts(config: Config, d: Draw)
    requires ValidDraw(config, d) && config.valorMaximoPagamento >= 0.0
    ensures 0 <= ToCents(d.pagamento) <= Total(d)
    ensures 0 <= ToCents(d.bloqueado) <= Total(d)
  {
    var pagamento := ToCents(d.pagamento);
    assert d.pagamento >= 0.0;
    assert pagamento <= Total(d) by {
      ScaledUp(pagamento, d.totalFactor, pagamento as real * d.totalFactor);
    }
    assert 0 <= ToCents(d.bloqueado) <= Total(d) by {
      DrawnShareWithin(Total(d), d.bloqueado, 0.3);
    }
  }

  /**
   * In a generated line the status reads as success with empty error sub-fields, the effect is
   * constituted, and under a fixed-amount division the encumbered amount reads back equal to
   * the effect's payment.
   */
  lemma RandomEffectFields(config: Config, referencia: string, contrato: string, d: Draw, now: DateTime)
    requires ValidDraw(config, d)
    ensures var fields := EffectFields(RandomRecord(config, referencia, contrato, d, now), now);
      && fields[3] == CONSTITUTED
      && fields[11] == STATUS_SUCCESS && fields[12] == "" && fields[13] == ""
      && (fields[7] == FIXED_AMOUNT ==> fields[8] == fields[14])
  {
    var r := RandomRecord(config, referencia, contrato, d, now);
    EffectHeadReadsBack(r, now);
    EncumbranceTermsReadBack(r, now);
    EventTermsReadBack(r, now);
    ErrorFieldsReadBack(r, now);
    var fields := EffectFields(r, now);
    assert fields[8] == EffectField(r, now, 8) && fields[14] == EffectField(r, now, 14);
  }

  // ---------------------------------------------------------------- generate_file

  /** `generate_filename`: no `_ret` suffix, root taken from the acquirer's CNPJ. */
  function FileName(config: Config, date: Date): (name: string)
    ensures StartsWith(name, LAYOUT + "_" + FileWriter.CnpjRaiz(config.cnpjCredenciadora) + "_")
    ensures !EndsWith(name, FileWriter.RETURN_SUFFIX + FileWriter.CSV_EXTENSION)
  {
    assert Pow10(7) == 10000000;
    FileWriter.FileName(LAYOUT, config.cnpjCredenciadora, date, FileWriter.SEQUENCE, false)
  }

  /** The record `generate_file` builds at index `k`. */
  function FileRecord(config: Config, k: nat, d: Draw, now: DateTime): (r: Record)
    requires ValidDraw(config, d)
    ensures r.referenciaExterna == Some(FileWriter.Reference(REFERENCE_PREFIX, k))
  {
    RandomRecord(config, FileWriter.Reference(REFERENCE_PREFIX, k), ContractId(d.contrato), d, now)
  }

  /** The lines `generate_file` writes for the given draws: one per record, in record order. */
  function Lines(config: Config, draws: seq<Draw>, now: DateTime): (lines: seq<string>)
    requires forall k | 0 <= k < |draws| :: ValidDraw(config, draws[k])
    ensures |lines| == |draws|
  {
    seq(|draws|, k requires 0 <= k < |draws| => WriteRow(FileRow(config, k, draws[k], now)))
  }

  /** The row of the `k`-th record of a file: it starts with that record's own reference. */
  function FileRow(config: Config, k: nat, d: Draw, now: DateTime): (row: seq<string>)
    requires ValidDraw(config, d)
    ensures |row| == ROW_ARITY && row[0] == FileWriter.Reference(REFERENCE_PREFIX, k)
  {
    Row(config, FileRecord(config, k, d, now), now)
  }

  /** No two lines of a generated file are the same: each starts with its own reference. */
  lemma LinesDistinct(config: Config, draws: seq<Draw>, now: DateTime)
    requires forall k | 0 <= k < |draws| :: ValidDraw(config, draws[k])
    ensures forall k, j | 0 <= k < j < |draws| :: Lines(config, draws, now)[k] != Lines(config, draws, now)[j]
  {
    var rows := seq(|draws|, k requires 0 <= k < |draws| => FileRow(config, k, draws[k], now));
    FileWriter.LinesDistinct(rows, 0, REFERENCE_PREFIX);
  }

  /**
   * `generate_file`: the records `REF_EXTERNA_000001`, `REF_EXTERNA_000002`, ... each with its
   * drawn contract identifier, built from the draws in order, then one written line per record
   * in the same order.
   */
  method GenerateFile(config: Config, draws: seq<Draw>, date: Date, now: DateTime) returns (name: string, lines: seq<string>)
    requires forall k | 0 <= k < |draws| :: ValidDraw(config, draws[k])
    ensures name == FileName(config, date)
    ensures lines == Lines(config, draws, now)
  {
    name := FileName(config, date);
    var records := FileWriter.BuildRecords(draws,
      (i, d) requires ValidDraw(config, d) => FileRecord(config, i, d, now));
    lines := FileWriter.WriteRows(records, (r: Record) => Row(config, r, now));
  }
}
