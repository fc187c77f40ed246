/**
 * `generate_ap005.py`: the AP005 file, one receivables-schedule line per record (reference,
 * registrar, acquirer, final receiving user, arrangement, settlement date, holder, constitution,
 * constituted, advanced and blocked amounts, campo 12 — the list of payment information —,
 * portfolio, free and total amounts, last update timestamp).
 */
module Ap005 {
  import opened Wrappers
  import opened Text
  import opened Formatters
  import opened LineWriter
  import opened Amounts
  import opened BankAccounts
  import opened ListEncoder
  import FileWriter

  const LAYOUT := "CERC-AP005"
  const ROW_ARITY := 16
  /** Sub-fields 1 to 16 of one payment information of campo 12. */
  const PAYMENT_ARITY := 16
  /** The position of campo 12 in the row. */
  const CAMPO12 := 11
  const REFERENCE_PREFIX := "REF_"
  const DEFAULT_ISPB := "00000001"
  /** `tipo_informacao_pagamento` 7: payment domicile. */
  const PAYMENT_DOMICILE := "7"
  const CONSTITUTIONS := ["1", "2"]
  const MAX_PAYMENTS := 2
  /** `uniform(100.00, valor_maximo_transacao)`, in reais. */
  const MIN_TOTAL := 100.0

  /**
   * `cnpj_credenciadora`, `cnpj_entidade_registradora`, the merchant CNPJs and bank accounts read
   * from their files, and the configured `arranjos_pagamento`, `valor_maximo_transacao` (in
   * reais) and optional `carteira_padrao`.
   */
  datatype Config = Config(
    cnpjCredenciadora: string,
    cnpjEntidadeRegistradora: string,
    cnpjsEc: seq<string>,
    contasBancarias: seq<Account>,
    arranjosPagamento: seq<string>,
    valorMaximoTransacao: real,
    carteiraPadrao: Option<string>)

  /** `__init__` refuses a configuration without merchants or without bank accounts. */
  function NewConfig(
    cnpjCredenciadora: string, cnpjEntidadeRegistradora: string, cnpjsEc: seq<string>,
    contasBancarias: seq<Account>, arranjosPagamento: seq<string>, valorMaximoTransacao: real,
    carteiraPadrao: Option<string>): (r: Option<Config>)
    ensures r.None? <==> cnpjsEc == [] || contasBancarias == []
    ensures r.Some? ==> r.value == Config(cnpjCredenciadora, cnpjEntidadeRegistradora, cnpjsEc,
      contasBancarias, arranjosPagamento, valorMaximoTransacao, carteiraPadrao)
  {
    if cnpjsEc == [] || contasBancarias == [] then None
    else Some(Config(cnpjCredenciadora, cnpjEntidadeRegistradora, cnpjsEc, contasBancarias,
      arranjosPagamento, valorMaximoTransacao, carteiraPadrao))
  }

  /** One payment information dictionary; `valor_a_pagar` is in cents, the other values are text. */
  datatype Payment = Payment(
    numeroDocumentoTitular: Option<string>,
    tipoConta: Option<string>,
    compe: Option<string>,
    ispb: Option<string>,
    agencia: Option<string>,
    numeroConta: Option<string>,
    valorAPagar: Option<int>,
    beneficiario: Option<string>,
    dataLiquidacaoEfetiva: Option<string>,
    valorLiquidacaoEfetiva: Option<string>,
    regraDivisao: Option<string>,
    valorOnerado: Option<string>,
    tipoInformacaoPagamento: Option<string>,
    indicadorOrdemEfeito: Option<string>,
    valorConstituidoEfeito: Option<string>,
    identificadorContratoCerc: Option<string>)

  /**
   * The payment information built from a bank account and an amount, both for the default
   * group of `format_campo12_lista` and for each share of `generate_random_record`: the
   * account's columns or their defaults, type 7 and every other sub-field empty.
   */
  function AccountPayment(conta: Account, valor: int): (p: Payment)
    ensures p.valorAPagar == Some(valor) && p.tipoInformacaoPagamento == Some(PAYMENT_DOMICILE)
    ensures p.compe == Some(conta.compe.GetOr("001")) && p.ispb == Some(conta.ispb.GetOr(DEFAULT_ISPB))
  {
    Payment(
      Some(conta.numeroDocumentoTitular.GetOr("11111111111")), Some(conta.tipoConta.GetOr("CC")),
      Some(conta.compe.GetOr("001")), Some(conta.ispb.GetOr(DEFAULT_ISPB)),
      Some(conta.agencia.GetOr("1234")), Some(conta.numeroConta.GetOr("123456-7")),
      Some(valor), Some(""), Some(""), Some(""), Some(""), Some(""), Some(PAYMENT_DOMICILE),
      Some(""), Some(""), Some(""))
  }

  /**
   * `pagamento_info`: the sixteen sub-fields of one payment information, in order — the
   * account's six columns, the amount with two decimals, then the nine information sub-fields.
   */
  function PaymentFields(p: Payment): (fields: seq<string>)
    ensures |fields| == PAYMENT_ARITY
    ensures |fields[0]| >= CPF_WIDTH && |fields[3]| >= ISPB_WIDTH
    ensures fields[2] == "" <==> !Truthy(p.compe)
    ensures HasFraction(fields[6], AMOUNT_DECIMALS)
    ensures p.tipoInformacaoPagamento.None? ==> fields[12] == PAYMENT_DOMICILE
  {
    var account := AccountSubFields(p);
    var amount := FormatAmount(p.valorAPagar.GetOr(0));
    var information := InformationSubFields(p);
    var fields := account + [amount] + information;
    assert fields[0] == account[0] && fields[2] == account[2] && fields[3] == account[3];
    assert fields[6] == amount && fields[12] == information[5];
    fields
  }

  /**
   * Sub-fields 1 to 6: the holder's document zero-filled to 11, the account type, the COMPE
   * code zero-filled to 3 when present and not empty and otherwise empty, the ISPB zero-filled
   * to 8, the branch and the account number.
   */
  function AccountSubFields(p: Payment): (fields: seq<string>)
    ensures |fields| == 6
    ensures |fields[0]| >= CPF_WIDTH && |fields[3]| >= ISPB_WIDTH
    ensures fields[2] == "" <==> !Truthy(p.compe)
  {
    [ FormatCpf(p.numeroDocumentoTitular.GetOr("11111111111")),
      p.tipoConta.GetOr("CC"),
      FormatCompe(p.compe),
      FormatIspb(p.ispb, DEFAULT_ISPB),
      p.agencia.GetOr("1234"),
      p.numeroConta.GetOr("123456-7") ]
  }

  /** Sub-fields 8 to 16, empty when missing except the information type, 7 by default. */
  function InformationSubFields(p: Payment): (fields: seq<string>)
    ensures |fields| == 9
    ensures p.tipoInformacaoPagamento.None? ==> fields[5] == PAYMENT_DOMICILE
  {
    [ p.beneficiario.GetOr(""),
      p.dataLiquidacaoEfetiva.GetOr(""),
      p.valorLiquidacaoEfetiva.GetOr(""),
      p.regraDivisao.GetOr(""),
      p.valorOnerado.GetOr(""),
      p.tipoInformacaoPagamento.GetOr(PAYMENT_DOMICILE),
      p.indicadorOrdemEfeito.GetOr(""),
      p.valorConstituidoEfeito.GetOr(""),
      p.identificadorContratoCerc.GetOr("") ]
  }

  function PaymentItems(ps: seq<Payment>): (items: seq<seq<string>>)
    ensures |items| == |ps| && forall k | 0 <= k < |ps| :: items[k] == PaymentFields(ps[k])
  {
    seq(|ps|, k requires 0 <= k < |ps| => PaymentFields(ps[k]))
  }

  /** The record dictionary; amounts are in cents. */
  datatype Record = Record(
    referenciaExterna: Option<string>,
    entidadeRegistradora: Option<string>,
    credenciadora: Option<string>,
    usuarioFinalRecebedor: Option<string>,
    arranjoPagamento: Option<string>,
    dataLiquidacao: Option<Date>,
    titular: Option<string>,
    constituicao: Option<string>,
    valorConstituidoTotal: Option<int>,
    valorConstituidoAntecipacao: Option<int>,
    valorBloqueado: Option<int>,
    carteira: Option<string>,
    valorLivre: Option<int>,
    valorTotalUr: Option<int>,
    dataHoraUltimaAtualizacao: Option<DateTime>,
    pagamentos: Option<seq<Payment>>)

  /**
   * The payment informations campo 12 lists: the record's own, or — when it has none — exactly
   * one default group built from `conta` (the account `random.choice` picks) for the record's
   * whole constituted amount.
   */
  function Payments(data: Record, conta: Account): (ps: seq<Payment>)
    ensures |ps| >= 1
  {
    if data.pagamentos.None? || data.pagamentos.value == [] then
      [AccountPayment(conta, data.valorConstituidoTotal.GetOr(0))]
    else
      data.pagamentos.value
  }

  /** Campo 12: each payment information's sub-fields joined with ';', the groups with '|'. */
  function Campo12(data: Record, conta: Account): string
  {
    EncodeItems(PaymentItems(Payments(data, conta)))
  }

  /** `format_campo12_lista`: the default group when needed, then the formatting loop. */
  method FormatCampo12(data: Record, conta: Account) returns (campo12: string)
    ensures campo12 == Campo12(data, conta)
  {
    var pagamentos := data.pagamentos.GetOr([]);
    if pagamentos == [] {
      pagamentos := [AccountPayment(conta, data.valorConstituidoTotal.GetOr(0))];
    }
    assert pagamentos == Payments(data, conta);
    campo12 := EncodeEach(pagamentos, PaymentFields);
    assert ItemsOf(pagamentos, PaymentFields) == PaymentItems(pagamentos);
  }

  /**
   * A record without payment informations gets one group that pays the whole constituted amount
   * into the given account as a payment domicile.
   */
  lemma DefaultPaymentGroup(data: Record, conta: Account)
    requires data.pagamentos.None? || data.pagamentos.value == []
    ensures var items := PaymentItems(Payments(data, conta));
      && |items| == 1
      && ParseFixed(items[0][6], AMOUNT_DECIMALS) == Some(data.valorConstituidoTotal.GetOr(0))
      && items[0][12] == PAYMENT_DOMICILE
      && (items[0][2] == "" <==> conta.compe == Some(""))
  {
    var p := AccountPayment(conta, data.valorConstituidoTotal.GetOr(0));
    assert Payments(data, conta) == [p];
    assert PaymentItems([p])[0] == PaymentFields(p);
    AccountPaymentFields(conta, data.valorConstituidoTotal.GetOr(0));
  }

  /**
   * The sub-fields written for an account's payment: the amount reads back, the type is a
   * payment domicile, and the COMPE code is empty only when the account has an empty one.
   */
  lemma AccountPaymentFields(conta: Account, valor: int)
    ensures var fields := PaymentFields(AccountPayment(conta, valor));
      && ParseFixed(fields[6], AMOUNT_DECIMALS) == Some(valor)
      && fields[12] == PAYMENT_DOMICILE
      && (fields[2] == "" <==> conta.compe == Some(""))
  {
    var p := AccountPayment(conta, valor);
    var fields := PaymentFields(p);
    assert ParseFixed(fields[6], AMOUNT_DECIMALS) == Some(valor) by {
      PaymentAmountReadsBack(p);
    }
    assert fields[12] == PAYMENT_DOMICILE by {
      assert fields[12] == InformationSubFields(p)[5];
    }
    assert fields[2] == "" <==> conta.compe == Some("") by {
      assert p.compe == Some(conta.compe.GetOr("001"));
    }
  }

  /** The amount sub-field of a payment reads back as the amount to pay, zero when missing. */
  lemma PaymentAmountReadsBack(p: Payment)
    ensures ParseFixed(PaymentFields(p)[6], AMOUNT_DECIMALS) == Some(p.valorAPagar.GetOr(0))
  {
    assert PaymentFields(p)[6] == FormatAmount(p.valorAPagar.GetOr(0));
    FormatAmountReadsBack(p.valorAPagar.GetOr(0));
  }

  /**
   * Campo 12 reads back as its groups and sub-fields, provided no sub-field holds ';' or '|'
   * (which the format has no way to escape).
   */
  lemma Campo12ReadsBack(data: Record, conta: Account)
    requires var items := PaymentItems(Payments(data, conta));
      forall k, j | 0 <= k < |items| && 0 <= j < |items[k]| :: IsPlainField(items[k][j])
    ensures DecodeItems(Campo12(data, conta)) == PaymentItems(Payments(data, conta))
  {
    DecodeEncode(PaymentItems(Payments(data, conta)));
  }

  /**
   * Field `position` of fields 1 to 11 of `generate_row`: the registrar and acquirer
   * zero-filled to 14, the receiving user and the holder to 11, a missing settlement date is
   * today's, the amounts have two decimals.
   */
  function BaseField(data: Record, now: DateTime, position: nat): (token: string)
    requires position < CAMPO12
    ensures position == 1 || position == 2 ==> |token| >= CNPJ_WIDTH
    ensures position == 3 || position == 6 ==> |token| >= CPF_WIDTH
    ensures position == 5 ==> IsIsoDate(token)
    ensures position >= 8 ==> HasFraction(token, AMOUNT_DECIMALS)
  {
    match position
    case 0 => data.referenciaExterna.GetOr("")
    case 1 => FormatCnpj(data.entidadeRegistradora.GetOr(""))
    case 2 => FormatCnpj(data.credenciadora.GetOr(""))
    case 3 => FormatCpf(data.usuarioFinalRecebedor.GetOr(""))
    case 4 => data.arranjoPagamento.GetOr("")
    case 5 => FormatDate(data.dataLiquidacao.GetOr(now.date))
    case 6 => FormatCpf(data.titular.GetOr(""))
    case 7 => data.constituicao.GetOr("1")
    case 8 => FormatAmount(data.valorConstituidoTotal.GetOr(0))
    case 9 => FormatAmount(data.valorConstituidoAntecipacao.GetOr(0))
    case _ => FormatAmount(data.valorBloqueado.GetOr(0))
  }

  /**
   * Field 13 + `position` of `generate_row`: the portfolio falls back to the configured one,
   * the amounts have two decimals and a missing timestamp is the current one.
   */
  function FinalField(config: Config, data: Record, now: DateTime, position: nat): (token: string)
    requires position < ROW_ARITY - CAMPO12 - 1
    ensures position == 1 || position == 2 ==> HasFraction(token, AMOUNT_DECIMALS)
    ensures position == 3 ==> |token| >= 20 && token[10] == 'T' && token[|token| - 1] == 'Z'
  {
    match position
    case 0 => data.carteira.GetOr(config.carteiraPadrao.GetOr("Carteira1"))
    case 1 => FormatAmount(data.valorLivre.GetOr(0))
    case 2 => FormatAmount(data.valorTotalUr.GetOr(0))
    case _ => FormatDateTimeRfc3339(data.dataHoraUltimaAtualizacao.GetOr(now))
  }

  /**
   * `generate_row`: fields 1 to 11, campo 12, fields 13 to 16. `now` stands for the clock and
   * `conta` for the account drawn when the record has no payment informations.
   */
  function Row(config: Config, data: Record, now: DateTime, conta: Account): (row: seq<string>)
    ensures |row| == ROW_ARITY
    ensures row[..CAMPO12] == Base(data, now)
    ensures row[CAMPO12] == Campo12(data, conta)
    ensures row[CAMPO12 + 1..] == Finals(config, data, now)
  {
    Base(data, now) + [Campo12(data, conta)] + Finals(config, data, now)
  }

  /** Fields 1 to 11 of `generate_row`, in layout order. */
  function Base(data: Record, now: DateTime): (base: seq<string>)
    ensures |base| == CAMPO12
    ensures forall i | 0 <= i < CAMPO12 :: base[i] == BaseField(data, now, i)
  {
    seq(CAMPO12, i requires 0 <= i < CAMPO12 => BaseField(data, now, i))
  }

  /** Fields 13 to 16 of `generate_row`, in layout order. */
  function Finals(config: Config, data: Record, now: DateTime): (finals: seq<string>)
    ensures |finals| == ROW_ARITY - CAMPO12 - 1
    ensures forall i | 0 <= i < ROW_ARITY - CAMPO12 - 1 :: finals[i] == FinalField(config, data, now, i)
  {
    seq(ROW_ARITY - CAMPO12 - 1, i requires 0 <= i < ROW_ARITY - CAMPO12 - 1 => FinalField(config, data, now, i))
  }

  lemma RowBase(config: Config, data: Record, now: DateTime, conta: Account, i: nat)
    requires i < CAMPO12
    ensures Row(config, data, now, conta)[i] == BaseField(data, now, i)
  {
    var base := Base(data, now);
    var rest := [Campo12(data, conta)] + Finals(config, data, now);
    assert Row(config, data, now, conta) == base + rest;
    assert (base + rest)[i] == base[i];
  }

  lemma RowFinal(config: Config, data: Record, now: DateTime, conta: Account, i: nat)
    requires i < ROW_ARITY - CAMPO12 - 1
    ensures Row(config, data, now, conta)[CAMPO12 + 1 + i] == FinalField(config, data, now, i)
  {
    var head := Base(data, now) + [Campo12(data, conta)];
    var finals := Finals(config, data, now);
    assert Row(config, data, now, conta) == head + finals;
    assert (head + finals)[CAMPO12 + 1 + i] == finals[i];
  }

  /**
   * Campo 12 always holds ';' (a group has sixteen sub-fields), so the writer always quotes it;
   * reading the line back still gives campo 12 exactly, and with it every group.
   */
  lemma Campo12Quoted(config: Config, data: Record, now: DateTime, conta: Account)
    ensures var row := Row(config, data, now, conta);
      && row[CAMPO12] == Campo12(data, conta)
      && NeedsQuoting(row[CAMPO12])
      && QuoteField(row[CAMPO12])[0] == QUOTE
      && ParseLine(WriteRow(row)) == Some(row)
  {
    var row := Row(config, data, now, conta);
    FieldSeparatorInItems(PaymentItems(Payments(data, conta)), 0);
    ParseWriteRow(row);
  }

  /**
   * Every token outside campo 12 reads back as the value it was written from, or as its
   * default: the lemmas below take the tokens a kind at a time, and only the zero-filling of a
   * short identifier is lost.
   */
  lemma TextTokensReadBack(config: Config, data: Record, now: DateTime, conta: Account)
    ensures var row := Row(config, data, now, conta);
      && row[0] == data.referenciaExterna.GetOr("")
      && row[4] == data.arranjoPagamento.GetOr("")
      && row[7] == data.constituicao.GetOr("1")
      && row[12] == data.carteira.GetOr(config.carteiraPadrao.GetOr("Carteira1"))
  {
    RowBase(config, data, now, conta, 0);
    RowBase(config, data, now, conta, 4);
    RowBase(config, data, now, conta, 7);
    RowFinal(config, data, now, conta, 0);
  }

  lemma IdentifierTokensReadBack(config: Config, data: Record, now: DateTime, conta: Account)
    ensures var row := Row(config, data, now, conta);
      && (IsDigits(data.entidadeRegistradora.GetOr("")) ==>
            IsDigits(row[1]) && DigitsValue(row[1]) == DigitsValue(data.entidadeRegistradora.GetOr("")))
      && (IsDigits(data.credenciadora.GetOr("")) ==>
            IsDigits(row[2]) && DigitsValue(row[2]) == DigitsValue(data.credenciadora.GetOr("")))
      && (IsDigits(data.usuarioFinalRecebedor.GetOr("")) ==>
            IsDigits(row[3]) && DigitsValue(row[3]) == DigitsValue(data.usuarioFinalRecebedor.GetOr("")))
      && (IsDigits(data.titular.GetOr("")) ==>
            IsDigits(row[6]) && DigitsValue(row[6]) == DigitsValue(data.titular.GetOr("")))
  {
    RowIdentifier(config, data, now, conta, 1, data.entidadeRegistradora.GetOr(""));
    RowIdentifier(config, data, now, conta, 2, data.credenciadora.GetOr(""));
    RowIdentifier(config, data, now, conta, 3, data.usuarioFinalRecebedor.GetOr(""));
    RowIdentifier(config, data, now, conta, 6, data.titular.GetOr(""));
  }

  /** The identifier at `position`, written from `id`, keeps the value of an all-digit `id`. */
  lemma RowIdentifier(config: Config, data: Record, now: DateTime, conta: Account, position: nat, id: string)
    requires position == 1 || position == 2 || position == 3 || position == 6
    requires id == match position
      case 1 => data.entidadeRegistradora.GetOr("")
      case 2 => data.credenciadora.GetOr("")
      case 3 => data.usuarioFinalRecebedor.GetOr("")
      case _ => data.titular.GetOr("")
    ensures var token := Row(config, data, now, conta)[position];
      IsDigits(id) ==> IsDigits(token) && DigitsValue(token) == DigitsValue(id)
  {
    RowBase(config, data, now, conta, position);
  }

  lemma SettlementDateReadsBack(config: Config, data: Record, now: DateTime, conta: Account)
    ensures var row := Row(config, data, now, conta);
      IsIsoDate(row[5]) && ParseIsoDate(row[5]) == data.dataLiquidacao.GetOr(now.date)
  {
    RowBase(config, data, now, conta, 5);
    FormatDateReadsBack(data.dataLiquidacao.GetOr(now.date));
  }

  lemma BaseAmountsReadBack(config: Config, data: Record, now: DateTime, conta: Account)
    ensures var row := Row(config, data, now, conta);
      && ParseFixed(row[8], AMOUNT_DECIMALS) == Some(data.valorConstituidoTotal.GetOr(0))
      && ParseFixed(row[9], AMOUNT_DECIMALS) == Some(data.valorConstituidoAntecipacao.GetOr(0))
      && ParseFixed(row[10], AMOUNT_DECIMALS) == Some(data.valorBloqueado.GetOr(0))
  {
    RowBase(config, data, now, conta, 8);
    RowBase(config, data, now, conta, 9);
    RowBase(config, data, now, conta, 10);
    TotalReadsBack(data, now);
    AdvancedReadsBack(data, now);
    BlockedReadsBack(data, now);
  }

  lemma TotalReadsBack(data: Record, now: DateTime)
    ensures ParseFixed(BaseField(data, now, 8), AMOUNT_DECIMALS) == Some(data.valorConstituidoTotal.GetOr(0))
  {
    FormatAmountReadsBack(data.valorConstituidoTotal.GetOr(0));
  }

  lemma AdvancedReadsBack(data: Record, now: DateTime)
    ensures ParseFixed(BaseField(data, now, 9), AMOUNT_DECIMALS) == Some(data.valorConstituidoAntecipacao.GetOr(0))
  {
    FormatAmountReadsBack(data.valorConstituidoAntecipacao.GetOr(0));
  }

  lemma BlockedReadsBack(data: Record, now: DateTime)
    ensures ParseFixed(BaseField(data, now, 10), AMOUNT_DECIMALS) == Some(data.valorBloqueado.GetOr(0))
  {
    FormatAmountReadsBack(data.valorBloqueado.GetOr(0));
  }

  lemma FinalAmountsReadBack(config: Config, data: Record, now: DateTime, conta: Account)
    ensures var row := Row(config, data, now, conta);
      && ParseFixed(row[13], AMOUNT_DECIMALS) == Some(data.valorLivre.GetOr(0))
      && ParseFixed(row[14], AMOUNT_DECIMALS) == Some(data.valorTotalUr.GetOr(0))
  {
    RowFinal(config, data, now, conta, 1);
    RowFinal(config, data, now, conta, 2);
    FormatAmountReadsBack(data.valorLivre.GetOr(0));
    FormatAmountReadsBack(data.valorTotalUr.GetOr(0));
  }

  lemma TimestampReadsBack(config: Config, data: Record, now: DateTime, conta: Account)
    ensures var row := Row(config, data, now, conta);
      IsRfc3339UtcDateTime(row[15]) && ParseRfc3339(row[15]) == data.dataHoraUltimaAtualizacao.GetOr(now)
  {
    var t := data.dataHoraUltimaAtualizacao.GetOr(now);
    RowFinal(config, data, now, conta, 3);
    FormatDateTimeReadsBack(t);
  }

  // ---------------------------------------------------------------- generate_random_record

  /** The amount to pay a payment information carries, zero when missing. */
  function PaymentAmount(p: Payment): int
  {
    p.valorAPagar.GetOr(0)
  }

  /**
   * The draws of `generate_random_record`: the merchant, the number of payments
   * (`randint(1, 2)`), the accounts `random.sample` picks, the settlement date (today plus
   * `dias_futuros_liquidacao`), the uniform draws of the constituted, advanced and blocked
   * amounts in reais and of the total-unit factor, the arrangement and the constitution; plus
   * the account `format_campo12_lista` would pick for a record without payments.
   */
  datatype Draw = Draw(
    ec: nat, numPagamentos: nat, contas: seq<nat>, dataLiquidacao: Date,
    total: real, antecipacao: real, bloqueado: real, urFactor: real,
    arranjo: nat, constituicao: nat, contaPadrao: nat)

  predicate ValidDraw(config: Config, d: Draw)
  {
    && d.ec < |config.cnpjsEc| && d.arranjo < |config.arranjosPagamento|
    && d.constituicao < |CONSTITUTIONS| && d.contaPadrao < |config.contasBancarias|
    && 1 <= d.numPagamentos <= MAX_PAYMENTS
    && |d.contas| == (if d.numPagamentos < |config.contasBancarias| then d.numPagamentos else |config.contasBancarias|)
    && (forall k | 0 <= k < |d.contas| :: d.contas[k] < |config.contasBancarias|)
    && (forall k, j | 0 <= k < j < |d.contas| :: d.contas[k] != d.contas[j])
    && UniformDraw(d.total, MIN_TOTAL, config.valorMaximoTransacao)
    && UniformDraw(d.antecipacao, 0.0, Reais(ToCents(d.total)) * 0.3)
    && UniformDraw(d.bloqueado, 0.0, Reais(ToCents(d.total)) * 0.2)
    && UniformDraw(d.urFactor, 1.0, 1.2)
  }

  /**
   * `generate_random_record`: the merchant is both receiving user and holder, the free amount
   * is what the blocked amount leaves of the constituted total, the total unit value is the
   * total scaled by the drawn factor, and the total is split over the sampled accounts.
   */
  function RandomRecord(config: Config, referencia: string, d: Draw, now: DateTime): (r: Record)
    requires ValidDraw(config, d)
    ensures r.referenciaExterna == Some(referencia)
    ensures r.usuarioFinalRecebedor.Some? && r.usuarioFinalRecebedor.value in config.cnpjsEc
    ensures r.titular == r.usuarioFinalRecebedor
    ensures r.arranjoPagamento.Some? && r.arranjoPagamento.value in config.arranjosPagamento
    ensures r.constituicao.Some? && r.constituicao.value in CONSTITUTIONS
    ensures r.valorConstituidoTotal == Some(ToCents(d.total))
    ensures r.valorBloqueado == Some(ToCents(d.bloqueado))
    ensures r.valorLivre == Some(ToCents(d.total) - ToCents(d.bloqueado))
    ensures r.valorTotalUr == Some(Scale(ToCents(d.total), d.urFactor))
    ensures r.dataHoraUltimaAtualizacao == Some(now)
    ensures r.pagamentos.Some? && 1 <= |r.pagamentos.value| <= MAX_PAYMENTS
    ensures SumOf(r.pagamentos.value, PaymentAmount) == ToCents(d.total)
  {
    var ec := config.cnpjsEc[d.ec];
    var total := ToCents(d.total);
    var bloqueado := ToCents(d.bloqueado);
    var arranjo := config.arranjosPagamento[d.arranjo];
    var constituicao := CONSTITUTIONS[d.constituicao];
    assert arranjo in config.arranjosPagamento && constituicao in CONSTITUTIONS;
    Record(
      Some(referencia), Some(config.cnpjEntidadeRegistradora), Some(config.cnpjCredenciadora), Some(ec),
      Some(arranjo), Some(d.dataLiquidacao), Some(ec),
      Some(constituicao), Some(total), Some(ToCents(d.antecipacao)), Some(bloqueado),
      Some(config.carteiraPadrao.GetOr("Carteira1")), Some(total - bloqueado),
      Some(Scale(total, d.urFactor)), Some(now), Some(SplitPayments(config, d, total)))
  }

  /** The payments of `generate_random_record`: `total` split over the sampled accounts. */
  function SplitPayments(config: Config, d: Draw, total: int): (ps: seq<Payment>)
    requires ValidDraw(config, d)
    ensures 1 <= |ps| <= MAX_PAYMENTS
    ensures SumOf(ps, PaymentAmount) == total
  {
    var contas := seq(|d.contas|, k requires 0 <= k < |d.contas| => config.contasBancarias[d.contas[k]]);
    ShareOverSum(contas, total, AccountPayment, PaymentAmount);
    ShareOver(contas, total, AccountPayment)
  }

  /**
   * With a non-negative configured maximum, the blocked amount is at most a fifth of the total
   * (rounded), so the free amount is never negative, the two add up to the total, and the total
   * unit value is at least the total.
   */
  lemma RandomAmounts(config: Config, d: Draw)
    requires ValidDraw(config, d) && config.valorMaximoTransacao >= 0.0
    ensures var total := ToCents(d.total);
      var bloqueado := ToCents(d.bloqueado);
      && 0 <= bloqueado <= total
      && 0 <= total - bloqueado <= total
      && Scale(total, d.urFactor) >= total
      && 0 <= ToCents(d.antecipacao) <= total
  {
    var total := ToCents(d.total);
    DrawnTotalNonNegative(config, d);
    assert 0 <= ToCents(d.bloqueado) <= total by {
      DrawnShareWithin(total, d.bloqueado, 0.2);
    }
    assert 0 <= ToCents(d.antecipacao) <= total by {
      DrawnShareWithin(total, d.antecipacao, 0.3);
    }
    assert Scale(total, d.urFactor) >= total by {
      ScaledUp(total, d.urFactor, total as real * d.urFactor);
    }
  }

  /** The drawn total is at least the smaller of 100.00 and the configured maximum. */
  lemma DrawnTotalNonNegative(config: Config, d: Draw)
    requires ValidDraw(config, d) && config.valorMaximoTransacao >= 0.0
    ensures ToCents(d.total) >= 0
  {
    assert d.total >= 0.0;
  }

  /**
   * In a generated line the free and blocked amounts read back as adding up to the constituted
   * total, and campo 12 lists one group per sampled account.
   */
  lemma RandomRowAmounts(config: Config, referencia: string, d: Draw, now: DateTime, conta: Account)
    requires ValidDraw(config, d)
    ensures var row := Row(config, RandomRecord(config, referencia, d, now), now, conta);
      && ParseFixed(row[8], AMOUNT_DECIMALS).Some? && ParseFixed(row[10], AMOUNT_DECIMALS).Some?
      && ParseFixed(row[13], AMOUNT_DECIMALS).Some?
      && ParseFixed(row[13], AMOUNT_DECIMALS).value + ParseFixed(row[10], AMOUNT_DECIMALS).value
         == ParseFixed(row[8], AMOUNT_DECIMALS).value
  {
    var r := RandomRecord(config, referencia, d, now);
    BaseAmountsReadBack(config, r, now, conta);
    FinalAmountsReadBack(config, r, now, conta);
  }

  /** `generate_filename`: `_ret` suffix, root taken from the acquirer's CNPJ. */
  function FileName(config: Config, date: Date): (name: string)
    ensures StartsWith(name, LAYOUT + "_" + FileWriter.CnpjRaiz(config.cnpjCredenciadora) + "_")
    ensures EndsWith(name, FileWriter.RETURN_SUFFIX + FileWriter.CSV_EXTENSION)
  {
    assert Pow10(7) == 10000000;
    FileWriter.FileName(LAYOUT, config.cnpjCredenciadora, date, FileWriter.SEQUENCE, true)
  }

  /** The lines `generate_file` writes for the given draws: one per record, in record order. */
  function Lines(config: Config, draws: seq<Draw>, now: DateTime): (lines: seq<string>)
    requires forall k | 0 <= k < |draws| :: ValidDraw(config, draws[k])
    ensures |lines| == |draws|
  {
    seq(|draws|, k requires 0 <= k < |draws| => WriteRow(FileRow(config, k, draws[k], now)))
  }

  /** The row of the `k`-th record of a file: it starts with that record's own reference. */
  function FileRow(config: Config, k: nat, d: Draw, now: DateTime): (row: seq<string>)
    requires ValidDraw(config, d)
    ensures |row| == ROW_ARITY && row[0] == FileWriter.Reference(REFERENCE_PREFIX, k)
  {
    var r := RandomRecord(config, FileWriter.Reference(REFERENCE_PREFIX, k), d, now);
    var row := Row(config, r, now, config.contasBancarias[d.contaPadrao]);
    RowBase(config, r, now, config.contasBancarias[d.contaPadrao], 0);
    row
  }

  /** No two lines of a generated file are the same: each starts with its own reference. */
  lemma LinesDistinct(config: Config, draws: seq<Draw>, now: DateTime)
    requires forall k | 0 <= k < |draws| :: ValidDraw(config, draws[k])
    ensures forall k, j | 0 <= k < j < |draws| :: Lines(config, draws, now)[k] != Lines(config, draws, now)[j]
  {
    var rows := seq(|draws|, k requires 0 <= k < |draws| => FileRow(config, k, draws[k], now));
    FileWriter.LinesDistinct(rows, 0, REFERENCE_PREFIX);
  }

  /**
   * `generate_file`: the records `REF_000001`, `REF_000002`, ... built from the draws in order,
   * then one written line per record in the same order.
   */
  method GenerateFile(config: Config, draws: seq<Draw>, date: Date, now: DateTime) returns (name: string, lines: seq<string>)
    requires forall k | 0 <= k < |draws| :: ValidDraw(config, draws[k])
    ensures name == FileName(config, date)
    ensures lines == Lines(config, draws, now)
  {
    name := FileName(config, date);
    var records := FileWriter.BuildRecords(draws,
      (i, d) requires ValidDraw(config, d) =>
        (RandomRecord(config, FileWriter.Reference(REFERENCE_PREFIX, i), d, now), config.contasBancarias[d.contaPadrao]));
    lines := FileWriter.WriteRows(records, (rc: (Record, Account)) => Row(config, rc.0, now, rc.1));
  }
}
