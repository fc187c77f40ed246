/**
 * `generate_ap002.py`: the AP002 file, one receivables-unit transaction line per record
 * (operation type, reference, acquirer, participant, final receiving user, arrangement,
 * settlement date, holder, six amounts, campo 15 — the list of payment information — and the
 * portfolio).
 */
module Ap002 {
  import opened Wrappers
  import opened Text
  import opened Formatters
  import opened LineWriter
  import opened Amounts
  import opened BankAccounts
  import opened ListEncoder
  import FileWriter

  const LAYOUT := "CERC-AP002"
  const ROW_ARITY := 16
  /** Fields 1 to 8 of the row precede the six amounts. */
  const HEAD_ARITY := 8
  const AMOUNT_COUNT := 6
  /** The position of campo 15 in the row. */
  const CAMPO15 := 14
  /** Sub-fields 1 to 11 of one payment information of campo 15. */
  const PAYMENT_ARITY := 11
  const REFERENCE_PREFIX := "REF_"
  const DEFAULT_HOLDER := "12345678901"
  const DEFAULT_ISPB := "12345678"
  /** `C` creates a unit, `A` updates one. */
  const OPERATION_TYPES := ["C", "A"]
  const MAX_PAYMENTS := 3
  /** `uniform(100.00, valor_maximo_transacao)`, in reais. */
  const MIN_TRANSACTION := 100.0

  /**
   * `cnpj_credenciadora`, `cnpj_participante`, the merchant CNPJs and bank accounts read from
   * their files, and the configured `arranjos_pagamento`, `valor_maximo_transacao` (in reais)
   * and optional `carteira_padrao`.
   */
  datatype Config = Config(
    cnpjCredenciadora: string,
    cnpjParticipante: string,
    cnpjsEc: seq<string>,
    contasBancarias: seq<Account>,
    arranjosPagamento: seq<string>,
    valorMaximoTransacao: real,
    carteiraPadrao: Option<string>)

  /** `__init__` refuses a configuration without merchants or without bank accounts. */
  function NewConfig(
    cnpjCredenciadora: string, cnpjParticipante: string, cnpjsEc: seq<string>,
    contasBancarias: seq<Account>, arranjosPagamento: seq<string>, valorMaximoTransacao: real,
    carteiraPadrao: Option<string>): (r: Option<Config>)
    ensures r.None? <==> cnpjsEc == [] || contasBancarias == []
    ensures r.Some? ==> r.value == Config(cnpjCredenciadora, cnpjParticipante, cnpjsEc,
      contasBancarias, arranjosPagamento, valorMaximoTransacao, carteiraPadrao)
  {
    if cnpjsEc == [] || contasBancarias == [] then None
    else Some(Config(cnpjCredenciadora, cnpjParticipante, cnpjsEc, contasBancarias,
      arranjosPagamento, valorMaximoTransacao, carteiraPadrao))
  }

  /** One payment information dictionary; `valor_a_pagar` is in cents, the other values are text. */
  datatype Payment = Payment(
    numeroDocumentoTitular: Option<string>,
    tipoConta: Option<string>,
    compe: Option<string>,
    ispb: Option<string>,
    agencia: Option<string>,
    numeroConta: Option<string>,
    valorAPagar: Option<int>,
    beneficiario: Option<string>,
    dataLiquidacaoEfetiva: Option<string>,
    valorLiquidacaoEfetiva: Option<string>,
    motivoNaoPagamento: Option<string>)

  /**
   * The payment information `generate_random_record` builds from a bank account and its share:
   * the account's columns or their defaults and every settlement sub-field empty.
   */
  function AccountPayment(conta: Account, valor: int): (p: Payment)
    ensures p.valorAPagar == Some(valor)
    ensures p.compe == Some(conta.compe.GetOr("001")) && p.ispb == Some(conta.ispb.GetOr(DEFAULT_ISPB))
  {
    Payment(
      Some(conta.numeroDocumentoTitular.GetOr(DEFAULT_HOLDER)), Some(conta.tipoConta.GetOr("CC")),
      Some(conta.compe.GetOr("001")), Some(conta.ispb.GetOr(DEFAULT_ISPB)),
      Some(conta.agencia.GetOr("1234")), Some(conta.numeroConta.GetOr("123456-7")),
      Some(valor), Some(""), Some(""), Some(""), Some(""))
  }

  /**
   * The default group of `format_campo15_lista`: the same as an account payment, except that it
   * has no non-payment reason at all.
   */
  function DefaultPayment(conta: Account, valor: int): (p: Payment)
    ensures p.valorAPagar == Some(valor) && p.motivoNaoPagamento.None?
  {
    AccountPayment(conta, valor).(motivoNaoPagamento := None)
  }

  /**
   * `pagamento_info`: the eleven sub-fields of one payment information, in order — the
   * account's six columns, the amount with two decimals, then the four settlement sub-fields.
   */
  function PaymentFields(p: Payment): (fields: seq<string>)
    ensures |fields| == PAYMENT_ARITY
    ensures |fields[0]| >= CPF_WIDTH && |fields[3]| >= ISPB_WIDTH
    ensures fields[2] == "" <==> !Truthy(p.compe)
    ensures HasFraction(fields[6], AMOUNT_DECIMALS)
  {
    AccountSubFields(p) + [FormatAmount(p.valorAPagar.GetOr(0))] + SettlementSubFields(p)
  }

  /**
   * Sub-fields 1 to 6: the holder's document zero-filled to 11, the account type, the COMPE
   * code zero-filled to 3 when present and not empty and otherwise empty, the ISPB zero-filled
   * to 8, the branch and the account number.
   */
  function AccountSubFields(p: Payment): (fields: seq<string>)
    ensures |fields| == 6
    ensures |fields[0]| >= CPF_WIDTH && |fields[3]| >= ISPB_WIDTH
    ensures fields[2] == "" <==> !Truthy(p.compe)
  {
    [ FormatCpf(p.numeroDocumentoTitular.GetOr(DEFAULT_HOLDER)),
      p.tipoConta.GetOr("CC"),
      FormatCompe(p.compe),
      FormatIspb(p.ispb, DEFAULT_ISPB),
      p.agencia.GetOr("1234"),
      p.numeroConta.GetOr("123456-7") ]
  }

  /** Sub-fields 8 to 11: beneficiary, effective settlement date and amount, non-payment reason. */
  function SettlementSubFields(p: Payment): (fields: seq<string>)
    ensures |fields| == 4
    ensures p.motivoNaoPagamento.None? ==> fields[3] == ""
  {
    [ p.beneficiario.GetOr(""),
      p.dataLiquidacaoEfetiva.GetOr(""),
      p.valorLiquidacaoEfetiva.GetOr(""),
      p.motivoNaoPagamento.GetOr("") ]
  }

  function PaymentItems(ps: seq<Payment>): (items: seq<seq<string>>)
    ensures |items| == |ps| && forall k | 0 <= k < |ps| :: items[k] == PaymentFields(ps[k])
  {
    seq(|ps|, k requires 0 <= k < |ps| => PaymentFields(ps[k]))
  }

  /** The amount to pay a payment information carries, zero when missing. */
  function PaymentAmount(p: Payment): int
  {
    p.valorAPagar.GetOr(0)
  }

  /** The record dictionary; amounts are in cents. */
  datatype Record = Record(
    tipoOperacao: Option<string>,
    referenciaExterna: Option<string>,
    cnpjCredenciadora: Option<string>,
    cnpjParticipante: Option<string>,
    usuarioFinalRecebedor: Option<string>,
    arranjoPagamento: Option<string>,
    dataLiquidacao: Option<Date>,
    titular: Option<string>,
    valorConstituidoTotal: Option<int>,
    valorBloqueado: Option<int>,
    valorLivre: Option<int>,
    valorOnerado: Option<int>,
    valorDisponivel: Option<int>,
    valorTransacao: Option<int>,
    carteira: Option<string>,
    pagamentos: Option<seq<Payment>>)

  /**
   * The payment informations campo 15 lists: the record's own, or — when it has none — exactly
   * one default group built from `conta` (the account `random.choice` picks) for the record's
   * whole transaction amount.
   */
  function Payments(data: Record, conta: Account): (ps: seq<Payment>)
    ensures |ps| >= 1
  {
    if data.pagamentos.None? || data.pagamentos.value == [] then
      [DefaultPayment(conta, data.valorTransacao.GetOr(0))]
    else
      data.pagamentos.value
  }

  /** Campo 15: each payment information's sub-fields joined with ';', the groups with '|'. */
  function Campo15(data: Record, conta: Account): string
  {
    EncodeItems(PaymentItems(Payments(data, conta)))
  }

  /** `format_campo15_lista`: the default group when needed, then the formatting loop. */
  method FormatCampo15(data: Record, conta: Account) returns (campo15: string)
    ensures campo15 == Campo15(data, conta)
  {
    var pagamentos := data.pagamentos.GetOr([]);
    if pagamentos == [] {
      pagamentos := [DefaultPayment(conta, data.valorTransacao.GetOr(0))];
    }
    assert pagamentos == Payments(data, conta);
    campo15 := EncodeEach(pagamentos, PaymentFields);
    assert ItemsOf(pagamentos, PaymentFields) == PaymentItems(pagamentos);
  }

  /**
   * A record without payment informations gets one group that pays the whole transaction amount
   * into the given account, with an empty non-payment reason.
   */
  lemma DefaultPaymentGroup(data: Record, conta: Account)
    requires data.pagamentos.None? || data.pagamentos.value == []
    ensures var items := PaymentItems(Payments(data, conta));
      && |items| == 1
      && ParseFixed(items[0][6], AMOUNT_DECIMALS) == Some(data.valorTransacao.GetOr(0))
      && items[0][10] == ""
      && (items[0][2] == "" <==> conta.compe == Some(""))
  {
    var p := DefaultPayment(conta, data.valorTransacao.GetOr(0));
    assert Payments(data, conta) == [p];
    var fields := PaymentFields(p);
    assert PaymentItems([p])[0] == fields;
    assert ParseFixed(fields[6], AMOUNT_DECIMALS) == Some(data.valorTransacao.GetOr(0)) by {
      PaymentAmountReadsBack(p);
    }
    assert fields[10] == "" by {
      assert fields[10] == SettlementSubFields(p)[3];
    }
    assert fields[2] == "" <==> conta.compe == Some("") by {
      assert p.compe == Some(conta.compe.GetOr("001"));
    }
  }

  /** The amount sub-field of a payment reads back as the amount to pay, zero when missing. */
  lemma PaymentAmountReadsBack(p: Payment)
    ensures ParseFixed(PaymentFields(p)[6], AMOUNT_DECIMALS) == Some(PaymentAmount(p))
  {
    assert PaymentFields(p)[6] == FormatAmount(p.valorAPagar.GetOr(0));
    FormatAmountReadsBack(p.valorAPagar.GetOr(0));
  }

  /**
   * Campo 15 reads back as its groups and sub-fields, provided no sub-field holds ';' or '|'
   * (which the format has no way to escape).
   */
  lemma Campo15ReadsBack(data: Record, conta: Account)
    requires var items := PaymentItems(Payments(data, conta));
      forall k, j | 0 <= k < |items| && 0 <= j < |items[k]| :: IsPlainField(items[k][j])
    ensures DecodeItems(Campo15(data, conta)) == PaymentItems(Payments(data, conta))
  {
    DecodeEncode(PaymentItems(Payments(data, conta)));
  }

  /**
   * Field `position` of fields 1 to 8 of `generate_row`: the operation type defaults to `C`,
   * the acquirer and participant are zero-filled to 14, the receiving user and the holder to
   * 11, a missing settlement date is today's.
   */
  function HeadField(data: Record, today: Date, position: nat): (token: string)
    requires position < HEAD_ARITY
    ensures position == 2 || position == 3 ==> |token| >= CNPJ_WIDTH
    ensures position == 4 || position == 7 ==> |token| >= CPF_WIDTH
    ensures position == 6 ==> IsIsoDate(token)
  {
    match position
    case 0 => data.tipoOperacao.GetOr("C")
    case 1 => data.referenciaExterna.GetOr("")
    case 2 => FormatCnpj(data.cnpjCredenciadora.GetOr(""))
    case 3 => FormatCnpj(data.cnpjParticipante.GetOr(""))
    case 4 => FormatCpf(data.usuarioFinalRecebedor.GetOr(""))
    case 5 => data.arranjoPagamento.GetOr("")
    case 6 => FormatDate(data.dataLiquidacao.GetOr(today))
    case _ => FormatCpf(data.titular.GetOr(""))
  }

  /**
   * Fields 9 to 14 as amounts in cents, zero when missing: constituted total, blocked, free,
   * encumbered, available, transaction.
   */
  function AmountValues(data: Record): (values: seq<int>)
    ensures |values| == AMOUNT_COUNT
  {
    [ data.valorConstituidoTotal.GetOr(0), data.valorBloqueado.GetOr(0), data.valorLivre.GetOr(0),
      data.valorOnerado.GetOr(0), data.valorDisponivel.GetOr(0), data.valorTransacao.GetOr(0) ]
  }

  /** Fields 9 to 14 of `generate_row`, each amount with two decimals. */
  function AmountTokens(data: Record): (tokens: seq<string>)
    ensures |tokens| == AMOUNT_COUNT
    ensures forall k | 0 <= k < AMOUNT_COUNT :: HasFraction(tokens[k], AMOUNT_DECIMALS)
  {
    var values := AmountValues(data);
    seq(AMOUNT_COUNT, k requires 0 <= k < AMOUNT_COUNT => FormatAmount(values[k]))
  }

  /** Every amount token reads back as the amount it was written from. */
  lemma AmountTokensReadBack(data: Record)
    ensures forall k | 0 <= k < AMOUNT_COUNT ::
      ParseFixed(AmountTokens(data)[k], AMOUNT_DECIMALS) == Some(AmountValues(data)[k])
  {
    forall k | 0 <= k < AMOUNT_COUNT
      ensures ParseFixed(AmountTokens(data)[k], AMOUNT_DECIMALS) == Some(AmountValues(data)[k])
    {
      FormatAmountReadsBack(AmountValues(data)[k]);
    }
  }

  /** Fields 1 to 8 of `generate_row`, in layout order. */
  function Head(data: Record, today: Date): (head: seq<string>)
    ensures |head| == HEAD_ARITY
    ensures forall i | 0 <= i < HEAD_ARITY :: head[i] == HeadField(data, today, i)
  {
    seq(HEAD_ARITY, i requires 0 <= i < HEAD_ARITY => HeadField(data, today, i))
  }

  /**
   * `generate_row`: `campos_base` (fields 1 to 14), campo 15 and campo 16, the portfolio, which
   * falls back to the configured one. `conta` stands for the account drawn when the record has
   * no payment informations.
   */
  function Row(config: Config, data: Record, today: Date, conta: Account): (row: seq<string>)
    ensures |row| == ROW_ARITY
    ensures row[..HEAD_ARITY] == Head(data, today)
    ensures row[HEAD_ARITY..HEAD_ARITY + AMOUNT_COUNT] == AmountTokens(data)
  {
    Head(data, today) + AmountTokens(data)
      + [Campo15(data, conta), data.carteira.GetOr(config.carteiraPadrao.GetOr("Carteira1"))]
  }

  lemma RowHead(config: Config, data: Record, today: Date, conta: Account, i: nat)
    requires i < HEAD_ARITY
    ensures Row(config, data, today, conta)[i] == HeadField(data, today, i)
  {
    var row := Row(config, data, today, conta);
    assert row[i] == row[..HEAD_ARITY][i];
  }

  /**
   * Campo 15 always holds ';' (a group has eleven sub-fields), so the writer always quotes it;
   * reading the line back still gives campo 15 exactly, and with it every group.
   */
  lemma Campo15Quoted(config: Config, data: Record, today: Date, conta: Account)
    ensures var row := Row(config, data, today, conta);
      && row[CAMPO15] == Campo15(data, conta)
      && NeedsQuoting(row[CAMPO15])
      && QuoteField(row[CAMPO15])[0] == QUOTE
      && ParseLine(WriteRow(row)) == Some(row)
  {
    var row := Row(config, data, today, conta);
    assert row[CAMPO15] == Campo15(data, conta);
    FieldSeparatorInItems(PaymentItems(Payments(data, conta)), 0);
    ParseWriteRow(row);
  }

  /**
   * Every token outside campo 15 reads back as the value it was written from, or as its
   * default: only the zero-filling of a short identifier is lost.
   */
  lemma RowReadsBack(config: Config, data: Record, today: Date, conta: Account)
    ensures var row := Row(config, data, today, conta);
      && row[0] == data.tipoOperacao.GetOr("C")
      && row[1] == data.referenciaExterna.GetOr("")
      && (IsDigits(data.cnpjCredenciadora.GetOr("")) ==>
            IsDigits(row[2]) && DigitsValue(row[2]) == DigitsValue(data.cnpjCredenciadora.GetOr("")))
      && (IsDigits(data.cnpjParticipante.GetOr("")) ==>
            IsDigits(row[3]) && DigitsValue(row[3]) == DigitsValue(data.cnpjParticipante.GetOr("")))
      && (IsDigits(data.usuarioFinalRecebedor.GetOr("")) ==>
            IsDigits(row[4]) && DigitsValue(row[4]) == DigitsValue(data.usuarioFinalRecebedor.GetOr("")))
      && row[5] == data.arranjoPagamento.GetOr("")
      && IsIsoDate(row[6]) && ParseIsoDate(row[6]) == data.dataLiquidacao.GetOr(today)
      && (IsDigits(data.titular.GetOr("")) ==>
            IsDigits(row[7]) && DigitsValue(row[7]) == DigitsValue(data.titular.GetOr("")))
      && (forall k | HEAD_ARITY <= k < HEAD_ARITY + AMOUNT_COUNT ::
            ParseFixed(row[k], AMOUNT_DECIMALS) == Some(AmountValues(data)[k - HEAD_ARITY]))
      && row[15] == data.carteira.GetOr(config.carteiraPadrao.GetOr("Carteira1"))
  {
    TextTokensReadBack(config, data, today, conta);
    IdentifierTokensReadBack(config, data, today, conta);
    SettlementDateReadsBack(config, data, today, conta);
    AmountsReadBack(config, data, today, conta);
  }

  lemma TextTokensReadBack(config: Config, data: Record, today: Date, conta: Account)
    ensures var row := Row(config, data, today, conta);
      && row[0] == data.tipoOperacao.GetOr("C")
      && row[1] == data.referenciaExterna.GetOr("")
      && row[5] == data.arranjoPagamento.GetOr("")
      && row[15] == data.carteira.GetOr(config.carteiraPadrao.GetOr("Carteira1"))
  {
    var row := Row(config, data, today, conta);
    RowHead(config, data, today, conta, 0);
    RowHead(config, data, today, conta, 1);
    RowHead(config, data, today, conta, 5);
  }

  lemma IdentifierTokensReadBack(config: Config, data: Record, today: Date, conta: Account)
    ensures var row := Row(config, data, today, conta);
      && (IsDigits(data.cnpjCredenciadora.GetOr("")) ==>
            IsDigits(row[2]) && DigitsValue(row[2]) == DigitsValue(data.cnpjCredenciadora.GetOr("")))
      && (IsDigits(data.cnpjParticipante.GetOr("")) ==>
            IsDigits(row[3]) && DigitsValue(row[3]) == DigitsValue(data.cnpjParticipante.GetOr("")))
      && (IsDigits(data.usuarioFinalRecebedor.GetOr("")) ==>
            IsDigits(row[4]) && DigitsValue(row[4]) == DigitsValue(data.usuarioFinalRecebedor.GetOr("")))
      && (IsDigits(data.titular.GetOr("")) ==>
            IsDigits(row[7]) && DigitsValue(row[7]) == DigitsValue(data.titular.GetOr("")))
  {
    var row := Row(config, data, today, conta);
    RowHead(config, data, today, conta, 2);
    RowHead(config, data, today, conta, 3);
    RowHead(config, data, today, conta, 4);
    RowHead(config, data, today, conta, 7);
  }

  lemma SettlementDateReadsBack(config: Config, data: Record, today: Date, conta: Account)
    ensures var row := Row(config, data, today, conta);
      IsIsoDate(row[6]) && ParseIsoDate(row[6]) == data.dataLiquidacao.GetOr(today)
  {
    RowHead(config, data, today, conta, 6);
    FormatDateReadsBack(data.dataLiquidacao.GetOr(today));
  }

  lemma AmountsReadBack(config: Config, data: Record, today: Date, conta: Account)
    ensures var row := Row(config, data, today, conta);
      forall k | HEAD_ARITY <= k < HEAD_ARITY + AMOUNT_COUNT ::
        ParseFixed(row[k], AMOUNT_DECIMALS) == Some(AmountValues(data)[k - HEAD_ARITY])
  {
    AmountTokensReadBack(data);
    AmountSliceReadsBack(Row(config, data, today, conta), AmountTokens(data), AmountValues(data));
  }

  lemma AmountSliceReadsBack(row: seq<string>, tokens: seq<string>, values: seq<int>)
    requires |row| == ROW_ARITY && |values| == AMOUNT_COUNT
    requires row[HEAD_ARITY..HEAD_ARITY + AMOUNT_COUNT] == tokens
    requires forall k | 0 <= k < AMOUNT_COUNT :: ParseFixed(tokens[k], AMOUNT_DECIMALS) == Some(values[k])
    ensures forall k | HEAD_ARITY <= k < HEAD_ARITY + AMOUNT_COUNT ::
      ParseFixed(row[k], AMOUNT_DECIMALS) == Some(values[k - HEAD_ARITY])
  {
    forall k | HEAD_ARITY <= k < HEAD_ARITY + AMOUNT_COUNT
      ensures ParseFixed(row[k], AMOUNT_DECIMALS) == Some(values[k - HEAD_ARITY])
    {
      assert row[k] == tokens[k - HEAD_ARITY];
    }
  }

  /**
   * A record without acquirer, participant or receiving user is written with zeros in their
   * place: fourteen for the CNPJs, eleven for the user.
   */
  lemma MissingIdentifiersAreZeros(config: Config, data: Record, today: Date, conta: Account)
    requires data.cnpjCredenciadora.None? && data.cnpjParticipante.None? && data.usuarioFinalRecebedor.None?
    ensures var row := Row(config, data, today, conta);
      row[2] == Zeros(CNPJ_WIDTH) && row[3] == Zeros(CNPJ_WIDTH) && row[4] == Zeros(CPF_WIDTH)
  {
    var row := Row(config, data, today, conta);
    RowHead(config, data, today, conta, 2);
    RowHead(config, data, today, conta, 3);
    RowHead(config, data, today, conta, 4);
    assert row[2] == HeadField(data, today, 2) == ZFill("", CNPJ_WIDTH);
    assert row[3] == HeadField(data, today, 3) == ZFill("", CNPJ_WIDTH);
    assert row[4] == HeadField(data, today, 4) == ZFill("", CPF_WIDTH);
    assert ZFill("", CNPJ_WIDTH) == Zeros(CNPJ_WIDTH) + "";
    assert ZFill("", CPF_WIDTH) == Zeros(CPF_WIDTH) + "";
  }

  // ---------------------------------------------------------------- generate_random_record

  /**
   * The draws of `generate_random_record`: the merchant, the number of payments
   * (`randint(1, 3)`), the accounts `random.sample` picks, the settlement date (today plus
   * `dias_futuros_liquidacao`), the uniform draws of the transaction amount, of the factor
   * giving the constituted total and of the blocked and encumbered amounts in reais, the
   * arrangement and the operation type; plus the account `format_campo15_lista` would pick for
   * a record without payments.
   */
  datatype Draw = Draw(
    operacao: nat, ec: nat, numPagamentos: nat, contas: seq<nat>, dataLiquidacao: Date,
    transacao: real, constituidoFactor: real, bloqueado: real, onerado: real,
    arranjo: nat, contaPadrao: nat)

  /** `valor_transacao`, in cents. */
  function Transacao(d: Draw): int
  {
    ToCents(d.transacao)
  }

  /** `valor_constituido_total`: the transaction amount scaled by the drawn factor. */
  function Constituido(d: Draw): int
  {
    Scale(Transacao(d), d.constituidoFactor)
  }

  /** `valor_livre`: what the blocked amount leaves of the constituted total. */
  function Livre(d: Draw): int
  {
    Constituido(d) - ToCents(d.bloqueado)
  }

  predicate ValidDraw(config: Config, d: Draw)
  {
    && d.operacao < |OPERATION_TYPES| && d.ec < |config.cnpjsEc| && d.arranjo < |config.arranjosPagamento|
    && d.contaPadrao < |config.contasBancarias|
    && 1 <= d.numPagamentos <= MAX_PAYMENTS
    && |d.contas| == (if d.numPagamentos < |config.contasBancarias| then d.numPagamentos else |config.contasBancarias|)
    && (forall k | 0 <= k < |d.contas| :: d.contas[k] < |config.contasBancarias|)
    && (forall k, j | 0 <= k < j < |d.contas| :: d.contas[k] != d.contas[j])
    && UniformDraw(d.transacao, MIN_TRANSACTION, config.valorMaximoTransacao)
    && UniformDraw(d.constituidoFactor, 1.0, 1.5)
    && UniformDraw(d.bloqueado, 0.0, Reais(Constituido(d)) * 0.3)
    && UniformDraw(d.onerado, 0.0, Reais(Livre(d)) * 0.8)
  }

  /**
   * `generate_random_record`: the merchant is both receiving user and holder, the free amount
   * is what the blocked amount leaves of the constituted total, the available amount is what
   * the encumbered amount leaves of the free one, and the transaction amount is split over the
   * sampled accounts.
   */
  function RandomRecord(config: Config, referencia: string, d: Draw): (r: Record)
    requires ValidDraw(config, d)
    ensures r.referenciaExterna == Some(referencia)
    ensures r.tipoOperacao.Some? && r.tipoOperacao.value in OPERATION_TYPES
    ensures r.usuarioFinalRecebedor.Some? && r.usuarioFinalRecebedor.value in config.cnpjsEc
    ensures r.titular == r.usuarioFinalRecebedor
    ensures r.valorTransacao == Some(Transacao(d)) && r.valorConstituidoTotal == Some(Constituido(d))
    ensures r.valorBloqueado.Some? && r.valorLivre.Some? && r.valorOnerado.Some? && r.valorDisponivel.Some?
    ensures r.valorLivre.value + r.valorBloqueado.value == r.valorConstituidoTotal.value
    ensures r.valorDisponivel.value + r.valorOnerado.value == r.valorLivre.value
    ensures r.pagamentos.Some? && 1 <= |r.pagamentos.value| <= MAX_PAYMENTS
    ensures SumOf(r.pagamentos.value, PaymentAmount) == Transacao(d)
  {
    var ec := config.cnpjsEc[d.ec];
    var contas := seq(|d.contas|, k requires 0 <= k < |d.contas| => config.contasBancarias[d.contas[k]]);
    var livre := Livre(d);
    var onerado := ToCents(d.onerado);
    ShareOverSum(contas, Transacao(d), AccountPayment, PaymentAmount);
    Record(
      Some(OPERATION_TYPES[d.operacao]), Some(referencia), Some(config.cnpjCredenciadora),
      Some(config.cnpjParticipante), Some(ec), Some(config.arranjosPagamento[d.arranjo]),
      Some(d.dataLiquidacao), Some(ec), Some(Constituido(d)), Some(ToCents(d.bloqueado)),
      Some(livre), Some(onerado), Some(livre - onerado), Some(Transacao(d)),
      Some(config.carteiraPadrao.GetOr("Carteira1")),
      Some(ShareOver(contas, Transacao(d), AccountPayment)))
  }

  /** The drawn transaction amount is at least the smaller of 100.00 and the configured maximum. */
  lemma DrawnTransactionNonNegative(config: Config, d: Draw)
    requires ValidDraw(config, d) && config.valorMaximoTransacao >= 0.0
    ensures Transacao(d) >= 0
  {
    assert d.transacao >= 0.0;
  }

  /**
   * With a non-negative configured maximum no amount of a record is negative: the constituted
   * total is at least the transaction amount, the blocked amount at most the total, and the
   * encumbered amount at most the free one.
   */
  lemma RandomAmounts(config: Config, d: Draw)
    requires ValidDraw(config, d) && config.valorMaximoTransacao >= 0.0
    ensures 0 <= Transacao(d) <= Constituido(d)
    ensures 0 <= ToCents(d.bloqueado) <= Constituido(d)
    ensures 0 <= ToCents(d.onerado) <= Livre(d)
    ensures Livre(d) - ToCents(d.onerado) >= 0
  {
    var transacao := Transacao(d);
    DrawnTransactionNonNegative(config, d);
    assert Constituido(d) >= transacao by {
      ScaledUp(transacao, d.constituidoFactor, transacao as real * d.constituidoFactor);
    }
    assert 0 <= ToCents(d.bloqueado) <= Constituido(d) by {
      DrawnShareWithin(Constituido(d), d.bloqueado, 0.3);
    }
    assert 0 <= ToCents(d.onerado) <= Livre(d) by {
      DrawnShareWithin(Livre(d), d.onerado, 0.8);
    }
  }

  /**
   * In a generated line the amounts read back as the drawn ones, which form a consistent
   * breakdown: free plus blocked is the constituted total and available plus encumbered is the
   * free amount.
   */
  lemma RandomRowAmounts(config: Config, referencia: string, d: Draw, today: Date, conta: Account)
    requires ValidDraw(config, d)
    ensures var row := Row(config, RandomRecord(config, referencia, d), today, conta);
      && ParseFixed(row[8], AMOUNT_DECIMALS) == Some(Constituido(d))
      && ParseFixed(row[9], AMOUNT_DECIMALS) == Some(ToCents(d.bloqueado))
      && ParseFixed(row[10], AMOUNT_DECIMALS) == Some(Livre(d))
      && ParseFixed(row[11], AMOUNT_DECIMALS) == Some(ToCents(d.onerado))
      && ParseFixed(row[12], AMOUNT_DECIMALS) == Some(Livre(d) - ToCents(d.onerado))
      && ParseFixed(row[13], AMOUNT_DECIMALS) == Some(Transacao(d))
      && Livre(d) + ToCents(d.bloqueado) == Constituido(d)
  {
    var r := RandomRecord(config, referencia, d);
    var row := Row(config, r, today, conta);
    AmountsReadBack(config, r, today, conta);
    RandomAmountValues(config, referencia, d);
    var values := AmountValues(r);
    assert ParseFixed(row[8], AMOUNT_DECIMALS) == Some(values[0]);
    assert ParseFixed(row[9], AMOUNT_DECIMALS) == Some(values[1]);
    assert ParseFixed(row[10], AMOUNT_DECIMALS) == Some(values[2]);
    assert ParseFixed(row[11], AMOUNT_DECIMALS) == Some(values[3]);
    assert ParseFixed(row[12], AMOUNT_DECIMALS) == Some(values[4]);
    assert ParseFixed(row[13], AMOUNT_DECIMALS) == Some(values[5]);
  }

  lemma RandomAmountValues(config: Config, referencia: string, d: Draw)
    requires ValidDraw(config, d)
    ensures AmountValues(RandomRecord(config, referencia, d)) == [Constituido(d), ToCents(d.bloqueado),
      Livre(d), ToCents(d.onerado), Livre(d) - ToCents(d.onerado), Transacao(d)]
  {
  }

  /** `generate_filename`: no `_ret` suffix, root taken from the acquirer's CNPJ. */
  function FileName(config: Config, date: Date): (name: string)
    ensures StartsWith(name, LAYOUT + "_" + FileWriter.CnpjRaiz(config.cnpjCredenciadora) + "_")
    ensures !EndsWith(name, FileWriter.RETURN_SUFFIX + FileWriter.CSV_EXTENSION)
  {
    assert Pow10(7) == 10000000;
    FileWriter.FileName(LAYOUT, config.cnpjCredenciadora, date, FileWriter.SEQUENCE, false)
  }

  /** The lines `generate_file` writes for the given draws: one per record, in record order. */
  function Lines(config: Config, draws: seq<Draw>, today: Date): (lines: seq<string>)
    requires forall k | 0 <= k < |draws| :: ValidDraw(config, draws[k])
    ensures |lines| == |draws|
  {
    seq(|draws|, k requires 0 <= k < |draws| => WriteRow(FileRow(config, k, draws[k], today)))
  }

  /** The row of the `k`-th record of a file: it carries that record's own reference in field 2. */
  function FileRow(config: Config, k: nat, d: Draw, today: Date): (row: seq<string>)
    requires ValidDraw(config, d)
    ensures |row| == ROW_ARITY && row[1] == FileWriter.Reference(REFERENCE_PREFIX, k)
  {
    var conta := config.contasBancarias[d.contaPadrao];
    var r := RandomRecord(config, FileWriter.Reference(REFERENCE_PREFIX, k), d);
    RowHead(config, r, today, conta, 1);
    Row(config, r, today, conta)
  }

  /** No two lines of a generated file are the same: each carries its own reference. */
  lemma LinesDistinct(config: Config, draws: seq<Draw>, today: Date)
    requires forall k | 0 <= k < |draws| :: ValidDraw(config, draws[k])
    ensures forall k, j | 0 <= k < j < |draws| :: Lines(config, draws, today)[k] != Lines(config, draws, today)[j]
  {
    var rows := seq(|draws|, k requires 0 <= k < |draws| => FileRow(config, k, draws[k], today));
    FileWriter.LinesDistinct(rows, 1, REFERENCE_PREFIX);
  }

  /**
   * `generate_file`: the records `REF_000001`, `REF_000002`, ... built from the draws in order,
   * then one written line per record in the same order.
   */
  method GenerateFile(config: Config, draws: seq<Draw>, date: Date, today: Date) returns (name: string, lines: seq<string>)
    requires forall k | 0 <= k < |draws| :: ValidDraw(config, draws[k])
    ensures name == FileName(config, date)
    ensures lines == Lines(config, draws, today)
  {
    name := FileName(config, date);
    var records := FileWriter.BuildRecords(draws,
      (i, d) requires ValidDraw(config, d) =>
        (RandomRecord(config, FileWriter.Reference(REFERENCE_PREFIX, i), d), config.contasBancarias[d.contaPadrao]));
    lines := FileWriter.WriteRows(records, (rc: (Record, Account)) => Row(config, rc.0, today, rc.1));
  }
}
