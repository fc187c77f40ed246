# CERC layout file generators, modelled in Dafny

The repository generates test files for the CERC receivables registry, one generator per layout
(AP001, AP002, AP003, AP004, AP005, AP006, AP008, AP010, AP012, AP023). Each generator draws
random records from a configuration, renders every record as a fixed sequence of tokens
(`generate_row`) and writes one line per record through `csv.writer` with `;` as the delimiter
and minimal quoting. The file name is built from the layout code, the first eight characters of
a CNPJ, the date and a seven-digit sequence number.

This project models the deterministic part of that pipeline and proves what each file promises:

- `Formatters`: `str.zfill` (CNPJ to 14, CPF to 11, COMPE to 3, ISPB to 8), `str(int)`,
  fixed-point decimals with a given number of fraction digits, `YYYY-MM-DD` dates, `YYYYMMDD`
  for file names and `isoformat() + "Z"` timestamps, the `date-time` form of section 5.6 of
  RFC 3339. Each formatter has a reader, and a lemma shows that reading the token gives the value
  back.
- `Amounts`: money as integer cents; Python's `round` on an exact value (half to even); the
  payment split loop, in which every account but the last gets `round(remaining / accounts
  left, 2)` and the last takes the remainder.
- `ListEncoder`: the nested lists of AP005 campo 12, AP002 campo 15 and AP008 campo 7. The
  sub-fields of a group are joined with `;` and the groups with `|`. A decoder splits the two
  levels again.
- `LineWriter`: `csv.writer(delimiter=';', quoting=QUOTE_MINIMAL)`. A token is quoted iff it
  holds `;`, `"`, CR or LF, and inner quotes are doubled (items 6 and 7 of section 2 of
  RFC 4180, with `;` as the separator). Every line ends with CRLF. A line parser shows that a
  written line gives back exactly its tokens.
- `FileWriter`: references `REF_000001`, `REF_000002`, … in index order, `PROT_` protocols, the
  file name with or without the `_ret` suffix, and the two loops of `generate_file`: one builds
  the records and one writes the rows.
- `Ap001` … `Ap023`: one module per layout. Each holds the record and configuration datatypes,
  `generate_row` as a function with its arity and field order, the read-back lemmas for each
  token, the deterministic part of `generate_random_record` with the code's bounds on the drawn
  values, the file name and `generate_file`.

The model reproduces two quirks of the code as they are:

- AP004 wraps a list of more than one element in literal quotes before writing. The writer then
  sees a `"` and quotes the token again, so `["a", "b"]` is written as `"""a|b"""`. See
  `Ap004.ListTokenQuotedTwice` and `LineWriter.PreQuotedTokenIsQuotedTwice`.
- A comment in `format_campo7_lista` of AP008 says that the writer quotes campo 7 because of the
  `|`. A token whose only special character is `|` is in fact written bare, as
  `LineWriter.ItemSeparatorAloneIsNotQuoted` shows. Campo 7 is quoted for its `;`, as
  `Ap008.Campo7Quoted` shows.

Dictionary lookups `data.get(key, default)` are `Option` fields read with `GetOr`. Python's
truth test on a string (`if data.get(key)`) is `Truthy`: present and non-empty.

## Model

| member | source | states |
|---|---|---|
| Formatters.ZFill | ap005/generate_ap005.py:91-97 | `str.zfill`: the result is as long as the longer of the input and the width. It never truncates: an input already long enough is returned unchanged. Otherwise it is zeros followed by the input, or after the input's leading sign. A digit string keeps its numeric value. |
| Formatters.FormatCnpj | ap005/generate_ap005.py:91-93 | A CNPJ is zero-filled to 14. The length is the larger of 14 and the input's. A longer input is unchanged. A digit string keeps its value. |
| Formatters.FormatCpf | ap005/generate_ap005.py:95-97 | A CPF is zero-filled to 11. The length is the larger of 11 and the input's. A longer input is unchanged. A digit string keeps its value. |
| Formatters.IntToString | ap012/generate_ap012.py:129-130 | `str(n)`: a non-negative n gives its decimal digits with no leading zero. A negative n gives `-` and the digits of its magnitude. |
| Formatters.IntToStringReadsBack | ap012/generate_ap012.py:129-130 | Parsing `str(n)` as an integer gives n back, for every integer. |
| Formatters.PadNat | ap005/generate_ap005.py:314 | `{n:0Wd}`: decimal digits whose value is n, at least W long. The result is exactly W long when n has at most W digits. |
| Formatters.FormatDecimal | ap005/generate_ap005.py:107-109 | `f"{v:.{d}f}"` of a fixed-point value: it starts with `-` iff the value is negative and has exactly d digits after the point. |
| Formatters.FormatDecimalReadsBack | ap005/generate_ap005.py:107-109 | Reading the rendered decimal with d fraction digits gives the fixed-point value back, sign included. |
| Formatters.FormatAmount | ap012/generate_ap012.py:69-71 | An amount in cents is rendered with exactly two fraction digits. It starts with `-` iff the amount is negative. |
| Formatters.FormatAmountReadsBack | ap012/generate_ap012.py:69-71 | Reading the two-decimal token gives back the same number of cents. |
| Formatters.FormatDate | ap005/generate_ap005.py:99-101 | `strftime("%Y-%m-%d")` has the ISO calendar-date shape: 10 characters, four, two and two digits separated by `-` at indices 4 and 7. |
| Formatters.FormatDateReadsBack | ap005/generate_ap005.py:99-101 | Parsing the ISO date gives back the same year, month and day. |
| Formatters.FormatDateCompact | ap005/generate_ap005.py:82 | `strftime("%Y%m%d")` is 8 digits: the ISO date of the same day with its dashes removed. |
| Formatters.FormatDateTimeRfc3339 | ap005/generate_ap005.py:103-105 | `isoformat() + "Z"` is 20 characters when there are no microseconds and 27 otherwise. It starts with the ISO date, has `T` at index 10 and ends in `Z`, with no zone conversion. |
| Formatters.MicrosecondPart | ap005/generate_ap005.py:103-105 | The fraction `isoformat` adds is absent for zero microseconds. Otherwise it is `.` and six digits whose value is the microseconds. |
| Formatters.FormatDateTimeReadsBack | ap005/generate_ap005.py:103-105 | The timestamp is a `date-time` in the UTC `Z` form of section 5.6 of RFC 3339. Parsing it gives back the same date, hour, minute, second and microsecond. |
| Formatters.FormatCompe | ap005/generate_ap005.py:145 | The COMPE sub-field is empty iff the key is missing or empty. Otherwise it is the code zero-filled to 3, never truncated. |
| Formatters.FormatIspb | ap005/generate_ap005.py:146 | The ISPB sub-field is always zero-filled to 8, with the default used when the key is missing. A digit string keeps its value. |
| Amounts.RoundHalfEven | ap005/generate_ap005.py:192-196 | Python's `round` on an exact value: the result is within one half of the value. A value exactly between two integers goes to the even one. |
| Amounts.RoundMonotone | ap005/generate_ap005.py:192-196 | Rounding preserves order: a larger value never rounds lower. |
| Amounts.RoundWithin | ap005/generate_ap005.py:192-196 | A value between two whole amounts rounds to an amount between them. |
| Amounts.ToCents | ap005/generate_ap005.py:192 | `round(x, 2)` in cents: a non-negative draw gives a non-negative amount. |
| Amounts.Scale | ap005/generate_ap005.py:196 | `round(amount * factor, 2)` in cents: a non-negative amount and factor give a non-negative amount. |
| Amounts.Shares | ap005/generate_ap005.py:205-214 | The split gives exactly one share per account. |
| Amounts.SharesSum | ap005/generate_ap005.py:205-214 | The shares add up to the amount split: no cent is lost or created, because the last account takes the remainder. |
| Amounts.SharesBounded | ap005/generate_ap005.py:205-214 | Splitting a non-negative amount gives every account between nothing and the whole amount. |
| Amounts.ShareOver | ap005/generate_ap005.py:205-233 | Payment k is built from account k and share k, in account order. |
| Amounts.SplitOver | ap005/generate_ap005.py:205-233 | The loop over the accounts, tracking `valor_restante`, builds exactly the payments of the split in account order. |
| Amounts.ShareOverSum | ap002/generate_ap002.py:193-216 | The amounts of the built payments add up to the total. For a non-negative total, each payment is between nothing and the total. |
| Amounts.DrawnShareWithin | ap005/generate_ap005.py:193-194 | `round(uniform(0, total * fraction), 2)` with a fraction of at most one is between nothing and the total. |
| Amounts.ScaledUp | ap005/generate_ap005.py:196 | Scaling a non-negative amount by a factor of at least one never gives fewer cents. |
| ListEncoder.DecodeEncode | ap005/generate_ap005.py:139-163 | Splitting the encoded list on `|` and then on `;` gives back every group and every sub-field, in order and with duplicates kept. This holds when no sub-field contains `;` or `|` and every group has a sub-field. |
| ListEncoder.EncodeInjective | ap005/generate_ap005.py:139-163 | Two different lists of such groups never encode to the same text. |
| ListEncoder.FieldSeparatorInItems | ap005/generate_ap005.py:139-163 | A list with a group of at least two sub-fields contains `;`. |
| ListEncoder.WithHead | ap008/generate_ap008.py:239 | Prefixing base fields joins them to the first group only: same number of groups, the first extended by the prefix, the rest unchanged. |
| ListEncoder.EncodeItemsWithHead | ap008/generate_ap008.py:239 | `';'.join(base) + ';' + '|'.join(groups)` is the encoding of the groups with the base fields joined to the first group. |
| ListEncoder.EncodeEach | ap005/generate_ap005.py:139-163 | The loop appending `';'.join(...)` of each element and joining with `|` gives the encoding of the elements' groups in input order. |
| LineWriter.Escape | ap005/generate_ap005.py:318-325 | Doubling inner quotes never shortens a token. A token without `"` is unchanged. |
| LineWriter.QuoteField | ap005/generate_ap005.py:318-325 | QUOTE_MINIMAL: a token with `;`, `"`, CR or LF is written between quotes. Any other token is written unchanged. |
| LineWriter.WriteRow | ap005/generate_ap005.py:318-325 | Every written line ends with CRLF. |
| LineWriter.ParseWriteRow | ap005/generate_ap005.py:318-325 | Reading a written line back gives exactly the row's tokens, in order, whatever they contain. Quoted fields with doubled quotes are read as in section 2 of RFC 4180. |
| LineWriter.WriteRowInjective | ap005/generate_ap005.py:318-325 | Different rows are written as different lines. |
| LineWriter.ItemSeparatorAloneIsNotQuoted | ap008/generate_ap008.py:236-239 | A token whose only special character is `|` is written bare, with its `|`. It is not quoted as the comment says. |
| LineWriter.PreQuotedTokenIsQuotedTwice | ap004/generate_ap004.py:169-176 | A token the code already wrapped in quotes is quoted again and its quotes doubled: `"s"` is written as `"""s"""`. |
| FileWriter.Reference | ap005/generate_ap005.py:314 | `REF_{i+1:06d}` is the prefix followed by digits whose value is i + 1. It is exactly six digits while i + 1 fits. |
| FileWriter.ReferenceInjective | ap005/generate_ap005.py:312-316 | Records with different indices get different references. |
| FileWriter.Tagged | ap008/generate_ap008.py:156-157 | A tag for a number of a given digit count is the prefix followed by exactly that many digits, whose value is the number. |
| FileWriter.Protocol | ap006/generate_ap006.py:76 | `PROT_{randint(100000, 999999)}` is `PROT_` followed by exactly six digits whose value is the drawn number. |
| FileWriter.CnpjRaiz | ap005/generate_ap005.py:29 | `cnpj[:8]` is the first eight characters, or the whole CNPJ when shorter. |
| FileWriter.FileName | ap005/generate_ap005.py:82-88 | The name is `{layout}_{raiz}_`, then the `YYYYMMDD` date, `_`, the sequence as seven digits, and `.csv`. It has the `_ret` suffix iff the layout asks for it. |
| FileWriter.BuildRecords | ap005/generate_ap005.py:312-316 | The record loop builds one record per draw, record k from index k and draw k, in index order. |
| FileWriter.WriteRows | ap005/generate_ap005.py:318-325 | The writer loop emits one line per record, line k being the written row of record k, in index order. |
| FileWriter.LinesDistinct | ap005/generate_ap005.py:312-325 | Rows carrying the reference of their index at a fixed position give pairwise distinct lines. |
| Ap001.Field | ap001/generate_ap001.py:122-128 | The CNPJ token is at least 14 characters. A missing operation type is written as `C`. |
| Ap001.Row | ap001/generate_ap001.py:112-128 | `generate_row` returns exactly 5 tokens. |
| Ap001.RandomCnpj | ap001/generate_ap001.py:64-66 | The random CNPJ concatenates 8, 4 and 2 digit draws into exactly 14 digits, the first not `0`. |
| Ap001.RandomCnpjIsFormatted | ap001/generate_ap001.py:60-66 | `format_cnpj` leaves a generated CNPJ unchanged. |
| Ap001.RandomRecord | ap001/generate_ap001.py:68-110 | The operation type is one of `C`, `A`, `I`. The record carries its reference and a 14-digit CNPJ, and has both names. |
| Ap001.RandomLineReadsBack | ap001/generate_ap001.py:68-128 | The written line of a generated record reads back as the drawn type, the reference, the unpadded CNPJ and the drawn names, in that order. |
| Ap001.FileName | ap001/generate_ap001.py:37-58 | The name starts `CERC-AP001_{raiz}_` and has no `_ret` suffix. |
| Ap001.Lines | ap001/generate_ap001.py:150-163 | One line per record. |
| Ap001.LinesDistinct | ap001/generate_ap001.py:150-163 | The lines of a file are pairwise distinct, since each carries `REF_{i+1:06d}`. |
| Ap001.GenerateFile | ap001/generate_ap001.py:130-165 | The generated file has the layout's name and its lines are the records' rows in index order. |
| Ap002.NewConfig | ap002/generate_ap002.py:19-41 | The generator fails exactly when the EC list or the bank account list is empty. Otherwise it keeps the configuration. |
| Ap002.AccountPayment | ap002/generate_ap002.py:204-216 | A payment built from an account carries the amount it was given. Its COMPE and ISPB are the account's, with `001` and the default ISPB when missing. |
| Ap002.DefaultPayment | ap002/generate_ap002.py:114-129 | The default group pays the given amount and has no non-payment reason. |
| Ap002.PaymentFields | ap002/generate_ap002.py:133-147 | A campo 15 group has exactly 11 sub-fields. The holder is at least 11 characters and the ISPB at least 8. COMPE is empty iff missing or empty. The amount has two decimals. |
| Ap002.AccountSubFields | ap002/generate_ap002.py:135-140 | Sub-fields 15.1 to 15.6: 6 of them, with the holder and ISPB widths and the COMPE emptiness rule. |
| Ap002.SettlementSubFields | ap002/generate_ap002.py:141-145 | Sub-fields 15.7 to 15.11: 4 of them, the reason empty when missing. |
| Ap002.PaymentItems | ap002/generate_ap002.py:132-147 | One group per payment, in payment order. |
| Ap002.Payments | ap002/generate_ap002.py:114-129 | There is always at least one payment group: an empty or missing list is replaced by the default. |
| Ap002.FormatCampo15 | ap002/generate_ap002.py:107-151 | The loop of `format_campo15_lista` produces the `;`/`|` encoding of the payment groups. |
| Ap002.DefaultPaymentGroup | ap002/generate_ap002.py:114-129 | An empty or missing list gives exactly one group. It pays `valor_transacao` and its reason is empty. Its COMPE is empty only for an empty configured COMPE. |
| Ap002.PaymentAmountReadsBack | ap002/generate_ap002.py:141 | Sub-field 15.7 reads back as the payment's amount in cents. |
| Ap002.Campo15ReadsBack | ap002/generate_ap002.py:107-151 | Decoding campo 15 gives back every payment group and sub-field in order, when no sub-field contains `;` or `|`. |
| Ap002.HeadField | ap002/generate_ap002.py:249-256 | The CNPJ tokens are at least 14 characters, the CPF tokens at least 11, and the settlement date is an ISO date. |
| Ap002.AmountTokens | ap002/generate_ap002.py:257-262 | The six amount tokens each have two decimals. |
| Ap002.AmountTokensReadBack | ap002/generate_ap002.py:257-262 | Each amount token reads back as the record's amount, zero when missing. |
| Ap002.Head | ap002/generate_ap002.py:248-256 | The first 8 tokens are the head fields in order. |
| Ap002.Row | ap002/generate_ap002.py:237-271 | `generate_row` returns exactly 16 tokens: the 8 head fields, the 6 amounts in order, then campo 15 and carteira. |
| Ap002.Campo15Quoted | ap002/generate_ap002.py:266-306 | Campo 15 always contains `;`, so the writer always quotes it, and the written line reads back as the 16 tokens. |
| Ap002.RowReadsBack | ap002/generate_ap002.py:248-269 | Every token reads back as its record value with the code's defaults. Identifiers lose only their zero-filling, the date and amounts parse back, and carteira falls back to the configured one. |
| Ap002.TextTokensReadBack | ap002/generate_ap002.py:249-269 | The type (default `C`), reference, arrangement and carteira tokens are the record's values. |
| Ap002.IdentifierTokensReadBack | ap002/generate_ap002.py:251-256 | The CNPJ and CPF tokens have the same digit value as the record's identifiers. |
| Ap002.SettlementDateReadsBack | ap002/generate_ap002.py:255 | The settlement date token parses back as the record's date, or today's when missing. |
| Ap002.AmountsReadBack | ap002/generate_ap002.py:257-262 | Tokens 9 to 14 read back as the record's six amounts. |
| Ap002.MissingIdentifiersAreZeros | ap002/generate_ap002.py:251-253 | A missing identifier is written as zeros of the field's width, not as an empty token. |
| Ap002.RandomRecord | ap002/generate_ap002.py:153-235 | `livre + bloqueado = total` and `disponivel + onerado = livre`, in cents. There are 1 to 3 payments and they add up to `valor_transacao`. The holder is the drawn EC. |
| Ap002.DrawnTransactionNonNegative | ap002/generate_ap002.py:179 | The drawn transaction amount is never negative. |
| Ap002.RandomAmounts | ap002/generate_ap002.py:179-184 | The transaction is at most the constituted total. The blocked and encumbered amounts stay within their bounds, and the available amount is non-negative. |
| Ap002.RandomRowAmounts | ap002/generate_ap002.py:179-263 | In the row of a generated record the amount tokens read back as the drawn amounts, and free plus blocked equals the total. |
| Ap002.RandomAmountValues | ap002/generate_ap002.py:179-235 | The six amounts of a generated record are the drawn ones, in row order. |
| Ap002.FileName | ap002/generate_ap002.py:68-89 | The name starts `CERC-AP002_{raiz}_` and has no `_ret` suffix. |
| Ap002.Lines | ap002/generate_ap002.py:293-306 | One line per record. |
| Ap002.FileRow | ap002/generate_ap002.py:293-306 | Row k has 16 tokens and carries `REF_{k+1:06d}` as its reference. |
| Ap002.LinesDistinct | ap002/generate_ap002.py:293-306 | The lines of a file are pairwise distinct. |
| Ap002.GenerateFile | ap002/generate_ap002.py:273-308 | The generated file has the layout's name and its lines are the records' rows in index order. |
| Ap003.NewConfig | ap003/generate_ap003.py:19-40 | The generator fails exactly when the EC list or the bank account list is empty. |
| Ap003.Field | ap003/generate_ap003.py:161-176 | Both dates are ISO dates. The three CPF tokens are at least 11 characters and the acquirer at least 14. The amounts have two decimals and the ISPB is at least 8. |
| Ap003.Row | ap003/generate_ap003.py:151-176 | `generate_row` returns exactly 14 tokens. |
| Ap003.RowReadsBack | ap003/generate_ap003.py:161-176 | Every token reads back as the record's value with the code's defaults (`CC`, `00000001`, `1234`, `123456-7`, today). |
| Ap003.PartyTokensReadBack | ap003/generate_ap003.py:162-167 | The reference, holder, receiver, acquirer and arrangement tokens read back. |
| Ap003.AccountTokensReadBack | ap003/generate_ap003.py:170-174 | The account tokens read back, with their defaults. |
| Ap003.DateReadsBack | ap003/generate_ap003.py:163-168 | The expected and actual settlement dates parse back. |
| Ap003.AdvanceReadsBack | ap003/generate_ap003.py:169 | The advanced amount token reads back in cents. |
| Ap003.PaidReadsBack | ap003/generate_ap003.py:175 | The paid amount token reads back in cents. |
| Ap003.MissingIspbIsDefault | ap003/generate_ap003.py:172 | A missing ISPB is written as `00000001`. |
| Ap003.RandomRecord | ap003/generate_ap003.py:106-149 | The holder and receiver are the same drawn EC. `valor_pago` is `valor_antecipado` scaled by the drawn factor. The ISPB defaults to `00000001` when the account has none. |
| Ap003.PaidWithinAdvance | ap003/generate_ap003.py:128-129 | Scaling by a factor in [0.95, 1] gives at most the advanced amount and at least its 95% share. |
| Ap003.RandomRowHolder | ap003/generate_ap003.py:137-165 | In a generated row the holder and receiver tokens are equal. |
| Ap003.RandomRowAmounts | ap003/generate_ap003.py:128-175 | In a generated row the amounts read back as the drawn advance and the scaled payment. |
| Ap003.RandomPaidWithinAdvance | ap003/generate_ap003.py:128-129 | The paid amount is between 95% of the advance and the advance. |
| Ap003.FileName | ap003/generate_ap003.py:67-88 | The name starts `CERC-AP003_{raiz}_` and has no `_ret` suffix. |
| Ap003.Lines | ap003/generate_ap003.py:198-211 | One line per record. |
| Ap003.LinesDistinct | ap003/generate_ap003.py:198-211 | The lines of a file are pairwise distinct. |
| Ap003.GenerateFile | ap003/generate_ap003.py:178-213 | The generated file has the layout's name and its lines are the records' rows in index order. |
| Ap004.NewConfig | ap004/generate_ap004.py:19-39 | The generator fails exactly when the EC list is empty. |
| Ap004.FormatLista | ap004/generate_ap004.py:92-102 | Both list formatters equal `'|'.join(xs)` for every list. The one-element branch changes nothing, and `[]` gives an empty token. |
| Ap004.ListToken | ap004/generate_ap004.py:168-176 | The list token is wrapped in literal quotes iff the list has more than one element. |
| Ap004.ListTokenQuotedTwice | ap004/generate_ap004.py:169-176 | A pre-quoted list token is quoted again by the writer: `a|b` is written as `"""a|b"""`. |
| Ap004.SingleListTokenBare | ap004/generate_ap004.py:92-96 | A one-element list is written as the element itself. |
| Ap004.Field | ap004/generate_ap004.py:178-193 | The type defaults to `C`, the CNPJs are at least 14 characters and the dates are ISO dates. The end date, holder and receiving institution are empty exactly when absent or empty, otherwise formatted. |
| Ap004.Row | ap004/generate_ap004.py:158-193 | `generate_row` returns exactly 14 tokens. |
| Ap004.RowReadsBack | ap004/generate_ap004.py:178-193 | Every token reads back as the record's value with the code's defaults. Lists of plain elements parse back whole. The holder and receiving institution are empty when missing and otherwise keep their digit value. |
| Ap004.TextTokensReadBack | ap004/generate_ap004.py:179-191 | The type, reference, carteira and protocol tokens are the record's. |
| Ap004.CnpjTokensReadBack | ap004/generate_ap004.py:181-184 | The CNPJ tokens keep their digit value. |
| Ap004.ListTokenReadsBack | ap004/generate_ap004.py:168-176 | A list of non-empty elements without `|` or `"` parses back from its token: the parts inside the literal quotes, the bare element, or nothing. |
| Ap004.ListTokensReadBack | ap004/generate_ap004.py:168-185 | Tokens 5 and 7 parse back to the acquirer and arrangement lists they were written from. |
| Ap004.OptionalCnpjTokensReadBack | ap004/generate_ap004.py:189-192 | The holder and receiving institution tokens are empty when missing or empty, and otherwise keep the CNPJ's digit value. |
| Ap004.SignatureDateReadsBack | ap004/generate_ap004.py:186 | The signature date parses back. |
| Ap004.StartDateReadsBack | ap004/generate_ap004.py:187 | The start date parses back. |
| Ap004.EndDateReadsBack | ap004/generate_ap004.py:188 | A present end date parses back. |
| Ap004.RandomRecord | ap004/generate_ap004.py:104-156 | The type is `C` or `A`. The acquirers are the configured CNPJ repeated. There are 1 to 3 arrangements, each configured. The holder and receiving institution are empty. The protocol is non-empty iff the type is `A`. |
| Ap004.RandomRowOptionalFields | ap004/generate_ap004.py:139-193 | In a generated row the holder and receiving institution are empty, and the end date is the drawn one. The protocol token is non-empty iff the type token is `A`. |
| Ap004.Repeat | ap004/generate_ap004.py:132 | `[x] * n` has n elements, all x. |
| Ap004.RepeatedAcquirerToken | ap004/generate_ap004.py:131-176 | One acquirer gives the bare CNPJ. Two give `"c|c"`, which the writer turns into `"""c|c"""`. |
| Ap004.RandomAcquirersToken | ap004/generate_ap004.py:131-176 | The acquirers token of a generated row is the list token of the repeated configured CNPJ. |
| Ap004.FileName | ap004/generate_ap004.py:57-78 | The name starts `CERC-AP004_{raiz}_` and has no `_ret` suffix. |
| Ap004.Lines | ap004/generate_ap004.py:215-228 | One line per record. |
| Ap004.LinesDistinct | ap004/generate_ap004.py:215-228 | The lines of a file are pairwise distinct. |
| Ap004.GenerateFile | ap004/generate_ap004.py:195-230 | The generated file has the layout's name and its lines are the records' rows in index order. |
| Ap005.NewConfig | ap005/generate_ap005.py:19-41 | The generator fails exactly when the EC list or the bank account list is empty. |
| Ap005.AccountPayment | ap005/generate_ap005.py:216-233 | A payment built from an account carries its share and information type `7`. Its COMPE and ISPB are the account's or their defaults. |
| Ap005.PaymentFields | ap005/generate_ap005.py:139-160 | A campo 12 group has exactly 16 sub-fields. The holder is at least 11 characters and the ISPB at least 8. COMPE is empty iff missing or empty. The amount has two decimals. The information type defaults to `7`. |
| Ap005.AccountSubFields | ap005/generate_ap005.py:143-148 | Sub-fields 12.1 to 12.6: 6 of them, with the widths and COMPE rule. |
| Ap005.InformationSubFields | ap005/generate_ap005.py:149-158 | Sub-fields 12.7 to 12.15: 9 of them, the information type defaulting to `7`. |
| Ap005.PaymentItems | ap005/generate_ap005.py:139-160 | One 16-sub-field group per payment, in payment order. |
| Ap005.Payments | ap005/generate_ap005.py:116-137 | There is always at least one group: an empty or missing list is replaced by the default. |
| Ap005.FormatCampo12 | ap005/generate_ap005.py:111-164 | The loop of `format_campo12_lista` produces the `;`/`|` encoding of the payment groups. |
| Ap005.DefaultPaymentGroup | ap005/generate_ap005.py:116-137 | An empty or missing list gives exactly one group, never an empty campo. It pays `valor_constituido_total` and has information type `7`. |
| Ap005.AccountPaymentFields | ap005/generate_ap005.py:216-233 | A payment built from an account renders its share, type `7` and its COMPE rule. |
| Ap005.PaymentAmountReadsBack | ap005/generate_ap005.py:149 | Sub-field 12.7 reads back as the payment's amount in cents. |
| Ap005.Campo12ReadsBack | ap005/generate_ap005.py:111-164 | Decoding campo 12 gives back every group and sub-field in order, with duplicates, when no sub-field contains `;` or `|`. |
| Ap005.BaseField | ap005/generate_ap005.py:265-277 | Among the 11 base tokens the CNPJs are at least 14 characters and the CPFs at least 11. The date is an ISO date and the amounts have two decimals. |
| Ap005.FinalField | ap005/generate_ap005.py:283-288 | The final amounts have two decimals. The timestamp has `T` at 10 and ends in `Z`. |
| Ap005.Row | ap005/generate_ap005.py:254-290 | `generate_row` returns exactly 16 tokens: 11 base, campo 12, 4 final. |
| Ap005.Campo12Quoted | ap005/generate_ap005.py:280-325 | Campo 12 always contains `;`, so the writer always quotes it. The written line reads back as the 16 tokens. |
| Ap005.TextTokensReadBack | ap005/generate_ap005.py:266-285 | The reference, arrangement, constitution (default `1`) and carteira tokens are the record's. |
| Ap005.IdentifierTokensReadBack | ap005/generate_ap005.py:267-272 | The identifier tokens keep their digit value. |
| Ap005.SettlementDateReadsBack | ap005/generate_ap005.py:271 | The settlement date parses back, today's when missing. |
| Ap005.BaseAmountsReadBack | ap005/generate_ap005.py:274-276 | Total, advanced and blocked amounts read back in cents. |
| Ap005.TotalReadsBack | ap005/generate_ap005.py:274 | The total amount token reads back. |
| Ap005.AdvancedReadsBack | ap005/generate_ap005.py:275 | The advanced amount token reads back. |
| Ap005.BlockedReadsBack | ap005/generate_ap005.py:276 | The blocked amount token reads back. |
| Ap005.FinalAmountsReadBack | ap005/generate_ap005.py:285-286 | Free and UR total amounts read back. |
| Ap005.TimestampReadsBack | ap005/generate_ap005.py:287 | The last-update timestamp is an RFC 3339 UTC date-time and parses back, now when missing. |
| Ap005.RandomRecord | ap005/generate_ap005.py:166-252 | `livre = total - bloqueado` and the UR total is the scaled total. There are 1 or 2 payments and they add up to the total. The holder is the drawn EC. The arrangement is a configured one and the constitution is `1` or `2`. |
| Ap005.SplitPayments | ap005/generate_ap005.py:205-233 | The sampled accounts receive 1 or 2 payments, and these add up to the amount split. |
| Ap005.RandomAmounts | ap005/generate_ap005.py:192-196 | The blocked amount is between nothing and the total, the free amount is non-negative, the UR total is at least the total and the advance is within the total. |
| Ap005.DrawnTotalNonNegative | ap005/generate_ap005.py:192 | The drawn total is never negative. |
| Ap005.RandomRowAmounts | ap005/generate_ap005.py:192-288 | In a generated row the free plus blocked tokens read back to the total token. |
| Ap005.FileName | ap005/generate_ap005.py:68-89 | The name starts `CERC-AP005_{raiz}_` and ends `_ret.csv`. |
| Ap005.Lines | ap005/generate_ap005.py:312-325 | One line per record. |
| Ap005.FileRow | ap005/generate_ap005.py:312-325 | Row k has 16 tokens and carries `REF_{k+1:06d}` first. |
| Ap005.LinesDistinct | ap005/generate_ap005.py:312-325 | The lines of a file are pairwise distinct. |
| Ap005.GenerateFile | ap005/generate_ap005.py:292-327 | The generated file has the layout's name and its lines are the records' rows in index order. |
| Ap006.Field | ap006/generate_ap006.py:95-100 | The requester token is at least 14 characters. |
| Ap006.Row | ap006/generate_ap006.py:85-100 | `generate_row` returns exactly 4 tokens. |
| Ap006.RandomRecord | ap006/generate_ap006.py:65-83 | The opt-in protocol starts `PROT_`. The requester and carteira are the configured ones. |
| Ap006.RandomLineReadsBack | ap006/generate_ap006.py:65-100 | A generated line reads back as the reference, `PROT_` and six digits of the drawn number, the zero-filled requester, and the carteira. |
| Ap006.FileName | ap006/generate_ap006.py:38-59 | The name starts `CERC-AP006_{raiz}_` and has no `_ret` suffix. |
| Ap006.Lines | ap006/generate_ap006.py:122-135 | One line per record. |
| Ap006.LinesDistinct | ap006/generate_ap006.py:122-135 | The lines of a file are pairwise distinct. |
| Ap006.GenerateFile | ap006/generate_ap006.py:102-137 | The generated file has the layout's name and its lines are the records' rows in index order. |
| Ap008.NewConfig | ap008/generate_ap008.py:19-40 | The generator fails exactly when the EC list or the bank account list is empty. |
| Ap008.EffectFields | ap008/generate_ap008.py:191-207 | The base of campo 7 has exactly 15 sub-fields. |
| Ap008.ErrorSubFields | ap008/generate_ap008.py:204-205 | The error code and description are empty unless the status is `1`. |
| Ap008.DefaultAccount | ap008/generate_ap008.py:213-221 | The default account takes type, COMPE and ISPB from the configuration, falling back to `CC`, `001` and `12345678`. |
| Ap008.Accounts | ap008/generate_ap008.py:210-221 | There is always at least one account. A non-empty list is used as given. |
| Ap008.AccountFields | ap008/generate_ap008.py:226-234 | An account group has exactly 7 sub-fields. The holder is at least 11 characters and the ISPB at least 8. COMPE is empty iff missing or empty. |
| Ap008.AccountItems | ap008/generate_ap008.py:224-235 | One group per account, in account order. |
| Ap008.FormatCampo7 | ap008/generate_ap008.py:182-240 | The loop of `format_campo7_lista` produces the campo 7 text. |
| Ap008.Campo7Items | ap008/generate_ap008.py:191-239 | Campo 7 as groups: the first group is the 15 base sub-fields followed by the first account, then one group per further account. |
| Ap008.Campo7Encodes | ap008/generate_ap008.py:239 | `';'.join(base) + ';' + '|'.join(accounts)` is the `;`/`|` encoding of those groups. |
| Ap008.Campo7ReadsBack | ap008/generate_ap008.py:182-240 | Decoding campo 7 gives back the base sub-fields and every account group, in order, when no sub-field contains `;` or `|`. |
| Ap008.DefaultAccountItem | ap008/generate_ap008.py:210-221 | An empty or missing account list gives exactly one account group with the fixed holder and name and the configured defaults. |
| Ap008.EffectHeadReadsBack | ap008/generate_ap008.py:192-195 | Sub-fields 7.1 and 7.4 read back. The holder 7.3 is zero-filled to 14, unlike the 11 of AP005, and keeps its digit value. |
| Ap008.EncumbranceTermsReadBack | ap008/generate_ap008.py:198-199 | The encumbrance indicator and division rule read back. |
| Ap008.EventTermsReadBack | ap008/generate_ap008.py:201-203 | The protocol reads back. The status defaults to `0`. |
| Ap008.ErrorFieldsReadBack | ap008/generate_ap008.py:204-205 | The error fields are the record's when the status is `1`, otherwise empty. |
| Ap008.EffectDatesReadBack | ap008/generate_ap008.py:193-202 | The settlement date and the event timestamp parse back; the timestamp is an RFC 3339 UTC date-time. |
| Ap008.EffectAmountsReadBack | ap008/generate_ap008.py:196-206 | The four amounts of campo 7 read back in cents. |
| Ap008.Row | ap008/generate_ap008.py:242-265 | `generate_row` returns exactly 7 tokens, campo 7 last. The three CNPJs, the receiver included, are at least 14 characters. |
| Ap008.RowReadsBack | ap008/generate_ap008.py:253-265 | The base tokens read back and the last token is campo 7. |
| Ap008.Campo7Quoted | ap008/generate_ap008.py:239-302 | Campo 7 always contains `;`, so the writer quotes it. The written line reads back as the 7 tokens. |
| Ap008.EffectId | ap008/generate_ap008.py:157 | `EFEITO_` followed by exactly six digits of the drawn number. |
| Ap008.ContractId | ap008/generate_ap008.py:290 | `CONTRATO_` followed by exactly five digits of the drawn number. |
| Ap008.SampledAccounts | ap008/generate_ap008.py:130 | The sampled accounts are configured accounts, in draw order. |
| Ap008.EncumberedAmount | ap008/generate_ap008.py:147-150 | Under rule `1` the encumbered amount is the payment. Otherwise it is the drawn percentage. |
| Ap008.RandomRecord | ap008/generate_ap008.py:110-180 | The record holds the configured parties and the drawn EC as holder. The constitution is `1` and the status is success with no error. There are at most 3 accounts, at least one, all configured. The encumbered amount follows the division rule. |
| Ap008.RandomEncumbrance | ap008/generate_ap008.py:142-150 | The priority is between 1 and the configured maximum. A percentage is between 10.00 and 100.00. |
| Ap008.RandomAmounts | ap008/generate_ap008.py:136-139 | The payment and the blocked amount are within the constituted total. |
| Ap008.RandomEffectFields | ap008/generate_ap008.py:159-180 | A generated campo 7 has constitution `1`, status `0` and empty error fields. Under rule `1` the encumbered amount equals the effect's amount. |
| Ap008.FileName | ap008/generate_ap008.py:67-88 | The name starts `CERC-AP008_{raiz}_` and has no `_ret` suffix. |
| Ap008.FileRecord | ap008/generate_ap008.py:288-291 | Record k carries `REF_EXTERNA_{k+1:06d}`. |
| Ap008.Lines | ap008/generate_ap008.py:288-302 | One line per record. |
| Ap008.FileRow | ap008/generate_ap008.py:288-302 | Row k has 7 tokens and carries its reference first. |
| Ap008.LinesDistinct | ap008/generate_ap008.py:288-302 | The lines of a file are pairwise distinct. |
| Ap008.GenerateFile | ap008/generate_ap008.py:267-304 | The generated file has the layout's name and its lines are the records' rows in index order. |
| Ap010.NewConfig | ap010/generate_ap010.py:19-37 | The generator fails exactly when the EC list is empty. |
| Ap010.Field | ap010/generate_ap010.py:133-141 | Both dates are ISO dates. The acquirer is at least 14 characters and the receiver and holder at least 11. |
| Ap010.Row | ap010/generate_ap010.py:123-141 | `generate_row` returns exactly 7 tokens. |
| Ap010.RowReadsBack | ap010/generate_ap010.py:133-141 | Every token reads back as the record's value, today for a missing date. |
| Ap010.TextTokensReadBack | ap010/generate_ap010.py:134-140 | The reference, arrangement and identifier tokens read back. |
| Ap010.DateReadsBack | ap010/generate_ap010.py:135-139 | Both dates parse back. |
| Ap010.MissingAcquirerIsZeros | ap010/generate_ap010.py:136 | A missing acquirer is written as 14 zeros. |
| Ap010.RandomRecord | ap010/generate_ap010.py:94-121 | The settlement date is the reference date. Holder and receiver are the same drawn EC. The arrangement is a configured one. |
| Ap010.RandomRowSharedFields | ap010/generate_ap010.py:111-141 | In a generated row tokens 2 and 6 are equal and parse to the drawn date. Tokens 4 and 7 are equal. |
| Ap010.FileName | ap010/generate_ap010.py:55-76 | The name starts `CERC-AP010_{raiz}_` and ends `_ret.csv`. |
| Ap010.Lines | ap010/generate_ap010.py:163-176 | One line per record. |
| Ap010.LinesDistinct | ap010/generate_ap010.py:163-176 | The lines of a file are pairwise distinct. |
| Ap010.GenerateFile | ap010/generate_ap010.py:143-178 | The generated file has the layout's name and its lines are the records' rows in index order. |
| Ap012.Field | ap012/generate_ap012.py:122-133 | The date is an ISO date, both CNPJs are at least 14 characters and the balance has two decimals. |
| Ap012.Row | ap012/generate_ap012.py:112-133 | `generate_row` returns exactly 10 tokens. |
| Ap012.RowReadsBack | ap012/generate_ap012.py:122-133 | Every token reads back as the record's value. The types default to `1`, the counts are plain `str` and parse back, and the balance parses back in cents. |
| Ap012.TextTokensReadBack | ap012/generate_ap012.py:123-132 | The reference, CNPJ, type and carteira tokens read back. |
| Ap012.DateReadsBack | ap012/generate_ap012.py:124 | The reference date parses back. |
| Ap012.CountReadsBack | ap012/generate_ap012.py:129-130 | The two counts parse back as integers. |
| Ap012.BalanceReadsBack | ap012/generate_ap012.py:131 | The balance parses back in cents. |
| Ap012.RandomRecord | ap012/generate_ap012.py:73-110 | The type is in 1..4 and the modality in 1..3. 1 ≤ contratantes ≤ contratos ≤ 10. The balance is between 10000.00 and 1000000.00. |
| Ap012.RandomRowInRange | ap012/generate_ap012.py:87-131 | A generated row's type and modality tokens are in range, its counts parse back in order within 1..10, and its balance parses back within range. |
| Ap012.RandomCountsUnpadded | ap012/generate_ap012.py:129-130 | The count tokens are one or two digits without a leading zero. |
| Ap012.FileName | ap012/generate_ap012.py:38-59 | The name takes its raiz from the participant and ends `_ret.csv`. |
| Ap012.Lines | ap012/generate_ap012.py:155-168 | One line per record. |
| Ap012.LinesDistinct | ap012/generate_ap012.py:155-168 | The lines of a file are pairwise distinct. |
| Ap012.GenerateFile | ap012/generate_ap012.py:135-170 | The generated file has the layout's name and its lines are the records' rows in index order. |
| Ap023.Field | ap023/generate_ap023.py:105-113 | The date is an ISO date and both CNPJs are at least 14 characters. The receiving institution is empty iff absent or empty, otherwise zero-filled to 14. |
| Ap023.Row | ap023/generate_ap023.py:95-113 | `generate_row` returns exactly 7 tokens. |
| Ap023.RowReadsBack | ap023/generate_ap023.py:105-113 | Every token reads back as the record's value. The receiving institution is empty when missing and otherwise keeps its digit value. |
| Ap023.InstitutionReadsBack | ap023/generate_ap023.py:110 | The receiving institution token is empty when missing or empty, and otherwise keeps the CNPJ's digit value. |
| Ap023.TextTokensReadBack | ap023/generate_ap023.py:106-112 | The reference, CNPJ and carteira tokens read back. |
| Ap023.DateReadsBack | ap023/generate_ap023.py:107 | The reference date parses back. |
| Ap023.CountReadsBack | ap023/generate_ap023.py:111 | The active opt-in count parses back. |
| Ap023.RandomRecord | ap023/generate_ap023.py:69-93 | The count is in 1..20 and the receiving institution is empty. |
| Ap023.RandomRowShape | ap023/generate_ap023.py:80-111 | A generated row has an empty receiving-institution token, the drawn date and a count between 1 and 20. |
| Ap023.FileName | ap023/generate_ap023.py:38-59 | The name takes its raiz from the requester and ends `_ret.csv`. |
| Ap023.Lines | ap023/generate_ap023.py:135-148 | One line per record. |
| Ap023.LinesDistinct | ap023/generate_ap023.py:135-148 | The lines of a file are pairwise distinct. |
| Ap023.GenerateFile | ap023/generate_ap023.py:115-150 | The generated file has the layout's name and its lines are the records' rows in index order. |

## Left out

- Loading the JSON configuration and the EC and account CSV files, `open`, `Path.mkdir`, the
  output directory and `main` with its arguments and prints: file and console I/O. A
  configuration is a datatype value, and `NewConfig` models the checks `__init__` makes on the
  loaded lists.
- `random.choice`, `random.sample`, `random.randint` and `random.uniform`: each draw is a
  parameter (a `Draw` datatype) whose `ValidDraw` states the bounds the code draws within.
  `random.sample` is a list of distinct indices into the configured list.
- `random.randint(1, prioridade_maxima)` with a configured maximum below 1 raises in Python. The
  model has no valid draw for that configuration, so that error path is not modelled.
- `random.choice` on an empty `arranjos_pagamento` raises in AP002, AP003, AP005, AP008 and
  AP010, and so does `random.randint(1, 0)` for the arrangement count in AP004. `NewConfig`
  accepts such a configuration, but `ValidDraw` has no solution for it, so these error paths
  are not modelled.
- `random.randint(30, dias_fim)` in AP004 raises when `dias_futuros_fim` is below 30. The end
  date is a drawn date in the `Draw`, with the date arithmetic left out as described below, so
  `dias_futuros_fim` is not part of the configuration and this error path is not modelled.
- `datetime.now()` and `timedelta` arithmetic: the current date and time are parameters, and each
  date computed from them is one drawn date in the `Draw`. Years are assumed to lie in
  1000..9999, where `%Y` gives four digits.
- Binary floating point: amounts are exact integer cents and `round` is round-half-even on the
  exact value. Float representation error and the printing of floats by `f"{v:.2f}"` are not
  modelled.
- The random choice of the default payment account in `format_campo12_lista` and
  `format_campo15_lista`: that account is a parameter.
- The Python `csv` module beyond its QUOTE_MINIMAL rule with `;`. A row that is a single empty
  field, which `csv` quotes specially, never occurs, since every row has at least four tokens.
- `self.sequence` is the constant 1 and is never updated. The file name takes the sequence as a
  parameter, and each layout passes 1.
- `ListEncoder.DecodeEncode`: the read-back of the nested lists requires sub-fields without `;`
  or `|`, because the code has no escaping. A sub-field holding either cannot be recovered, and
  the model states nothing about that case.
- `Ap001.Row`: states only the arity for an arbitrary record. Token contents are stated for the
  records the generator draws, by `Ap001.RandomLineReadsBack`.
- `Ap006.Row`: states only the arity for an arbitrary record. Token contents are stated for
  generated records by `Ap006.RandomLineReadsBack`.
- Identifier read-back lemmas (`RowReadsBack`, `IdentifierTokensReadBack` and similar): they
  state the value kept for all-digit identifiers only. For other strings the contract of
  `Formatters.ZFill` says what is written.
