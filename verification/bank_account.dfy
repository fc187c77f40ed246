/**
 * A row of the bank-account file (`contas_bancarias.csv`) as `csv.DictReader` hands it to the
 * generators: any column may be missing, and each generator supplies its own default when it is.
 */
module BankAccounts {
  import opened Wrappers

  datatype Account = Account(
    numeroDocumentoTitular: Option<string>,
    tipoConta: Option<string>,
    compe: Option<string>,
    ispb: Option<string>,
    agencia: Option<string>,
    numeroConta: Option<string>,
    nomeTitular: Option<string>)
}
