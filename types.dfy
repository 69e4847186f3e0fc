/**
 * The records of the billing store. Calendar dates (`yyyy-MM-dd` strings in the
 * program) are day numbers; amounts and rates are only ever copied, so they
 * stay plain numbers.
 */
module BillingTypes {
  import opened Wrappers

  /** A calendar date as a count of days; a smaller number is an earlier day. */
  type Day = int

  datatype ClientDocument = ClientDocument(name: string, url: string)

  datatype ClientAddress = ClientAddress(
    cep: Option<string>,
    logradouro: Option<string>,
    numero: Option<string>,
    bairro: Option<string>,
    referencia: Option<string>,
    cidade: Option<string>,
    estado: Option<string>)

  datatype Client = Client(
    id: string,
    name: string,
    email: string,
    avatarUrl: string,
    phone: Option<string>,
    rate: Option<real>,
    documents: Option<seq<ClientDocument>>,
    address: Option<ClientAddress>)

  datatype ContractType = Single | Installment

  /**
   * Every status value the program stores. The contract type declares only
   * active, finished and cancelled, but the actions also write pending,
   * overdue and paid into contracts, and the screens show written-off.
   */
  datatype Status = Active | Finished | Cancelled | Pending | Paid | Overdue | WrittenOff

  /** The statuses an invoice may hold. */
  type InvoiceStatus = s: Status | s.Pending? || s.Paid? || s.Overdue? || s.WrittenOff?
    witness Pending

  /** A contract, with the `paymentDate` the actions attach although the declared type lacks it. */
  datatype Contract = Contract(
    id: string,
    clientId: string,
    clientName: string,
    clientEmail: string,
    amount: real,
    issueDate: Day,
    dueDate: Day,
    status: Status,
    interestRate: real,
    contractType: ContractType,
    installments: Option<int>,
    paymentDate: Option<Day>)

  datatype Invoice = Invoice(
    id: string,
    contractId: string,
    clientId: string,
    clientName: string,
    clientEmail: string,
    amount: real,
    issueDate: Day,
    dueDate: Day,
    status: InvoiceStatus,
    paymentDate: Option<Day>,
    installmentNumber: Option<int>,
    totalInstallments: Option<int>)

  /** The errors the actions throw. */
  datatype ActionError = ClientNotFound | ContractNotFound | DocumentNotFound

  /** A contract carries a payment date exactly when it is paid. */
  predicate ContractPaymentConsistent(c: Contract) {
    c.paymentDate.Some? <==> c.status == Paid
  }

  predicate InvoicePaymentConsistent(inv: Invoice) {
    inv.paymentDate.Some? <==> inv.status == Paid
  }

  predicate ContractsPaymentConsistent(cs: seq<Contract>) {
    forall c | c in cs :: ContractPaymentConsistent(c)
  }

  predicate InvoicesPaymentConsistent(invs: seq<Invoice>) {
    forall inv | inv in invs :: InvoicePaymentConsistent(inv)
  }

  /** No two contracts share an id; the program does not guarantee this. */
  predicate UniqueContractIds(cs: seq<Contract>) {
    forall i, j | 0 <= i < j < |cs| :: cs[i].id != cs[j].id
  }
}
