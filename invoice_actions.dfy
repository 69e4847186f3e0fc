/**
 * The server actions over invoices: listing, adding a client (with a seeded
 * picture as avatar), adding an invoice, and the part of the revenue report
 * that decides whether to ask the report generator and what to send it.
 */
module InvoiceActions {
  import opened Wrappers
  import opened Text
  import opened BillingTypes
  import opened BillingData
  import ContractActions

  /** `getInvoices`: the stored invoices, unchanged. */
  method GetInvoices(s: Store) returns (r: seq<Invoice>)
    ensures r == s.invoices
  {
    r := s.invoices;
  }

  /** `getClients`: the stored clients, unchanged. */
  method GetClients(s: Store) returns (r: seq<Client>)
    ensures r == s.clients
  {
    r := s.clients;
  }

  // ---------------------------------------------------------------------------
  // addClient

  /** Every client field except the id and the avatar, as the caller supplies them. */
  datatype ClientRecord = ClientRecord(
    name: string,
    email: string,
    phone: Option<string>,
    rate: Option<real>,
    documents: Option<seq<ClientDocument>>,
    address: Option<ClientAddress>)

  const SeededAvatarBase := "https://picsum.photos/seed/"

  /** The avatar of a client added here: a picture seeded by the client's id. */
  function SeededAvatar(id: string): (url: string)
    ensures |url| == |SeededAvatarBase| + |id| + 6
    ensures url[..|SeededAvatarBase|] == SeededAvatarBase
    ensures url[|SeededAvatarBase|..|SeededAvatarBase| + |id|] == id
    ensures url[|SeededAvatarBase| + |id|..] == "/40/40"
  {
    SeededAvatarBase + id + "/40/40"
  }

  /** The client `addClient` builds: the record as given, the next id, and the seeded avatar. */
  function RecordedClient(rec: ClientRecord, clients: seq<Client>): (c: Client)
    ensures c.id == ContractActions.NextClientId(clients)
    ensures c.avatarUrl == SeededAvatar(c.id)
    ensures c.name == rec.name && c.email == rec.email && c.phone == rec.phone && c.rate == rec.rate
    ensures c.documents == rec.documents && c.address == rec.address
  {
    var id := ContractActions.NextClientId(clients);
    Client(id, rec.name, rec.email, SeededAvatar(id), rec.phone, rec.rate, rec.documents, rec.address)
  }

  /** `addClient` (invoices side): appends the new client and returns it; other clients are untouched. */
  method AddClient(s: Store, rec: ClientRecord) returns (c: Client)
    modifies s
    ensures c == RecordedClient(rec, old(s.clients))
    ensures s.clients == old(s.clients) + [c]
    ensures s.contracts == old(s.contracts) && s.invoices == old(s.invoices)
  {
    c := RecordedClient(rec, s.clients);
    s.clients := s.clients + [c];
  }

  // ---------------------------------------------------------------------------
  // addInvoice

  /** The fields of an invoice the caller supplies. */
  datatype InvoiceInput = InvoiceInput(
    contractId: string,
    clientId: string,
    amount: real,
    dueDate: Day,
    installmentNumber: Option<int>,
    totalInstallments: Option<int>)

  /** `INV` followed by the count, zero-padded to three digits. */
  function InvoiceCode(n: nat): (id: string)
    ensures |id| >= 6 && id[..3] == "INV"
  {
    SequenceCode("INV", n)
  }

  /** An invoice still marked pending although its due day has passed. */
  predicate IsStaleInvoice(inv: Invoice, today: Day) {
    inv.status == Pending && inv.dueDate < today
  }

  /**
   * The invoice `addInvoice` builds: numbered after the array's length,
   * issued today, unpaid, stamped with the client's name and email, and
   * always pending, so that it starts stale exactly when already past due.
   */
  function NewInvoice(input: InvoiceInput, client: Client, count: nat, today: Day): (inv: Invoice)
    ensures inv.id == InvoiceCode(count + 1)
    ensures inv.contractId == input.contractId && inv.clientId == input.clientId
    ensures inv.amount == input.amount && inv.dueDate == input.dueDate
    ensures inv.installmentNumber == input.installmentNumber && inv.totalInstallments == input.totalInstallments
    ensures inv.clientName == client.name && inv.clientEmail == client.email
    ensures inv.issueDate == today && inv.status == Pending && inv.paymentDate == None
    ensures InvoicePaymentConsistent(inv)
    ensures IsStaleInvoice(inv, today) <==> input.dueDate < today
  {
    Invoice(InvoiceCode(count + 1), input.contractId, input.clientId, client.name, client.email, input.amount,
            today, input.dueDate, Pending, None, input.installmentNumber, input.totalInstallments)
  }

  /**
   * `addInvoice`: with a known client, puts the new invoice in front of the
   * others; with an unknown client, throws and changes nothing.
   */
  method AddInvoice(s: Store, input: InvoiceInput, today: Day) returns (r: Result<Invoice, ActionError>)
    modifies s
    ensures s.clients == old(s.clients) && s.contracts == old(s.contracts)
    ensures ContractActions.FindClient(old(s.clients), input.clientId).None? ==>
      r == Err(ClientNotFound) && s.invoices == old(s.invoices)
    ensures ContractActions.FindClient(old(s.clients), input.clientId).Some? ==>
      var client := old(s.clients)[ContractActions.FindClient(old(s.clients), input.clientId).value];
      && r == Ok(NewInvoice(input, client, |old(s.invoices)|, today))
      && s.invoices == [r.value] + old(s.invoices)
    ensures old(InvoicesPaymentConsistent(s.invoices)) ==> InvoicesPaymentConsistent(s.invoices)
  {
    var found := ContractActions.FindClient(s.clients, input.clientId);
    if found.None? {
      return Err(ClientNotFound);
    }
    var inv := NewInvoice(input, s.clients[found.value], |s.invoices|, today);
    s.invoices := [inv] + s.invoices;
    r := Ok(inv);
  }

  // ---------------------------------------------------------------------------
  // runRevenueReport: the guard and the mapping

  /** One invoice as the report generator receives it. */
  datatype ReportEntry = ReportEntry(
    invoiceId: string,
    clientId: string,
    amount: real,
    dueDate: Day,
    paymentDate: Option<Day>)

  /** What the report action does: answer at once that there is no data, or send these entries to the generator. */
  datatype ReportRequest = NoData(report: string) | Generate(entries: seq<ReportEntry>)

  const NoDataReport := "Nenhum dado de fatura disponível para gerar um relatório."

  function ReportEntryOf(inv: Invoice): ReportEntry {
    ReportEntry(inv.id, inv.clientId, inv.amount, inv.dueDate, inv.paymentDate)
  }

  /** `invoices.map(...)`: one entry per invoice, in the same order. */
  function ReportEntries(invs: seq<Invoice>): (entries: seq<ReportEntry>)
    ensures |entries| == |invs|
    ensures forall i | 0 <= i < |invs| ::
      && entries[i].invoiceId == invs[i].id
      && entries[i].clientId == invs[i].clientId
      && entries[i].amount == invs[i].amount
      && entries[i].dueDate == invs[i].dueDate
      && (entries[i].paymentDate.None? <==> invs[i].paymentDate.None?)
  {
    if invs == [] then [] else [ReportEntryOf(invs[0])] + ReportEntries(invs[1..])
  }

  /**
   * `runRevenueReport` up to the generator call: with no invoices it returns
   * the fixed no-data report and never asks the generator; otherwise it sends
   * one entry per invoice.
   */
  method RunRevenueReport(s: Store) returns (r: ReportRequest)
    ensures r.NoData? <==> s.invoices == []
    ensures r.NoData? ==> r.report == NoDataReport
    ensures r.Generate? ==> r.entries == ReportEntries(s.invoices)
  {
    var invoices := GetInvoices(s);
    if |invoices| == 0 {
      return NoData(NoDataReport);
    }
    r := Generate(ReportEntries(invoices));
  }
}
