/** The in-memory store: three module-level arrays, and the records they start with. */
module BillingData {
  import opened Wrappers
  import opened BillingTypes

  /** The `clients`, `contracts` and `invoices` arrays, which both action files edit in place. */
  class Store {
    var clients: seq<Client>
    var contracts: seq<Contract>
    var invoices: seq<Invoice>

    constructor (clients: seq<Client>, contracts: seq<Contract>, invoices: seq<Invoice>)
      ensures this.clients == clients && this.contracts == contracts && this.invoices == invoices
    {
      this.clients := clients;
      this.contracts := contracts;
      this.invoices := invoices;
    }
  }

  // Day numbers count from 1970-01-01.
  const May1st2024: Day := 19844
  const May5th2024: Day := 19848
  const May10th2024: Day := 19853
  const May28th2024: Day := 19871
  const June1st2024: Day := 19875
  const June5th2024: Day := 19879
  const April10th2024: Day := 19823

  function FixtureAddress(logradouro: string, cidade: string, estado: string, cep: string): ClientAddress {
    ClientAddress(Some(cep), Some(logradouro), None, None, None, Some(cidade), Some(estado))
  }

  function FixtureClient(id: string, name: string, email: string, avatarUrl: string, phone: string,
                         rate: real, address: ClientAddress): Client {
    Client(id, name, email, avatarUrl, Some(phone), Some(rate), None, Some(address))
  }

  /** The five clients the store starts with. */
  function FixtureClients(): seq<Client> {
    [ FixtureClient("1", "Innovate Inc.", "contact@innovate.com", "https://placehold.co/40x40/E2E8F0/475569?text=II",
        "123-456-7890", 1.5, FixtureAddress("123 Innovation Dr", "Techville", "CA", "12345")),
      FixtureClient("2", "Solutions Co.", "hello@solutions.co", "https://placehold.co/40x40/E2E8F0/475569?text=SC",
        "234-567-8901", 2.0, FixtureAddress("456 Solutions Ave", "Business City", "NY", "67890")),
      FixtureClient("3", "Apex Enterprises", "support@apex.com", "https://placehold.co/40x40/E2E8F0/475569?text=AE",
        "345-678-9012", 1.2, FixtureAddress("789 Apex St", "Summit Peak", "CO", "24680")),
      FixtureClient("4", "Quantum Dynamics", "info@quantum.dev", "https://placehold.co/40x40/E2E8F0/475569?text=QD",
        "456-789-0123", 2.5, FixtureAddress("101 Quantum Blvd", "Particle Park", "TX", "13579")),
      FixtureClient("5", "Stellar Group", "admin@stellar.org", "https://placehold.co/40x40/E2E8F0/475569_text=SG",
        "567-890-1234", 1.8, FixtureAddress("222 Stellar Rd", "Galaxy Heights", "FL", "97531")) ]
  }

  /** The three contracts the store starts with, all `active` and without a payment date. */
  function FixtureContracts(): seq<Contract> {
    [ Contract("CON001", "1", "Innovate Inc.", "contact@innovate.com", 2500.0, May1st2024, June1st2024,
        Active, 1.5, Single, None, None),
      Contract("CON002", "2", "Solutions Co.", "hello@solutions.co", 1500.0, May5th2024, June5th2024,
        Active, 2.0, Installment, Some(3), None),
      Contract("CON003", "3", "Apex Enterprises", "support@apex.com", 3500.0, April10th2024, May10th2024,
        Active, 1.2, Single, None, None) ]
  }

  /** The two invoices the store starts with: one paid for CON001, one overdue for CON003. */
  function FixtureInvoices(): seq<Invoice> {
    [ Invoice("INV001", "CON001", "1", "Innovate Inc.", "contact@innovate.com", 2500.0, May1st2024, June1st2024,
        Paid, Some(May28th2024), None, None),
      Invoice("INV002", "CON003", "3", "Apex Enterprises", "support@apex.com", 3500.0, April10th2024, May10th2024,
        Overdue, None, None, None) ]
  }

  /** The starting records are consistent: ids unique, payment dates exactly on paid records. */
  lemma FixtureConsistent()
    ensures UniqueContractIds(FixtureContracts())
    ensures ContractsPaymentConsistent(FixtureContracts())
    ensures InvoicesPaymentConsistent(FixtureInvoices())
  {
  }
}
