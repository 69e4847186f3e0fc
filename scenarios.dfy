/**
 * Sequences of actions on the starting records, with their outcomes proved:
 * what the cascade leaves behind and how `length + 1` ids collide after a delete.
 */
module Scenarios {
  import opened Wrappers
  import opened Text
  import opened BillingTypes
  import opened BillingData
  import ContractActions
  import InvoiceActions

  /**
   * Deleting client 3 removes its contract CON003 and leaves the other two in
   * order, but invoice INV002, which bills CON003, stays.
   */
  method DeleteApexKeepsItsInvoice() returns (contracts: seq<Contract>, invoices: seq<Invoice>)
    ensures contracts == FixtureContracts()[..2]
    ensures forall c | c in contracts :: c.id != "CON003" && c.clientId != "3"
    ensures invoices == FixtureInvoices()
    ensures invoices[1].contractId == "CON003" && invoices[1].clientId == "3"
  {
    FixtureConsistent();
    var s := new Store(FixtureClients(), FixtureContracts(), FixtureInvoices());
    var r := ContractActions.DeleteClient(s, "3");
    assert ContractActions.FindClient(FixtureClients(), "3") == Some(2);
    assert ContractActions.NotOwnedBy(FixtureContracts(), "3") == FixtureContracts()[..2];
    contracts, invoices := s.contracts, s.invoices;
  }

  /** After deleting client 2, the next client added gets id "5", which client 5 already has. */
  method ClientIdCollision(rec: InvoiceActions.ClientRecord) returns (clients: seq<Client>)
    ensures |clients| == 5
    ensures clients[3].name == "Stellar Group" && clients[3].id == "5"
    ensures clients[4].id == "5"
  {
    var fixture := FixtureClients();
    assert fixture[0].id == "1" && fixture[1].id == "2";
    assert ContractActions.FindClient(fixture, "2") == Some(1);
    assert DecimalString(5) == "5";
    var s := new Store(fixture, FixtureContracts(), FixtureInvoices());
    var r := ContractActions.DeleteClient(s, "2");
    assert |s.clients| == 4 && s.clients[3] == fixture[4];
    var added := InvoiceActions.AddClient(s, rec);
    clients := s.clients;
  }

  /**
   * Deleting CON001 and then adding a contract for client 1 numbers the new
   * contract CON003, which Apex's contract already has. Deleting client 3 then
   * removes client 1's new contract (the first CON003) and keeps Apex's.
   */
  method ContractIdCollision(input: ContractActions.ContractInput, today: Day) returns (contracts: seq<Contract>)
    requires input.clientId == "1"
    ensures |contracts| == 2
    ensures contracts[0].id == "CON002"
    ensures contracts[1].id == "CON003" && contracts[1].clientId == "3"
    ensures forall c | c in contracts :: c.clientId != "1"
  {
    var s := new Store(FixtureClients(), FixtureContracts(), FixtureInvoices());
    var deleted := ContractActions.DeleteContract(s, "CON001");
    assert ContractActions.FindContract(FixtureContracts(), "CON001") == Some(0);
    assert s.contracts == FixtureContracts()[1..];
    var added := ContractActions.AddContract(s, input, today);
    assert ContractActions.FindClient(FixtureClients(), "1") == Some(0);
    assert ContractActions.ContractCode(3) == "CON003";
    var newContract := added.value;
    assert newContract.id == "CON003" && newContract.clientId == "1";
    assert s.contracts == [newContract] + FixtureContracts()[1..];
    var r := ContractActions.DeleteClient(s, "3");
    assert ContractActions.FindClient(FixtureClients(), "3") == Some(2);
    var before := [newContract] + FixtureContracts()[1..];
    assert ContractActions.OwnedBy(before, "3") == [FixtureContracts()[2]];
    assert ContractActions.FindContract(before, "CON003") == Some(0);
    assert ContractActions.CascadeContracts(before, "3") == FixtureContracts()[1..];
    contracts := s.contracts;
  }
}
