/**
 * The server actions over clients and contracts: listing contracts with the
 * overdue re-check, adding, updating and deleting clients and their
 * documents, and adding, re-statusing and deleting contracts. Each action
 * looks its record up by id and throws before touching the store when the id
 * is unknown.
 */
module ContractActions {
  import opened Wrappers
  import opened Sequences
  import opened Text
  import opened BillingTypes
  import opened BillingData

  // ---------------------------------------------------------------------------
  // Lookups by id (`findIndex` / `find`)

  function FindClient(cs: seq<Client>, id: string): (r: Option<nat>)
    ensures r.Some? ==> r.value < |cs| && cs[r.value].id == id
    ensures r.Some? ==> forall j | 0 <= j < r.value :: cs[j].id != id
    ensures r.None? ==> forall j | 0 <= j < |cs| :: cs[j].id != id
  {
    IndexWhere(cs, (c: Client) => c.id == id)
  }

  function FindContract(cs: seq<Contract>, id: string): (r: Option<nat>)
    ensures r.Some? ==> r.value < |cs| && cs[r.value].id == id
    ensures r.Some? ==> forall j | 0 <= j < r.value :: cs[j].id != id
    ensures r.None? ==> forall j | 0 <= j < |cs| :: cs[j].id != id
  {
    IndexWhere(cs, (c: Contract) => c.id == id)
  }

  function FindDocument(docs: seq<ClientDocument>, url: string): (r: Option<nat>)
    ensures r.Some? ==> r.value < |docs| && docs[r.value].url == url
    ensures r.Some? ==> forall j | 0 <= j < r.value :: docs[j].url != url
    ensures r.None? ==> forall j | 0 <= j < |docs| :: docs[j].url != url
  {
    IndexWhere(docs, (d: ClientDocument) => d.url == url)
  }

  // ---------------------------------------------------------------------------
  // getInitials and the placeholder avatar

  /** The first character of a word, or nothing for an empty word (`undefined` joins as ""). */
  function FirstLetter(word: string): string {
    if word == [] then "" else [word[0]]
  }

  /** `words.map(n => n[0]).join('')`. */
  function FirstLetters(words: seq<string>): (r: string)
    ensures |r| <= |words|
    ensures (forall i | 0 <= i < |words| :: ' ' !in words[i]) ==> ' ' !in r
    ensures (forall i | 0 <= i < |words| :: words[i] != []) ==>
      |r| == |words| && forall i | 0 <= i < |words| :: r[i] == words[i][0]
  {
    if words == [] then "" else FirstLetter(words[0]) + FirstLetters(words[1..])
  }

  /**
   * `getInitials`: the upper-cased first letters of the first two
   * space-separated words; at most two characters, never a space.
   */
  function GetInitials(name: string): (r: string)
    ensures |r| <= 2
    ensures ' ' !in r
  {
    var words := Split(name, ' ');
    var firstTwo := if |words| < 2 then words else words[..2];
    UpperString(FirstLetters(firstTwo))
  }

  /** A name of two or more words gives the capitals of its first two words. */
  lemma InitialsOfTwoWords(first: string, second: string, tail: string)
    requires first != [] && second != [] && ' ' !in first && ' ' !in second
    requires tail == [] || tail[0] == ' '
    ensures GetInitials(first + " " + second + tail) == [Upper(first[0]), Upper(second[0])]
  {
    SplitAtSeparator(first, second + tail, ' ');
    assert first + " " + second + tail == first + [' '] + (second + tail);
    SplitFreePrefix(second, tail, ' ');
    assert Split(tail, ' ')[0] == [] by {
      if tail != [] { assert tail == [' '] + tail[1..]; }
    }
    var words := Split(first + " " + second + tail, ' ');
    var afterFirst := Split(second + tail, ' ');
    assert words == [first] + afterFirst;
    assert afterFirst[0] == second + [] == second;
    assert words[..2] == [first, second];
    assert FirstLetters([first, second]) == [first[0], second[0]];
  }

  /** A one-word name gives one capital. */
  lemma InitialsOfOneWord(word: string)
    requires word != [] && ' ' !in word
    ensures GetInitials(word) == [Upper(word[0])]
  {
    SplitFreePrefix(word, "", ' ');
    assert word + "" == word;
    assert Split(word, ' ') == [word];
    assert FirstLetters([word]) == [word[0]];
  }

  /** Two spaces between words make an empty second word, so only one capital survives. */
  lemma InitialsDoubleSpace(first: string, rest: string)
    requires first != [] && ' ' !in first
    ensures GetInitials(first + "  " + rest) == [Upper(first[0])]
  {
    SplitAtSeparator(first, " " + rest, ' ');
    assert first + "  " + rest == first + [' '] + (" " + rest);
    SplitAtSeparator("", rest, ' ');
    assert [' '] + rest == "" + [' '] + rest;
    var words := Split(first + "  " + rest, ' ');
    assert words[..2] == [first, ""];
    assert FirstLetters([first, ""]) == [first[0]];
  }

  const PlaceholderAvatarBase := "https://placehold.co/40x40/E2E8F0/475569?text="

  /** The generated avatar: a placeholder image labelled with the name's initials. */
  function PlaceholderAvatar(name: string): (url: string)
    ensures |PlaceholderAvatarBase| <= |url| <= |PlaceholderAvatarBase| + 2
    ensures url[..|PlaceholderAvatarBase|] == PlaceholderAvatarBase
  {
    PlaceholderAvatarBase + GetInitials(name)
  }

  // ---------------------------------------------------------------------------
  // getContracts: the overdue re-check on every read

  /** A contract still marked pending although its due day has passed. */
  predicate IsStale(c: Contract, today: Day) {
    c.status == Pending && c.dueDate < today
  }

  /** The re-check of one contract: a stale pending contract becomes overdue. */
  function RecheckOverdue(c: Contract, today: Day): (r: Contract)
    ensures r.status == Overdue <==> c.status == Overdue || IsStale(c, today)
    ensures r.status != c.status ==> IsStale(c, today)
    ensures r == c.(status := r.status)
    ensures !IsStale(r, today)
  {
    if IsStale(c, today) then c.(status := Overdue) else c
  }

  /** The re-check applied to every contract, in place and in order. */
  function RecheckAll(cs: seq<Contract>, today: Day): (r: seq<Contract>)
    ensures |r| == |cs|
    ensures forall i | 0 <= i < |cs| :: r[i] == RecheckOverdue(cs[i], today)
  {
    if cs == [] then [] else [RecheckOverdue(cs[0], today)] + RecheckAll(cs[1..], today)
  }

  /**
   * After the re-check no contract is stale, exactly the stale ones were
   * marked overdue, and every other field and every other contract is as before.
   */
  lemma RecheckAllMarksExactlyStale(cs: seq<Contract>, today: Day)
    ensures var r := RecheckAll(cs, today);
      && (forall i | 0 <= i < |cs| :: !IsStale(r[i], today))
      && (forall i | 0 <= i < |cs| :: r[i] != cs[i] <==> IsStale(cs[i], today))
      && (forall i | 0 <= i < |cs| :: r[i] == cs[i].(status := r[i].status))
  {
  }

  /** Re-checking twice is re-checking once. */
  lemma RecheckAllIdempotent(cs: seq<Contract>, today: Day)
    ensures RecheckAll(RecheckAll(cs, today), today) == RecheckAll(cs, today)
  {
  }

  /** The re-check never breaks "payment date exactly on paid contracts". */
  lemma RecheckAllKeepsPayments(cs: seq<Contract>, today: Day)
    requires ContractsPaymentConsistent(cs)
    ensures ContractsPaymentConsistent(RecheckAll(cs, today))
  {
    var r := RecheckAll(cs, today);
    forall c | c in r ensures ContractPaymentConsistent(c) {
      var i :| 0 <= i < |r| && r[i] == c;
      assert cs[i] in cs;
    }
  }

  /** `getContracts`: re-checks every contract in place, then returns the array. */
  method GetContracts(s: Store, today: Day) returns (r: seq<Contract>)
    modifies s
    ensures s.contracts == RecheckAll(old(s.contracts), today) && r == s.contracts
    ensures s.clients == old(s.clients) && s.invoices == old(s.invoices)
    ensures old(ContractsPaymentConsistent(s.contracts)) ==> ContractsPaymentConsistent(s.contracts)
  {
    var i := 0;
    while i < |s.contracts|
      invariant 0 <= i <= |s.contracts| == |old(s.contracts)|
      invariant forall j | 0 <= j < i :: s.contracts[j] == RecheckOverdue(old(s.contracts)[j], today)
      invariant s.contracts[i..] == old(s.contracts)[i..]
      invariant s.clients == old(s.clients) && s.invoices == old(s.invoices)
    {
      var c := s.contracts[i];
      assert c == old(s.contracts)[i];
      if c.status == Pending && c.dueDate < today {
        s.contracts := s.contracts[i := c.(status := Overdue)];
      }
      i := i + 1;
    }
    r := s.contracts;
    if ContractsPaymentConsistent(old(s.contracts)) {
      RecheckAllKeepsPayments(old(s.contracts), today);
    }
  }

  // ---------------------------------------------------------------------------
  // addClient, updateClient, deleteClientDocument

  /** The form behind `addClient`: the client's fields and the names of the files to attach. */
  datatype ClientForm = ClientForm(
    name: string,
    email: string,
    phone: Option<string>,
    rate: Option<real>,
    address: Option<ClientAddress>,
    documents: Option<seq<string>>)

  /** The simulated storage location of an uploaded file. */
  function DocumentUrl(clientId: string, fileName: string): string {
    "/documents/" + clientId + "/" + fileName
  }

  /** A stored URL splits back into the client id and the file name it was made from. */
  lemma DocumentUrlParts(clientId: string, fileName: string)
    requires '/' !in clientId && '/' !in fileName
    ensures Split(DocumentUrl(clientId, fileName), '/') == ["", "documents", clientId, fileName]
  {
    var url := DocumentUrl(clientId, fileName);
    assert url == "" + ['/'] + ("documents" + ['/'] + (clientId + ['/'] + fileName));
    SplitAtSeparator("", "documents" + ['/'] + (clientId + ['/'] + fileName), '/');
    SplitAtSeparator("documents", clientId + ['/'] + fileName, '/');
    SplitAtSeparator(clientId, fileName, '/');
    SplitFreePrefix(fileName, "", '/');
    assert fileName + "" == fileName;
  }

  /** The simulated upload: each file becomes a `{name, url}` pair, in order. */
  function UploadDocuments(clientId: string, fileNames: seq<string>): (docs: seq<ClientDocument>)
    ensures |docs| == |fileNames|
    ensures forall i | 0 <= i < |docs| ::
      docs[i].name == fileNames[i] && docs[i].url == DocumentUrl(clientId, fileNames[i])
  {
    if fileNames == [] then []
    else [ClientDocument(fileNames[0], DocumentUrl(clientId, fileNames[0]))]
         + UploadDocuments(clientId, fileNames[1..])
  }

  /** The id given to the next client: the array's length plus one, in decimal. */
  function NextClientId(clients: seq<Client>): (id: string)
    ensures IsDigits(id) && DecimalValue(id) == |clients| + 1
  {
    DecimalRoundTrip(|clients| + 1);
    DecimalString(|clients| + 1)
  }

  /** The client `addClient` builds from a form when the store holds `clients`. */
  function NewClient(form: ClientForm, clients: seq<Client>): (c: Client)
    ensures c.id == NextClientId(clients)
    ensures c.name == form.name && c.email == form.email && c.phone == form.phone
    ensures c.rate == form.rate && c.address == form.address
    ensures c.documents.Some? && |c.documents.value| == |form.documents.GetOr([])|
    ensures forall i | 0 <= i < |c.documents.value| ::
      c.documents.value[i].url == DocumentUrl(c.id, form.documents.GetOr([])[i])
    ensures c.avatarUrl == PlaceholderAvatarBase + GetInitials(form.name)
  {
    var id := NextClientId(clients);
    Client(id, form.name, form.email, PlaceholderAvatar(form.name), form.phone, form.rate,
           Some(UploadDocuments(id, form.documents.GetOr([]))), form.address)
  }

  /** `addClient` (contracts side): appends the new client and returns it. */
  method AddClient(s: Store, form: ClientForm) returns (c: Client)
    modifies s
    ensures c == NewClient(form, old(s.clients))
    ensures s.clients == old(s.clients) + [c]
    ensures s.contracts == old(s.contracts) && s.invoices == old(s.invoices)
  {
    c := NewClient(form, s.clients);
    s.clients := s.clients + [c];
  }

  /**
   * The form behind `updateClient`. `photo` is the data URI the uploaded
   * picture was converted to, when one was uploaded.
   */
  datatype ClientUpdate = ClientUpdate(
    name: string,
    email: string,
    phone: Option<string>,
    address: Option<ClientAddress>,
    rate: Option<real>,
    newDocuments: Option<seq<string>>,
    photo: Option<string>,
    removePhoto: bool)

  /** The avatar after an update: reset to initials, replaced by the photo, or kept. */
  function UpdatedAvatar(current: string, u: ClientUpdate): (url: string)
    ensures u.removePhoto ==> url == PlaceholderAvatar(u.name)
    ensures !u.removePhoto && u.photo.Some? ==> url == u.photo.value
    ensures !u.removePhoto && u.photo.None? ==> url == current
  {
    if u.removePhoto then PlaceholderAvatar(u.name)
    else if u.photo.Some? then u.photo.value
    else current
  }

  /**
   * The client `updateClient` writes back: same id, the form's fields, the
   * old documents followed by the new uploads, and an avatar that changes
   * only when the photo is removed or replaced.
   */
  function UpdatedClient(existing: Client, u: ClientUpdate): (c: Client)
    ensures c.id == existing.id
    ensures c.name == u.name && c.email == u.email && c.phone == u.phone
    ensures c.address == u.address && c.rate == u.rate
    ensures c.documents.Some?
    ensures c.documents.value == existing.documents.GetOr([]) + UploadDocuments(existing.id, u.newDocuments.GetOr([]))
    ensures c.avatarUrl == UpdatedAvatar(existing.avatarUrl, u)
    ensures c.avatarUrl != existing.avatarUrl ==> u.removePhoto || u.photo.Some?
  {
    existing.(name := u.name, email := u.email, phone := u.phone, address := u.address, rate := u.rate,
              documents := Some(existing.documents.GetOr([]) + UploadDocuments(existing.id, u.newDocuments.GetOr([]))),
              avatarUrl := UpdatedAvatar(existing.avatarUrl, u))
  }

  /** Updating never loses a document: the old list is a prefix of the new one. */
  lemma UpdateKeepsDocuments(existing: Client, u: ClientUpdate)
    ensures var docs := UpdatedClient(existing, u).documents.value;
      var before := existing.documents.GetOr([]);
      |docs| == |before| + |u.newDocuments.GetOr([])| && docs[..|before|] == before
  {
  }

  /** `updateClient`: replaces the first client with that id, or throws if there is none. */
  method UpdateClient(s: Store, id: string, u: ClientUpdate) returns (r: Result<Client, ActionError>)
    modifies s
    ensures s.contracts == old(s.contracts) && s.invoices == old(s.invoices)
    ensures FindClient(old(s.clients), id).None? ==> r == Err(ClientNotFound) && s.clients == old(s.clients)
    ensures FindClient(old(s.clients), id).Some? ==>
      var k := FindClient(old(s.clients), id).value;
      && r == Ok(UpdatedClient(old(s.clients)[k], u))
      && s.clients == old(s.clients)[k := r.value]
  {
    var found := FindClient(s.clients, id);
    if found.None? {
      return Err(ClientNotFound);
    }
    var k := found.value;
    var updated := UpdatedClient(s.clients[k], u);
    s.clients := s.clients[k := updated];
    r := Ok(updated);
  }

  /**
   * `deleteClientDocument`: removes the first document with that URL from the
   * first client with that id; throws when the client is missing, has no
   * document list, or has no document with that URL.
   */
  method DeleteClientDocument(s: Store, clientId: string, url: string) returns (r: Outcome<ActionError>)
    modifies s
    ensures s.contracts == old(s.contracts) && s.invoices == old(s.invoices)
    ensures FindClient(old(s.clients), clientId).None? ==> r == Fail(ClientNotFound) && s.clients == old(s.clients)
    ensures FindClient(old(s.clients), clientId).Some? ==>
      var k := FindClient(old(s.clients), clientId).value;
      var c := old(s.clients)[k];
      if c.documents.None? || FindDocument(c.documents.value, url).None? then
        r == Fail(DocumentNotFound) && s.clients == old(s.clients)
      else
        var d := FindDocument(c.documents.value, url).value;
        && r == Pass
        && s.clients == old(s.clients)[k := c.(documents := Some(c.documents.value[..d] + c.documents.value[d + 1..]))]
  {
    var found := FindClient(s.clients, clientId);
    if found.None? {
      return Fail(ClientNotFound);
    }
    var k := found.value;
    var c := s.clients[k];
    if c.documents.None? {
      return Fail(DocumentNotFound);
    }
    var docs := c.documents.value;
    var d := FindDocument(docs, url);
    if d.None? {
      return Fail(DocumentNotFound);
    }
    s.clients := s.clients[k := c.(documents := Some(docs[..d.value] + docs[d.value + 1..]))];
    r := Pass;
  }

  // ---------------------------------------------------------------------------
  // addContract

  /** The fields of a contract the caller supplies. */
  datatype ContractInput = ContractInput(
    clientId: string,
    amount: real,
    dueDate: Day,
    interestRate: real,
    contractType: ContractType,
    installments: Option<int>)

  /** `CON` followed by the count, zero-padded to three digits. */
  function ContractCode(n: nat): (id: string)
    ensures |id| >= 6 && id[..3] == "CON"
  {
    SequenceCode("CON", n)
  }

  /**
   * The contract `addContract` builds: numbered after the array's length,
   * issued today, overdue if already past due and pending otherwise, unpaid,
   * and stamped with the client's name and email.
   */
  function NewContract(input: ContractInput, client: Client, count: nat, today: Day): (c: Contract)
    ensures c.id == ContractCode(count + 1)
    ensures c.clientId == input.clientId && c.amount == input.amount && c.dueDate == input.dueDate
    ensures c.interestRate == input.interestRate && c.contractType == input.contractType
    ensures c.installments == input.installments
    ensures c.clientName == client.name && c.clientEmail == client.email
    ensures c.issueDate == today && c.paymentDate == None
    ensures c.status == Overdue <==> input.dueDate < today
    ensures c.status == Pending <==> today <= input.dueDate
    ensures RecheckOverdue(c, today) == c && ContractPaymentConsistent(c)
  {
    Contract(ContractCode(count + 1), input.clientId, client.name, client.email, input.amount, today,
             input.dueDate, if input.dueDate < today then Overdue else Pending, input.interestRate,
             input.contractType, input.installments, None)
  }

  /**
   * `addContract`: with a known client, puts the new contract in front of the
   * others; with an unknown client, throws and changes nothing.
   */
  method AddContract(s: Store, input: ContractInput, today: Day) returns (r: Result<Contract, ActionError>)
    modifies s
    ensures s.clients == old(s.clients) && s.invoices == old(s.invoices)
    ensures FindClient(old(s.clients), input.clientId).None? ==>
      r == Err(ClientNotFound) && s.contracts == old(s.contracts)
    ensures FindClient(old(s.clients), input.clientId).Some? ==>
      var client := old(s.clients)[FindClient(old(s.clients), input.clientId).value];
      && r == Ok(NewContract(input, client, |old(s.contracts)|, today))
      && s.contracts == [r.value] + old(s.contracts)
    ensures old(ContractsPaymentConsistent(s.contracts)) ==> ContractsPaymentConsistent(s.contracts)
  {
    var found := FindClient(s.clients, input.clientId);
    if found.None? {
      return Err(ClientNotFound);
    }
    var c := NewContract(input, s.clients[found.value], |s.contracts|, today);
    s.contracts := [c] + s.contracts;
    r := Ok(c);
  }

  // ---------------------------------------------------------------------------
  // updateContractStatus

  /**
   * The contract after a status write: paid carries today's date and any other
   * status none; a pending request on a past-due contract becomes overdue,
   * and any other request is kept as given. Nothing else changes.
   */
  function WithStatus(c: Contract, status: Status, today: Day): (r: Contract)
    ensures r == c.(status := r.status, paymentDate := r.paymentDate)
    ensures r.paymentDate == (if status == Paid then Some(today) else None)
    ensures status == Pending && c.dueDate < today ==> r.status == Overdue
    ensures !(status == Pending && c.dueDate < today) ==> r.status == status
    ensures ContractPaymentConsistent(r)
    ensures !IsStale(r, today) && RecheckOverdue(r, today) == r
  {
    c.(status := if status == Pending && c.dueDate < today then Overdue else status,
       paymentDate := if status == Paid then Some(today) else None)
  }

  /**
   * `updateContractStatus`: writes the status into the first contract with
   * that id, sets or clears its payment date, and re-checks it; throws and
   * changes nothing when no contract has that id.
   */
  method UpdateContractStatus(s: Store, id: string, status: Status, today: Day) returns (r: Result<Contract, ActionError>)
    modifies s
    ensures s.clients == old(s.clients) && s.invoices == old(s.invoices)
    ensures FindContract(old(s.contracts), id).None? ==>
      r == Err(ContractNotFound) && s.contracts == old(s.contracts)
    ensures FindContract(old(s.contracts), id).Some? ==>
      var k := FindContract(old(s.contracts), id).value;
      && r == Ok(WithStatus(old(s.contracts)[k], status, today))
      && s.contracts == old(s.contracts)[k := r.value]
    ensures old(ContractsPaymentConsistent(s.contracts)) ==> ContractsPaymentConsistent(s.contracts)
  {
    var found := FindContract(s.contracts, id);
    if found.None? {
      return Err(ContractNotFound);
    }
    var k := found.value;
    s.contracts := s.contracts[k := s.contracts[k].(status := status)];
    if status == Paid {
      s.contracts := s.contracts[k := s.contracts[k].(paymentDate := Some(today))];
    } else {
      s.contracts := s.contracts[k := s.contracts[k].(paymentDate := None)];
    }
    if s.contracts[k].status == Pending && s.contracts[k].dueDate < today {
      s.contracts := s.contracts[k := s.contracts[k].(status := Overdue)];
    }
    r := Ok(s.contracts[k]);
    assert ContractsPaymentConsistent(old(s.contracts)) ==> ContractsPaymentConsistent(s.contracts) by {
      if ContractsPaymentConsistent(old(s.contracts)) {
        forall c | c in s.contracts ensures ContractPaymentConsistent(c) {
          var i :| 0 <= i < |s.contracts| && s.contracts[i] == c;
          if i != k { assert old(s.contracts)[i] in old(s.contracts); }
        }
      }
    }
  }

  // ---------------------------------------------------------------------------
  // deleteContract and deleteClient

  /** Removal of the first contract with that id, the `splice(findIndex(...), 1)` of the actions. */
  function RemoveContract(cs: seq<Contract>, id: string): (r: seq<Contract>)
    ensures FindContract(cs, id).None? ==> r == cs
    ensures FindContract(cs, id).Some? ==>
      var k := FindContract(cs, id).value;
      r == cs[..k] + cs[k + 1..]
  {
    RemoveFirstWhere(cs, (c: Contract) => c.id == id)
  }

  /** A contract whose id differs from the one removed stays in front. */
  lemma RemoveContractSkipsHead(c: Contract, rest: seq<Contract>, id: string)
    requires c.id != id
    ensures RemoveContract([c] + rest, id) == [c] + RemoveContract(rest, id)
  {
    assert ([c] + rest)[1..] == rest;
  }

  /** Removing the first contract with an id keeps every other contract, in order. */
  lemma RemoveContractKeepsOthers(cs: seq<Contract>, id: string)
    requires FindContract(cs, id).Some?
    ensures var r := RemoveContract(cs, id);
      |r| == |cs| - 1 && multiset(r) + multiset{cs[FindContract(cs, id).value]} == multiset(cs)
  {
    var k := FindContract(cs, id).value;
    assert cs == cs[..k] + [cs[k]] + cs[k + 1..];
  }

  /** `deleteContract`: removes the first contract with that id, or throws if there is none. */
  method DeleteContract(s: Store, id: string) returns (r: Outcome<ActionError>)
    modifies s
    ensures s.clients == old(s.clients) && s.invoices == old(s.invoices)
    ensures FindContract(old(s.contracts), id).None? ==>
      r == Fail(ContractNotFound) && s.contracts == old(s.contracts)
    ensures FindContract(old(s.contracts), id).Some? ==>
      r == Pass && s.contracts == RemoveContract(old(s.contracts), id)
    ensures old(ContractsPaymentConsistent(s.contracts)) ==> ContractsPaymentConsistent(s.contracts)
  {
    var found := FindContract(s.contracts, id);
    if found.None? {
      return Fail(ContractNotFound);
    }
    s.contracts := s.contracts[..found.value] + s.contracts[found.value + 1..];
    r := Pass;
    RemoveContractKeepsOnlyOld(old(s.contracts), id);
  }

  /** `contracts.filter(c => c.clientId === clientId)`: the contracts the client owns, in order. */
  function OwnedBy(cs: seq<Contract>, clientId: string): (r: seq<Contract>)
    ensures |r| <= |cs|
    ensures forall c | c in r :: c in cs && c.clientId == clientId
    ensures forall c | c in cs && c.clientId == clientId :: c in r
  {
    if cs == [] then []
    else if cs[0].clientId == clientId then [cs[0]] + OwnedBy(cs[1..], clientId)
    else OwnedBy(cs[1..], clientId)
  }

  /** The contracts of every other client, in order: what a complete cascade would keep. */
  function NotOwnedBy(cs: seq<Contract>, clientId: string): (r: seq<Contract>)
    ensures forall c | c in r :: c in cs && c.clientId != clientId
    ensures forall c | c in cs && c.clientId != clientId :: c in r
  {
    if cs == [] then []
    else if cs[0].clientId == clientId then NotOwnedBy(cs[1..], clientId)
    else [cs[0]] + NotOwnedBy(cs[1..], clientId)
  }

  /** Every contract lands on exactly one side of the owner test. */
  lemma {:induction false} OwnedPartition(cs: seq<Contract>, clientId: string)
    ensures multiset(OwnedBy(cs, clientId)) + multiset(NotOwnedBy(cs, clientId)) == multiset(cs)
    ensures |OwnedBy(cs, clientId)| + |NotOwnedBy(cs, clientId)| == |cs|
    decreases |cs|
  {
    if cs != [] {
      OwnedPartition(cs[1..], clientId);
      assert cs == [cs[0]] + cs[1..];
    }
  }

  /**
   * The `forEach` of the cascade: for each doomed contract, remove the first
   * contract with its id. Each step drops at most one contract.
   */
  function RemoveEach(cs: seq<Contract>, doomed: seq<Contract>): (r: seq<Contract>)
    ensures |cs| - |doomed| <= |r| <= |cs|
    decreases |doomed|
  {
    if doomed == [] then cs else RemoveEach(RemoveContract(cs, doomed[0].id), doomed[1..])
  }

  /**
   * The contracts left by `deleteClient`: the client's contracts are removed
   * one by one by id. Exactly as many go as the client owns, and a contract
   * whose id no contract of the client shares is kept.
   */
  function CascadeContracts(cs: seq<Contract>, clientId: string): (r: seq<Contract>)
    ensures |r| == |cs| - |OwnedBy(cs, clientId)|
    ensures forall c | c in cs && c.id !in ContractIds(OwnedBy(cs, clientId)) :: c in r
  {
    OwnedIdsAvailable(cs, clientId);
    RemoveEachCount(cs, OwnedBy(cs, clientId));
    RemoveEachKeepsUntouched(cs, OwnedBy(cs, clientId));
    RemoveEach(cs, OwnedBy(cs, clientId))
  }

  /** Removing contracts by ids other than that of the first contract leaves it in front. */
  lemma {:induction false} RemoveEachSkipsHead(c: Contract, rest: seq<Contract>, doomed: seq<Contract>)
    requires forall d | d in doomed :: d.id != c.id
    ensures RemoveEach([c] + rest, doomed) == [c] + RemoveEach(rest, doomed)
    decreases |doomed|
  {
    if doomed != [] {
      RemoveContractSkipsHead(c, rest, doomed[0].id);
      RemoveEachSkipsHead(c, RemoveContract(rest, doomed[0].id), doomed[1..]);
    }
  }

  /**
   * When contract ids are unique the cascade is complete and exact: the
   * contracts left are those of the other clients, in their original order.
   */
  lemma {:induction false} CascadeWithUniqueIds(cs: seq<Contract>, clientId: string)
    requires UniqueContractIds(cs)
    ensures CascadeContracts(cs, clientId) == NotOwnedBy(cs, clientId)
    decreases |cs|
  {
    if cs != [] {
      var c, rest := cs[0], cs[1..];
      assert cs == [c] + rest;
      assert UniqueContractIds(rest) by {
        forall i, j | 0 <= i < j < |rest| ensures rest[i].id != rest[j].id {
          assert rest[i] == cs[i + 1] && rest[j] == cs[j + 1];
        }
      }
      CascadeWithUniqueIds(rest, clientId);
      if c.clientId == clientId {
        assert RemoveContract(cs, c.id) == rest;
        assert OwnedBy(cs, clientId)[1..] == OwnedBy(rest, clientId);
      } else {
        forall d | d in OwnedBy(rest, clientId) ensures d.id != c.id {
          var j :| 0 <= j < |rest| && rest[j] == d;
          assert cs[j + 1] == d;
        }
        RemoveEachSkipsHead(c, rest, OwnedBy(rest, clientId));
      }
    }
  }

  /** A removal by id only drops a contract: whatever is left was there before. */
  lemma RemoveContractKeepsOnlyOld(cs: seq<Contract>, id: string)
    ensures forall c | c in RemoveContract(cs, id) :: c in cs
  {
    var found := FindContract(cs, id);
    if found.Some? {
      var k := found.value;
      assert cs == cs[..k] + [cs[k]] + cs[k + 1..];
    }
  }

  /** A removal by one id keeps every contract with another id. */
  lemma RemoveContractKeepsOtherIds(cs: seq<Contract>, id: string)
    ensures forall c | c in cs && c.id != id :: c in RemoveContract(cs, id)
  {
    var found := FindContract(cs, id);
    if found.Some? {
      var k := found.value;
      forall c | c in cs && c.id != id ensures c in RemoveContract(cs, id) {
        var i :| 0 <= i < |cs| && cs[i] == c;
        if i < k { assert (cs[..k] + cs[k + 1..])[i] == c; }
        else { assert (cs[..k] + cs[k + 1..])[i - 1] == c; }
      }
    }
  }

  /** Removals by id never touch a contract whose id is not among the doomed ones. */
  lemma {:induction false} RemoveEachKeepsUntouched(cs: seq<Contract>, doomed: seq<Contract>)
    ensures forall c | c in cs && c.id !in ContractIds(doomed) :: c in RemoveEach(cs, doomed)
    decreases |doomed|
  {
    if doomed != [] {
      var id := doomed[0].id;
      assert ContractIds(doomed) == [id] + ContractIds(doomed[1..]);
      RemoveContractKeepsOtherIds(cs, id);
      RemoveEachKeepsUntouched(RemoveContract(cs, id), doomed[1..]);
    }
  }

  /** A sequence of removals by id only drops contracts. */
  lemma {:induction false} RemoveEachKeepsOnlyOld(cs: seq<Contract>, doomed: seq<Contract>)
    ensures forall c | c in RemoveEach(cs, doomed) :: c in cs
    decreases |doomed|
  {
    if doomed != [] {
      RemoveContractKeepsOnlyOld(cs, doomed[0].id);
      RemoveEachKeepsOnlyOld(RemoveContract(cs, doomed[0].id), doomed[1..]);
    }
  }

  /** The ids of a list of contracts, in order. */
  function ContractIds(cs: seq<Contract>): (ids: seq<string>)
    ensures |ids| == |cs| && forall i | 0 <= i < |cs| :: ids[i] == cs[i].id
  {
    if cs == [] then [] else [cs[0].id] + ContractIds(cs[1..])
  }

  /** Removing the contract at `k` removes the id at `k`. */
  lemma ContractIdsSplice(cs: seq<Contract>, k: nat)
    requires k < |cs|
    ensures ContractIds(cs[..k] + cs[k + 1..]) == ContractIds(cs)[..k] + ContractIds(cs)[k + 1..]
  {
    var left, right := ContractIds(cs[..k] + cs[k + 1..]), ContractIds(cs)[..k] + ContractIds(cs)[k + 1..];
    assert |left| == |right|;
    forall i | 0 <= i < |left| ensures left[i] == right[i] {
      if i < k { assert (cs[..k] + cs[k + 1..])[i] == cs[i]; }
      else { assert (cs[..k] + cs[k + 1..])[i] == cs[i + 1]; }
    }
  }

  /** A contract with the id exists, so the lookup finds one at or before it. */
  lemma ContractFound(cs: seq<Contract>, id: string, i: nat)
    requires i < |cs| && cs[i].id == id
    ensures FindContract(cs, id).Some? && FindContract(cs, id).value <= i
  {
  }

  /** Removing by an id that is present drops exactly one contract, and one copy of that id. */
  lemma RemoveContractIds(cs: seq<Contract>, id: string)
    requires id in multiset(ContractIds(cs))
    ensures |RemoveContract(cs, id)| == |cs| - 1
    ensures multiset(ContractIds(RemoveContract(cs, id))) == multiset(ContractIds(cs)) - multiset{id}
  {
    var ids := ContractIds(cs);
    assert id in ids;
    var i :| 0 <= i < |ids| && ids[i] == id;
    ContractFound(cs, id, i);
    var k := FindContract(cs, id).value;
    ContractIdsSplice(cs, k);
    MultisetWithout(ids, k);
  }

  /**
   * As long as every doomed id is still available, each removal finds its
   * contract: exactly one contract goes per doomed entry.
   */
  lemma {:induction false} RemoveEachCount(cs: seq<Contract>, doomed: seq<Contract>)
    requires multiset(ContractIds(doomed)) <= multiset(ContractIds(cs))
    ensures |RemoveEach(cs, doomed)| == |cs| - |doomed|
    decreases |doomed|
  {
    if doomed != [] {
      var id := doomed[0].id;
      assert ContractIds(doomed) == [id] + ContractIds(doomed[1..]);
      RemoveContractIds(cs, id);
      RemoveEachCount(RemoveContract(cs, id), doomed[1..]);
    }
  }

  /** The client's contracts carry ids drawn from the whole list. */
  lemma {:induction false} OwnedIdsAvailable(cs: seq<Contract>, clientId: string)
    ensures multiset(ContractIds(OwnedBy(cs, clientId))) <= multiset(ContractIds(cs))
    decreases |cs|
  {
    if cs != [] {
      OwnedIdsAvailable(cs[1..], clientId);
      assert ContractIds(cs) == [cs[0].id] + ContractIds(cs[1..]);
      if cs[0].clientId == clientId {
        assert ContractIds(OwnedBy(cs, clientId)) == [cs[0].id] + ContractIds(OwnedBy(cs[1..], clientId));
      }
    }
  }

  /**
   * Whatever the ids, the cascade leaves as many contracts as the other
   * clients own, and only contracts that were there; with duplicate ids some
   * of those removed may belong to other clients.
   */
  lemma CascadeRemovesOwnedCount(cs: seq<Contract>, clientId: string)
    ensures |CascadeContracts(cs, clientId)| == |NotOwnedBy(cs, clientId)|
    ensures forall c | c in CascadeContracts(cs, clientId) :: c in cs
  {
    OwnedPartition(cs, clientId);
    RemoveEachKeepsOnlyOld(cs, OwnedBy(cs, clientId));
  }

  /**
   * `deleteClient`: removes the first client with that id, then, for each
   * contract of that client, the first contract with the same contract id;
   * invoices are left alone. Throws and changes nothing when no client has
   * that id.
   */
  method DeleteClient(s: Store, id: string) returns (r: Outcome<ActionError>)
    modifies s
    ensures s.invoices == old(s.invoices)
    ensures FindClient(old(s.clients), id).None? ==>
      r == Fail(ClientNotFound) && s.clients == old(s.clients) && s.contracts == old(s.contracts)
    ensures FindClient(old(s.clients), id).Some? ==>
      var k := FindClient(old(s.clients), id).value;
      && r == Pass
      && s.clients == old(s.clients)[..k] + old(s.clients)[k + 1..]
      && s.contracts == CascadeContracts(old(s.contracts), id)
    ensures FindClient(old(s.clients), id).Some? && UniqueContractIds(old(s.contracts)) ==>
      s.contracts == NotOwnedBy(old(s.contracts), id)
    ensures old(ContractsPaymentConsistent(s.contracts)) ==> ContractsPaymentConsistent(s.contracts)
  {
    var found := FindClient(s.clients, id);
    if found.None? {
      return Fail(ClientNotFound);
    }
    s.clients := s.clients[..found.value] + s.clients[found.value + 1..];
    var doomed := OwnedBy(s.contracts, id);
    var i := 0;
    while i < |doomed|
      invariant 0 <= i <= |doomed|
      invariant RemoveEach(s.contracts, doomed[i..]) == CascadeContracts(old(s.contracts), id)
      invariant s.clients == old(s.clients)[..found.value] + old(s.clients)[found.value + 1..]
      invariant s.invoices == old(s.invoices)
    {
      assert doomed[i..][0] == doomed[i] && doomed[i..][1..] == doomed[i + 1..];
      var j := FindContract(s.contracts, doomed[i].id);
      if j.Some? {
        s.contracts := s.contracts[..j.value] + s.contracts[j.value + 1..];
      }
      i := i + 1;
    }
    assert doomed[i..] == [];
    r := Pass;
    CascadeRemovesOwnedCount(old(s.contracts), id);
    if UniqueContractIds(old(s.contracts)) {
      CascadeWithUniqueIds(old(s.contracts), id);
    }
  }
}
