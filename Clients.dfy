/** The subscriber record of the console and the pure transforms its client
    screens apply to it: the status rules of the two toggle buttons, bill
    collection, the 30-day renewal, the edit form, the search filter. Optional
    text fields of the record are plain strings, with "" for an absent value
    (the edit form itself replaces an absent value by ""). */
module Clients {
  import opened Wrappers
  import opened Seqs
  import opened Keyed
  import opened Text
  import opened CivilDate

  datatype ConnType = PPPoE | Hotspot

  datatype Status = Active | Inactive | Suspended | Disabled

  datatype Client = Client(
    id: string,
    name: string,
    phone: string,
    email: string,
    address: string,
    macAddress: string,
    connType: ConnType,
    plan: string,
    status: Status,
    balance: int,
    joinDate: string,
    expiryDate: string)

  function ClientId(c: Client): string
  {
    c.id
  }

  /** The add/edit form: every client field except the id. */
  datatype ClientForm = ClientForm(
    name: string,
    phone: string,
    email: string,
    address: string,
    macAddress: string,
    connType: ConnType,
    plan: string,
    status: Status,
    balance: int,
    joinDate: string,
    expiryDate: string)

  /** The form filled in from an existing client when its edit dialog opens. */
  function FormOf(c: Client): ClientForm
  {
    ClientForm(c.name, c.phone, c.email, c.address, c.macAddress, c.connType,
               c.plan, c.status, c.balance, c.joinDate, c.expiryDate)
  }

  /** `{ ...c, ...formData }`: the form overrides every field it carries, the id stays. */
  function ApplyForm(c: Client, f: ClientForm): (r: Client)
    ensures r.id == c.id && FormOf(r) == f
  {
    Client(c.id, f.name, f.phone, f.email, f.address, f.macAddress, f.connType,
           f.plan, f.status, f.balance, f.joinDate, f.expiryDate)
  }

  /** Opening the edit dialog and saving it untouched leaves the client as it was. */
  lemma ApplyOwnForm(c: Client)
    ensures ApplyForm(c, FormOf(c)) == c
  {
  }

  /** Two clients with the same id and the same form are the same client. */
  lemma FormDetermines(c: Client, d: Client)
    requires c.id == d.id && FormOf(c) == FormOf(d)
    ensures c == d
  {
  }

  /** The length of a renewal and of a new client's first period, in days. */
  const RenewalPeriod: nat := 30

  lemma NewFormDates(today: Date)
    requires InIsoRange(today) && AddDays(today, RenewalPeriod).year <= 9999
    ensures ParseIso(FormatIso(today)) == Some(today)
    ensures ShiftIsoDate(FormatIso(today), RenewalPeriod) == Ok(FormatIso(AddDays(today, RenewalPeriod)))
  {
    ParseFormatIso(today);
    ShiftFormatted(today, RenewalPeriod);
  }

  /** The form of the add dialog: the fixed defaults, joined today (UTC), expiring in 30 days. */
  function NewClientForm(today: Date): (f: ClientForm)
    requires InIsoRange(today) && AddDays(today, RenewalPeriod).year <= 9999
    ensures f.status == Active && f.balance == 0 && f.connType == PPPoE && f.plan == "5 Mbps"
    ensures f.name == "" && f.phone == "" && f.email == "" && f.address == "" && f.macAddress == ""
    ensures ParseIso(f.joinDate) == Some(today)
    ensures ShiftIsoDate(f.joinDate, RenewalPeriod) == Ok(f.expiryDate)
  {
    NewFormDates(today);
    ClientForm("", "", "", "", "", PPPoE, "5 Mbps", Active, 0, FormatIso(today), FormatIso(AddDays(today, RenewalPeriod)))
  }

  /** The id of a new client: the list length plus one, then the random suffix. */
  function NewClientId(count: nat, suffix: string): (id: string)
    ensures |id| == NumDigits(count + 1) + |suffix| && id[NumDigits(count + 1)..] == suffix
  {
    Decimal(count + 1) + suffix
  }

  /** A new id starts with the digits of the list length plus one, which read back
      as that number, and ends with the suffix. */
  lemma NewClientIdParts(count: nat, suffix: string)
    ensures var id, k := NewClientId(count, suffix), NumDigits(count + 1);
            && k <= |id| && AllDigits(id[..k]) && ParseDigits(id[..k]) == count + 1
            && id[k..] == suffix
  {
    var id, k := NewClientId(count, suffix), NumDigits(count + 1);
    assert id[..k] == Decimal(count + 1);
    DecimalRoundTrip(count + 1);
  }

  /** `{ ...formData, id }` for the client the add dialog creates. */
  function NewClient(clients: seq<Client>, f: ClientForm, suffix: string): (c: Client)
    ensures FormOf(c) == f && c.id == NewClientId(|clients|, suffix)
  {
    ApplyForm(Client("", "", "", "", "", "", PPPoE, "", Active, 0, "", ""), f)
      .(id := NewClientId(|clients|, suffix))
  }

  /** The enable/disable button: Active becomes Disabled and every other
      status, Suspended and Inactive included, becomes Active. */
  function ToggledStatus(s: Status): (r: Status)
    ensures r != s
    ensures r == Disabled <==> s == Active
    ensures r == Active <==> s != Active
  {
    if s == Active then Disabled else Active
  }

  /** The suspend button: Suspended becomes Active and every other status becomes Suspended. */
  function SuspendToggled(s: Status): (r: Status)
    ensures r != s
    ensures r == Active <==> s == Suspended
    ensures r == Suspended <==> s != Suspended
  {
    if s == Suspended then Active else Suspended
  }

  /** The enable/disable button undoes itself exactly on Active and Disabled. */
  lemma ToggleTwice(s: Status)
    ensures ToggledStatus(ToggledStatus(s)) == s <==> s == Active || s == Disabled
  {
  }

  /** The suspend button undoes itself exactly on Active and Suspended. */
  lemma SuspendTwice(s: Status)
    ensures SuspendToggled(SuspendToggled(s)) == s <==> s == Active || s == Suspended
  {
  }

  function WithStatus(st: Status): Client -> Client
  {
    (c: Client) => c.(status := st)
  }

  function AddBalance(amount: int): Client -> Client
  {
    (c: Client) => c.(balance := c.balance + amount)
  }

  /** The renewal edit: new expiry date, status forced to Active. */
  function RenewTo(expiry: string): Client -> Client
  {
    (c: Client) => c.(expiryDate := expiry, status := Active)
  }

  function MergeForm(f: ClientForm): Client -> Client
  {
    c => ApplyForm(c, f)
  }

  /** `clients.map(c => c.id === id ? { ...c, status } : c)`. */
  function SetStatus(clients: seq<Client>, id: string, st: Status): (r: seq<Client>)
    ensures |r| == |clients|
    ensures forall i :: 0 <= i < |r| ==> r[i].(status := clients[i].status) == clients[i]
    ensures forall i :: 0 <= i < |r| ==> r[i].status == if clients[i].id == id then st else clients[i].status
  {
    UpdateWhere(clients, ClientId, id, WithStatus(st))
  }

  /** `clients.map(c => c.id === id ? { ...c, balance: c.balance + amount } : c)`. */
  function CollectPayment(clients: seq<Client>, id: string, amount: int): (r: seq<Client>)
    ensures |r| == |clients|
    ensures forall i :: 0 <= i < |r| ==> r[i].(balance := clients[i].balance) == clients[i]
    ensures forall i :: 0 <= i < |r| ==>
              r[i].balance == clients[i].balance + (if clients[i].id == id then amount else 0)
  {
    UpdateWhere(clients, ClientId, id, AddBalance(amount))
  }

  /** The list part of a renewal: matching clients get the new expiry and become Active. */
  function RenewClient(clients: seq<Client>, id: string, expiry: string): (r: seq<Client>)
    ensures |r| == |clients|
    ensures forall i :: 0 <= i < |r| ==>
              r[i].(expiryDate := clients[i].expiryDate, status := clients[i].status) == clients[i]
    ensures forall i :: 0 <= i < |r| && clients[i].id == id ==> r[i].expiryDate == expiry && r[i].status == Active
    ensures forall i :: 0 <= i < |r| && clients[i].id != id ==> r[i] == clients[i]
  {
    UpdateWhere(clients, ClientId, id, RenewTo(expiry))
  }

  /** The list part of saving the edit dialog: matching clients take the form, ids kept. */
  function EditClient(clients: seq<Client>, id: string, f: ClientForm): (r: seq<Client>)
    ensures |r| == |clients|
    ensures forall i :: 0 <= i < |r| ==> r[i].id == clients[i].id
    ensures forall i :: 0 <= i < |r| && clients[i].id == id ==> FormOf(r[i]) == f
    ensures forall i :: 0 <= i < |r| && clients[i].id != id ==> r[i] == clients[i]
  {
    UpdateWhere(clients, ClientId, id, MergeForm(f))
  }

  /** `clients.filter(c => c.id !== id)`. */
  function RemoveClient(clients: seq<Client>, id: string): (r: seq<Client>)
    ensures IsSubseq(r, clients)
    ensures forall c :: c in r <==> c in clients && c.id != id
  {
    RemoveKey(clients, ClientId, id)
  }

  /** `clients.map(c => c.id === updated.id ? updated : c)`. */
  function ReplaceClient(clients: seq<Client>, updated: Client): (r: seq<Client>)
    ensures |r| == |clients|
    ensures forall i :: 0 <= i < |r| ==> r[i] == if clients[i].id == updated.id then updated else clients[i]
  {
    ReplaceKey(clients, ClientId, updated)
  }

  /** `clients.find(c => c.id === id)`: the first client with the id, if any. */
  function FindClient(clients: seq<Client>, id: string): (r: Option<Client>)
    ensures r.None? <==> forall i :: 0 <= i < |clients| ==> clients[i].id != id
    ensures r.Some? ==> exists i :: 0 <= i < |clients| && clients[i] == r.value && r.value.id == id
                                    && forall j :: 0 <= j < i ==> clients[j].id != id
  {
    FindKey(clients, ClientId, id)
  }

  /** Collecting a and then b is collecting a + b. */
  lemma CollectTwice(clients: seq<Client>, id: string, a: int, b: int)
    ensures CollectPayment(CollectPayment(clients, id, a), id, b) == CollectPayment(clients, id, a + b)
  {
    forall c: Client
      ensures ClientId(AddBalance(a)(c)) == ClientId(c)
      ensures AddBalance(b)(AddBalance(a)(c)) == AddBalance(a + b)(c)
    {
    }
    UpdateCompose(clients, ClientId, id, AddBalance(a), AddBalance(b), AddBalance(a + b));
  }

  /** A balance of 500 with 200 collected and then -100 collected is 600. */
  lemma CollectExample(c: Client)
    requires c.balance == 500
    ensures CollectPayment(CollectPayment([c], c.id, 200), c.id, -100) == [c.(balance := 600)]
  {
    CollectTwice([c], c.id, 200, -100);
  }

  /** Suspending an Active client and then pressing the enable/disable button
      (which sees Suspended) makes the client Active again. */
  lemma SuspendThenToggle(clients: seq<Client>, id: string)
    ensures SetStatus(SetStatus(clients, id, SuspendToggled(Active)), id, ToggledStatus(Suspended))
         == SetStatus(clients, id, Active)
  {
    UpdateCompose(clients, ClientId, id, WithStatus(Suspended), WithStatus(Active), WithStatus(Active));
  }

  /** Setting a status twice is setting the second one. */
  lemma SetStatusTwice(clients: seq<Client>, id: string, s: Status, t: Status)
    ensures SetStatus(SetStatus(clients, id, s), id, t) == SetStatus(clients, id, t)
  {
    UpdateCompose(clients, ClientId, id, WithStatus(s), WithStatus(t), WithStatus(t));
  }

  /** A second renewal overrides the first renewal's expiry. */
  lemma RenewTwice(clients: seq<Client>, id: string, e1: string, e2: string)
    ensures RenewClient(RenewClient(clients, id, e1), id, e2) == RenewClient(clients, id, e2)
  {
    UpdateCompose(clients, ClientId, id, RenewTo(e1), RenewTo(e2), RenewTo(e2));
  }

  /** Two 30-day renewals move an expiry date by exactly 60 days. */
  lemma RenewalsAdd(expiry: string, e1: string, e2: string)
    requires ShiftIsoDate(expiry, RenewalPeriod) == Ok(e1) && ShiftIsoDate(e1, RenewalPeriod) == Ok(e2)
    ensures ShiftIsoDate(expiry, 2 * RenewalPeriod) == Ok(e2)
  {
    ShiftTwice(expiry, RenewalPeriod, RenewalPeriod);
  }

  /** `filter` of the client screen: `All` or one connection type. */
  datatype TypeFilter = AllTypes | OnlyType(connType: ConnType)

  predicate MatchesType(filter: TypeFilter, c: Client)
  {
    filter.AllTypes? || c.connType == filter.connType
  }

  /** Name (case-insensitive), phone, or a present MAC address (case-insensitive) contains the query. */
  predicate MatchesQuery(query: string, c: Client)
  {
    || Contains(Lower(c.name), Lower(query))
    || Contains(c.phone, query)
    || (c.macAddress != "" && Contains(Lower(c.macAddress), Lower(query)))
  }

  function ClientMatches(filter: TypeFilter, query: string): Client -> bool
  {
    c => MatchesType(filter, c) && MatchesQuery(query, c)
  }

  /** `filteredClients`: the clients of the chosen type matching the search, in list order. */
  function FilteredClients(clients: seq<Client>, filter: TypeFilter, query: string): (r: seq<Client>)
    ensures IsSubseq(r, clients)
    ensures forall c :: c in r <==> c in clients && MatchesType(filter, c) && MatchesQuery(query, c)
    ensures filter == AllTypes && query == "" ==> r == clients
  {
    assert query == "" ==> forall i :: 0 <= i < |clients| ==> Contains(Lower(clients[i].name), Lower(query));
    Filter(clients, ClientMatches(filter, query))
  }
}
