/** Services/Implementations/ClientService.cs: clients with names unique
    among the active ones, soft delete, the client queries and a client's
    outstanding balance. */
module ClientService {
  import opened Wrappers
  import opened Calendar
  import opened Models
  import opened Seqs
  import opened Sorting
  import opened Text
  import opened Data
  import OrderService
  import PaymentService

  /** Whether an active client's name matches `name` as the query compares
      them: the stored name lower-cased by SQLite, `name` by .NET. */
  predicate ActiveWithName(c: Client, name: string) {
    c.isActive && LowerMatches(c.clientName, name)
  }

  /** `IsClientNameExistsAsync`: some active client's name matches, in the
      query's comparison; inactive clients are ignored. A match is always a
      case-insensitive equality, but a stored name with an accented capital
      is never matched (see `CreateCanDuplicateActiveName`). */
  function IsClientNameExists(clients: seq<Client>, name: string): (b: bool)
    ensures b <==> exists c :: c in clients && c.isActive && LowerMatches(c.clientName, name)
    ensures b ==> IsClientNameInUse(clients, name)
  {
    var matching := Filter(clients, (c: Client) => ActiveWithName(c, name));
    if matching != [] then
      assert matching[0] in matching;
      LowerMatchesSound(matching[0].clientName, name);
      true
    else false
  }

  /** The check the create path evidently intends: some active client has
      the name, ignoring case on both sides alike. */
  predicate IsClientNameInUse(clients: seq<Client>, name: string) {
    exists c :: c in clients && c.isActive && EqualsIgnoreCase(c.clientName, name)
  }

  /** Where no active name has an accented capital, the query's check is
      exactly the intended one. */
  lemma NameCheckExactWithoutAccents(clients: seq<Client>, name: string)
    requires forall c :: c in clients && c.isActive ==> NoAccentedCapitals(c.clientName)
    ensures IsClientNameExists(clients, name) <==> IsClientNameInUse(clients, name)
  {
    if IsClientNameInUse(clients, name) {
      var c :| c in clients && c.isActive && EqualsIgnoreCase(c.clientName, name);
      LowerMatchesExact(c.clientName, name);
    }
  }

  /** No two active clients share a name, ignoring case: what the create
      path is meant to maintain. */
  predicate ActiveNamesDistinct(clients: seq<Client>) {
    forall i, j :: 0 <= i < j < |clients| && clients[i].isActive && clients[j].isActive
      ==> !EqualsIgnoreCase(clients[i].clientName, clients[j].clientName)
  }

  /** The client as stored by a create: the given client with a fresh key,
      active and created now; every other field as passed in. */
  function NewClient(clients: seq<Client>, client: Client, now: DateTime): (r: Client)
    ensures r.clientId !in Map(clients, ClientKey)
    ensures r == client.(clientId := r.clientId, isActive := true, createdAt := now)
  {
    client.(clientId := NextKey(clients, ClientKey), isActive := true, createdAt := now)
  }

  /** `CreateClientAsync`, as written: active names stay distinct only while
      no active name has an accented capital. */
  method CreateClient(db: AppDbContext, client: Client, now: DateTime) returns (r: Result<Client, ServiceError>)
    requires db.Valid()
    modifies db
    ensures db.Valid()
    ensures db.orders == old(db.orders) && db.payments == old(db.payments) && db.dailySpents == old(db.dailySpents)
    ensures IsClientNameExists(old(db.clients), client.clientName) ==>
      r == Err(DuplicateClientName(client.clientName)) && db.clients == old(db.clients)
    ensures !IsClientNameExists(old(db.clients), client.clientName) ==>
      r == Ok(NewClient(old(db.clients), client, now)) && db.clients == old(db.clients) + [r.value]
    ensures old(ActiveNamesDistinct(db.clients))
      && (forall c :: c in old(db.clients) && c.isActive ==> NoAccentedCapitals(c.clientName))
      ==> ActiveNamesDistinct(db.clients)
  {
    if IsClientNameExists(db.clients, client.clientName) {
      return Err(DuplicateClientName(client.clientName));
    }
    var stored := NewClient(db.clients, client, now);
    AppendFreshKeepsUnique(db.clients, ClientKey, stored);
    PassedCheckKeepsNamesDistinct(db.clients, stored);
    db.clients := db.clients + [stored];
    r := Ok(stored);
  }

  /** A client that passes the check as written keeps active names
      distinct while no active name has an accented capital. */
  lemma PassedCheckKeepsNamesDistinct(clients: seq<Client>, c: Client)
    requires !IsClientNameExists(clients, c.clientName)
    ensures ActiveNamesDistinct(clients) && (forall x :: x in clients && x.isActive ==> NoAccentedCapitals(x.clientName))
      ==> ActiveNamesDistinct(clients + [c])
  {
    if forall x :: x in clients && x.isActive ==> NoAccentedCapitals(x.clientName) {
      NameCheckExactWithoutAccents(clients, c.clientName);
      CreateKeepsNamesDistinct(clients, c);
    }
  }

  /** An active "ÉCOLE" does not stop a second "ÉCOLE" from being created:
      SQLite lower-cases the stored name to "École", .NET the new one to
      "école", and the two active names are then equal ignoring case. */
  lemma CreateCanDuplicateActiveName(x: Client, y: Client, now: DateTime)
    requires x.isActive && x.clientName == "\U{00C9}COLE" && y.clientName == "\U{00C9}COLE"
    ensures ActiveNamesDistinct([x])
    ensures !IsClientNameExists([x], y.clientName)
    ensures !ActiveNamesDistinct([x] + [NewClient([x], y, now)])
  {
    AccentedCapitalMissesItself(x.clientName);
    var s := [x] + [NewClient([x], y, now)];
    assert s[0] == x && s[1].clientName == x.clientName && s[1].isActive;
  }

  /** `CreateClientAsync` with the name check corrected: both names folded
      alike, so active names stay distinct ignoring case. */
  method CreateClientChecked(db: AppDbContext, client: Client, now: DateTime) returns (r: Result<Client, ServiceError>)
    requires db.Valid()
    modifies db
    ensures db.Valid()
    ensures db.orders == old(db.orders) && db.payments == old(db.payments) && db.dailySpents == old(db.dailySpents)
    ensures IsClientNameInUse(old(db.clients), client.clientName) ==>
      r == Err(DuplicateClientName(client.clientName)) && db.clients == old(db.clients)
    ensures !IsClientNameInUse(old(db.clients), client.clientName) ==>
      r == Ok(NewClient(old(db.clients), client, now)) && db.clients == old(db.clients) + [r.value]
    ensures old(ActiveNamesDistinct(db.clients)) ==> ActiveNamesDistinct(db.clients)
  {
    if IsClientNameInUse(db.clients, client.clientName) {
      return Err(DuplicateClientName(client.clientName));
    }
    var stored := NewClient(db.clients, client, now);
    AppendFreshKeepsUnique(db.clients, ClientKey, stored);
    CreateKeepsNamesDistinct(db.clients, stored);
    db.clients := db.clients + [stored];
    r := Ok(stored);
  }

  /** A client whose name no active client has keeps active names distinct. */
  lemma CreateKeepsNamesDistinct(clients: seq<Client>, c: Client)
    requires !IsClientNameInUse(clients, c.clientName)
    ensures ActiveNamesDistinct(clients) ==> ActiveNamesDistinct(clients + [c])
  {
    if ActiveNamesDistinct(clients) {
      var s := clients + [c];
      forall i, j | 0 <= i < j < |s| && s[i].isActive && s[j].isActive
        ensures !EqualsIgnoreCase(s[i].clientName, s[j].clientName)
      {
        if j == |clients| {
          assert s[i] in clients;
        }
      }
    }
  }

  /** The tracked client after an update: name, phone, address and the
      active flag come from the edit; id and creation time stay. */
  function ApplyClientEdit(existing: Client, edit: Client, now: DateTime): (r: Client)
    ensures r.clientId == existing.clientId && r.createdAt == existing.createdAt
    ensures r.clientName == edit.clientName && r.phone == edit.phone && r.address == edit.address
    ensures r.isActive == edit.isActive && r.updatedAt == Some(now)
  {
    existing.(clientName := edit.clientName, phone := edit.phone, address := edit.address,
              isActive := edit.isActive, updatedAt := Some(now))
  }

  /** `UpdateClientAsync`: no name check. */
  method UpdateClient(db: AppDbContext, client: Client, now: DateTime) returns (r: Result<Client, ServiceError>)
    requires db.Valid()
    modifies db
    ensures db.Valid()
    ensures db.orders == old(db.orders) && db.payments == old(db.payments) && db.dailySpents == old(db.dailySpents)
    ensures match IndexOfKey(old(db.clients), ClientKey, client.clientId)
      case None => r == Err(NotFound("Client", client.clientId)) && db.clients == old(db.clients)
      case Some(k) =>
        && r == Ok(ApplyClientEdit(old(db.clients)[k], client, now))
        && db.clients == old(db.clients)[k := r.value]
  {
    var found := IndexOfKey(db.clients, ClientKey, client.clientId);
    if found.None? {
      return Err(NotFound("Client", client.clientId));
    }
    var k := found.value;
    var edited := ApplyClientEdit(db.clients[k], client, now);
    ReplaceKeepsUnique(db.clients, ClientKey, k, edited);
    db.clients := db.clients[k := edited];
    r := Ok(edited);
  }

  /** Because the update path skips the name check, renaming an active
      client to another active client's name (in another case) is
      accepted and leaves two active clients with the same name. */
  lemma UpdateCanDuplicateActiveName(x: Client, y: Client, now: DateTime)
    requires x.clientId == 1 && y.clientId == 2
    requires x.isActive && y.isActive
    requires x.clientName == "Acme" && y.clientName == "Beta"
    ensures ActiveNamesDistinct([x, y])
    ensures IndexOfKey([x, y], ClientKey, 2) == Some(1)
    ensures !ActiveNamesDistinct([x, y][1 := ApplyClientEdit(y, y.(clientName := "ACME"), now)])
  {
    assert ToLowerLatin1("Acme") == "acme";
    assert ToLowerLatin1("Beta") == "beta";
    assert ToLowerLatin1("ACME") == "acme";
    assert [x, y][1..] == [y];
    var s := [x, y][1 := ApplyClientEdit(y, y.(clientName := "ACME"), now)];
    assert s[0] == x && s[1].clientName == "ACME" && s[1].isActive;
  }

  /** The client after a soft delete. */
  function Deactivated(c: Client, now: DateTime): (r: Client)
    ensures !r.isActive && r.updatedAt == Some(now)
    ensures r == c.(isActive := false, updatedAt := Some(now))
  {
    c.(isActive := false, updatedAt := Some(now))
  }

  /** `DeleteClientAsync`: a soft delete; the record stays, inactive. */
  method DeleteClient(db: AppDbContext, clientId: int, now: DateTime) returns (r: Result<(), ServiceError>)
    requires db.Valid()
    modifies db
    ensures db.Valid()
    ensures db.orders == old(db.orders) && db.payments == old(db.payments) && db.dailySpents == old(db.dailySpents)
    ensures |db.clients| == |old(db.clients)|
    ensures match IndexOfKey(old(db.clients), ClientKey, clientId)
      case None => r == Err(NotFound("Client", clientId)) && db.clients == old(db.clients)
      case Some(k) => r == Ok(()) && db.clients == old(db.clients)[k := Deactivated(old(db.clients)[k], now)]
    ensures old(ActiveNamesDistinct(db.clients)) ==> ActiveNamesDistinct(db.clients)
  {
    var found := IndexOfKey(db.clients, ClientKey, clientId);
    if found.None? {
      return Err(NotFound("Client", clientId));
    }
    var k := found.value;
    var retired := Deactivated(db.clients[k], now);
    ReplaceKeepsUnique(db.clients, ClientKey, k, retired);
    db.clients := db.clients[k := retired];
    r := Ok(());
  }

  /** After a soft delete the client's name is free again: with active
      names distinct, no active client is left with that name, so a create
      under it passes either name check. */
  lemma SoftDeleteFreesName(clients: seq<Client>, k: nat, now: DateTime)
    requires ActiveNamesDistinct(clients)
    requires k < |clients| && clients[k].isActive
    ensures IsClientNameInUse(clients, clients[k].clientName)
    ensures !IsClientNameInUse(clients[k := Deactivated(clients[k], now)], clients[k].clientName)
    ensures !IsClientNameExists(clients[k := Deactivated(clients[k], now)], clients[k].clientName)
  {
    var name := clients[k].clientName;
    var s := clients[k := Deactivated(clients[k], now)];
    assert clients[k] in clients;
    forall c | c in s && c.isActive ensures !EqualsIgnoreCase(c.clientName, name) {
      var j :| 0 <= j < |s| && s[j] == c;
      assert j != k;
      assert s[j] == clients[j];
      if j < k {
        assert !EqualsIgnoreCase(clients[j].clientName, clients[k].clientName);
      } else {
        assert !EqualsIgnoreCase(clients[k].clientName, clients[j].clientName);
      }
    }
  }

  /** `GetClientByIdAsync`: the client with that id, if any. */
  function GetClientById(clients: seq<Client>, clientId: int): (r: Option<Client>)
    ensures r.Some? ==> r.value in clients && r.value.clientId == clientId
    ensures r.None? <==> forall c :: c in clients ==> c.clientId != clientId
  {
    match IndexOfKey(clients, ClientKey, clientId)
    case None => None
    case Some(k) => Some(clients[k])
  }

  function ClientName(c: Client): string { c.clientName }

  /** Clients sorted by name (`OrderBy(c => c.ClientName)`). */
  function ByName(clients: seq<Client>): (r: seq<Client>)
    ensures multiset(r) == multiset(clients)
    ensures forall c :: c in r <==> c in clients
    ensures forall i, j :: 0 <= i < j < |r| ==> OrdinalLe(r[i].clientName, r[j].clientName)
  {
    OrdinalLeIsTotalPreorder();
    var r := SortBy(clients, ClientName, OrdinalLe);
    assert forall c :: c in r <==> c in multiset(clients);
    r
  }

  /** `GetAllClientsAsync`: every client, active or not, sorted by name. */
  function GetAllClients(clients: seq<Client>): (r: seq<Client>)
    ensures multiset(r) == multiset(clients)
    ensures forall i, j :: 0 <= i < j < |r| ==> OrdinalLe(r[i].clientName, r[j].clientName)
  {
    ByName(clients)
  }

  /** `GetAllActiveClientsAsync`: exactly the active clients, sorted by name. */
  function GetAllActiveClients(clients: seq<Client>): (r: seq<Client>)
    ensures multiset(r) == multiset(Filter(clients, (c: Client) => c.isActive))
    ensures forall c :: c in r <==> c in clients && c.isActive
    ensures forall i, j :: 0 <= i < j < |r| ==> OrdinalLe(r[i].clientName, r[j].clientName)
  {
    ByName(Filter(clients, (c: Client) => c.isActive))
  }

  function OrderAmount(o: Order): int { o.orderAmount }

  /** `GetClientOutstandingAmountAsync`: what the client's order listing
      adds up to, less what its payment listing adds up to, advances
      included. */
  function GetClientOutstanding(orders: seq<Order>, payments: seq<Payment>, clientId: int): (owed: int)
    ensures owed == Sum(OrderService.GetOrdersByClient(orders, clientId), OrderAmount)
                  - Sum(PaymentService.GetPaymentsByClient(payments, clientId), AmountReceived)
  {
    var own := Filter(orders, (o: Order) => o.clientId == clientId);
    var paid := Filter(payments, (p: Payment) => p.clientId == clientId);
    SumOfPermutation(own, OrderService.GetOrdersByClient(orders, clientId), OrderAmount);
    SumOfPermutation(paid, PaymentService.GetPaymentsByClient(payments, clientId), AmountReceived);
    Sum(own, OrderAmount) - Sum(paid, AmountReceived)
  }

  /** A client with no orders and no payments owes nothing. */
  lemma OutstandingWithoutRecords(orders: seq<Order>, payments: seq<Payment>, clientId: int)
    requires forall o :: o in orders ==> o.clientId != clientId
    requires forall p :: p in payments ==> p.clientId != clientId
    ensures GetClientOutstanding(orders, payments, clientId) == 0
  {
    FilterNone(orders, (o: Order) => o.clientId == clientId);
    FilterNone(payments, (p: Payment) => p.clientId == clientId);
  }

  /** Recording a payment from the client, advance or not, lowers what it
      owes by the amount; a payment from another client changes nothing. */
  lemma OutstandingAfterPayment(orders: seq<Order>, payments: seq<Payment>, p: Payment, clientId: int)
    ensures GetClientOutstanding(orders, payments + [p], clientId)
         == GetClientOutstanding(orders, payments, clientId) - (if p.clientId == clientId then p.amountReceived else 0)
  {
    var f := (q: Payment) => q.clientId == clientId;
    FilterConcat(payments, [p], f);
    assert Filter([p], f) == if f(p) then [p] else [];
    SumConcat(Filter(payments, f), Filter([p], f), AmountReceived);
  }

  /** Two orders of 500.00 and 300.00 and one payment of 200.00 leave
      600.00 outstanding. */
  lemma OutstandingExample(o1: Order, o2: Order, p: Payment)
    requires o1.clientId == 7 && o2.clientId == 7 && p.clientId == 7
    requires o1.orderAmount == 50000 && o2.orderAmount == 30000 && p.amountReceived == 20000
    ensures GetClientOutstanding([o1, o2], [p], 7) == 60000
  {
    var f := (o: Order) => o.clientId == 7;
    var g := (q: Payment) => q.clientId == 7;
    assert [o1, o2][1..] == [o2] && [o2][1..] == [] && [p][1..] == [];
    assert Filter([o1, o2], f) == [o1, o2];
    assert Filter([p], g) == [p];
    assert Sum([o2], OrderAmount) == 30000;
    assert Sum([o1, o2], OrderAmount) == 80000;
    assert Sum([p], AmountReceived) == 20000;
  }
}
