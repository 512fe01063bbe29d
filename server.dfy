/**
 * The Flask server (server/billing_app.py) over its two tables. `customers`
 * and `bills` are maps from id to row, each with the next AUTO_INCREMENT id.
 * `Tables` and the `After...` functions state what each route does to the
 * tables; `BillingDb` runs the routes' statements in the code's order and is
 * proved to end in that state. Whether the database connection is up is a
 * parameter; `now` is the time the database stamps a new bill with.
 */
module Server {
  import opened Wrappers
  import opened Text

  /** A value of the request's JSON body as the handlers pass it to SQL;
      an absent key reads as `None`, i.e. NULL. */
  datatype Val = Null | Bool(b: bool) | Num(n: int) | Str(s: string)

  /** Python truthiness: `None`, `False`, 0 and "" are false. */
  predicate Truthy(v: Val)
  {
    match v
    case Null => false
    case Bool(b) => b
    case Num(n) => n != 0
    case Str(s) => s != ""
  }

  /** `data.get(key)` */
  function Get(data: map<string, Val>, key: string): (v: Val)
    ensures key !in data ==> v == Null
    ensures key in data ==> v == data[key]
  {
    if key in data then data[key] else Null
  }

  datatype Customer = Customer(name: Val, contact: Val, email: Val)

  datatype BillRow = BillRow(customerId: nat, amount: Val, date: int)

  datatype Tables = Tables(customers: map<nat, Customer>, bills: map<nat, BillRow>,
                           nextCustomerId: nat, nextBillId: nat)

  /** Some bill refers to customer `c`. */
  predicate HasBills(bills: map<nat, BillRow>, c: nat)
  {
    exists b :: b in bills && bills[b].customerId == c
  }

  /**
   * What the routes keep true of the tables: ids are below the next
   * AUTO_INCREMENT value, every bill's customer exists, and every customer
   * has a bill (a customer is only ever inserted with a bill, and deleted
   * with its last one).
   */
  predicate Valid(t: Tables)
  {
    && 1 <= t.nextCustomerId && 1 <= t.nextBillId
    && (forall c :: c in t.customers ==> 1 <= c < t.nextCustomerId)
    && (forall b :: b in t.bills ==> 1 <= b < t.nextBillId)
    && (forall b :: b in t.bills ==> t.bills[b].customerId in t.customers)
    && (forall c :: c in t.customers ==> HasBills(t.bills, c))
  }

  const EmptyTables := Tables(map[], map[], 1, 1)

  lemma EmptyTablesAreValid()
    ensures Valid(EmptyTables)
  {
  }

  /** A row of `get_bills`' result. */
  datatype Row = Row(id: nat, name: Val, contact: Val, email: Val, amount: Val, date: int)

  /** The inner join of bills with customers on the bill's customer id,
      selecting the bill's id, amount and date and the customer's name,
      contact and email; keyed by bill id, as the query fixes no order. */
  function Joined(t: Tables): (rows: map<nat, Row>)
    ensures forall b :: b in rows <==> b in t.bills && t.bills[b].customerId in t.customers
  {
    map b | b in t.bills && t.bills[b].customerId in t.customers :: JoinRow(t, b)
  }

  /** One bill joined with its customer. */
  function JoinRow(t: Tables, b: nat): Row
    requires b in t.bills && t.bills[b].customerId in t.customers
  {
    var row, c := t.bills[b], t.customers[t.bills[b].customerId];
    Row(b, c.name, c.contact, c.email, row.amount, row.date)
  }

  /** Each joined row carries its bill's amount and date and its customer's fields. */
  lemma JoinedRows(t: Tables, b: nat)
    requires b in t.bills && t.bills[b].customerId in t.customers
    ensures b in Joined(t)
    ensures var row, c := Joined(t)[b], t.customers[t.bills[b].customerId];
      row.id == b && row.amount == t.bills[b].amount && row.date == t.bills[b].date
      && row.name == c.name && row.contact == c.contact && row.email == c.email
  {
  }

  /** In valid tables the join loses no bill. */
  lemma JoinedCoversEveryBill(t: Tables)
    requires Valid(t)
    ensures Joined(t).Keys == t.bills.Keys
  {
  }

  /** `add_bill`: one customer row and one bill row referring to it, each with
      the next id. */
  function AfterAdd(t: Tables, name: Val, contact: Val, email: Val, amount: Val, now: int): Tables
  {
    Tables(t.customers[t.nextCustomerId := Customer(name, contact, email)],
           t.bills[t.nextBillId := BillRow(t.nextCustomerId, amount, now)],
           t.nextCustomerId + 1, t.nextBillId + 1)
  }

  lemma {:induction false} AddPreservesValid(t: Tables, name: Val, contact: Val, email: Val, amount: Val, now: int)
    requires Valid(t)
    ensures Valid(AfterAdd(t, name, contact, email, amount, now))
  {
    var t' := AfterAdd(t, name, contact, email, amount, now);
    forall c | c in t'.customers
      ensures HasBills(t'.bills, c)
    {
      if c == t.nextCustomerId {
        assert t'.bills[t.nextBillId].customerId == c;
      } else {
        var b :| b in t.bills && t.bills[b].customerId == c;
        assert b != t.nextBillId && t'.bills[b] == t.bills[b];
      }
    }
  }

  /** `add_bill` inserts exactly one customer and one bill referring to it,
      and leaves every existing row as it was. */
  lemma AddInsertsExactlyOne(t: Tables, name: Val, contact: Val, email: Val, amount: Val, now: int)
    requires Valid(t)
    ensures var t' := AfterAdd(t, name, contact, email, amount, now);
      && t.nextCustomerId !in t.customers && t.nextBillId !in t.bills
      && t'.customers.Keys == t.customers.Keys + {t.nextCustomerId}
      && t'.bills.Keys == t.bills.Keys + {t.nextBillId}
      && (forall c :: c in t.customers ==> t'.customers[c] == t.customers[c])
      && (forall b :: b in t.bills ==> t'.bills[b] == t.bills[b])
      && t'.bills[t.nextBillId].customerId == t.nextCustomerId
  {
  }

  /** After `add_bill`, `get_bills` returns the rows it returned before and
      exactly one new row, holding the request's values. */
  lemma AddJoinsOneRow(t: Tables, name: Val, contact: Val, email: Val, amount: Val, now: int)
    requires Valid(t)
    ensures t.nextBillId !in Joined(t)
    ensures Joined(AfterAdd(t, name, contact, email, amount, now))
         == Joined(t)[t.nextBillId := Row(t.nextBillId, name, contact, email, amount, now)]
  {
    AddJoinsOneRowOn(t, Customer(name, contact, email), BillRow(t.nextCustomerId, amount, now));
  }

  /** The step of `AddJoinsOneRow` on the fresh rows, with only the facts of
      `Valid` it needs. */
  lemma {:induction false} AddJoinsOneRowOn(t: Tables, customer: Customer, bill: BillRow)
    requires t.nextBillId !in t.bills && t.nextCustomerId !in t.customers
    requires forall b :: b in t.bills ==> t.bills[b].customerId in t.customers
    requires bill.customerId == t.nextCustomerId
    ensures t.nextBillId !in Joined(t)
    ensures Joined(Tables(t.customers[t.nextCustomerId := customer], t.bills[t.nextBillId := bill],
                          t.nextCustomerId + 1, t.nextBillId + 1))
         == Joined(t)[t.nextBillId := Row(t.nextBillId, customer.name, customer.contact, customer.email,
                                          bill.amount, bill.date)]
  {
    var t' := Tables(t.customers[t.nextCustomerId := customer], t.bills[t.nextBillId := bill],
                     t.nextCustomerId + 1, t.nextBillId + 1);
    var before, after := Joined(t), Joined(t');
    var expected := before[t.nextBillId := Row(t.nextBillId, customer.name, customer.contact, customer.email,
                                               bill.amount, bill.date)];
    assert after.Keys == expected.Keys;
    forall b | b in expected
      ensures after[b] == expected[b]
    {
      if b != t.nextBillId {
        assert JoinRow(t', b) == JoinRow(t, b);
      }
    }
  }

  /** The customer columns `update_bill` may set. */
  datatype Column = NameColumn | ContactColumn | EmailColumn

  /** One assignment `column = value` applied to a customer row. */
  function SetColumn(c: Customer, column: Column, value: Val): Customer
  {
    match column
    case NameColumn => c.(name := value)
    case ContactColumn => c.(contact := value)
    case EmailColumn => c.(email := value)
  }

  /** `UPDATE customers SET <assignments>`: the assignments applied to one
      row, from left to right. */
  function Assign(c: Customer, columns: seq<Column>, values: seq<Val>): Customer
    requires |columns| == |values|
    decreases |columns|
  {
    if columns == [] then c
    else
      var n := |columns| - 1;
      SetColumn(Assign(c, columns[..n], values[..n]), columns[n], values[n])
  }

  /** A truthy new value replaces the old one; a falsy one keeps it. */
  function Merge(current: Val, given: Val): (v: Val)
    ensures Truthy(given) ==> v == given
    ensures !Truthy(given) ==> v == current
  {
    if Truthy(given) then given else current
  }

  /** `update_bill`: the bill's amount is set to the request's amount even
      when that is missing, and the bill's customer takes every truthy field
      of the request. An unknown bill id changes nothing. */
  function AfterUpdate(t: Tables, id: nat, data: map<string, Val>): Tables
  {
    if id !in t.bills then t
    else
      var row := t.bills[id].(amount := Get(data, "amount"));
      var cid := row.customerId;
      var customers :=
        if cid in t.customers then
          var c := t.customers[cid];
          t.customers[cid := Customer(Merge(c.name, Get(data, "name")),
                                      Merge(c.contact, Get(data, "contact")),
                                      Merge(c.email, Get(data, "email")))]
        else t.customers;
      t.(bills := t.bills[id := row], customers := customers)
  }

  lemma UpdatePreservesValid(t: Tables, id: nat, data: map<string, Val>)
    requires Valid(t)
    ensures Valid(AfterUpdate(t, id, data))
  {
    if id in t.bills {
      var t' := AfterUpdate(t, id, data);
      forall c | c in t'.customers
        ensures HasBills(t'.bills, c)
      {
        var b :| b in t.bills && t.bills[b].customerId == c;
        assert t'.bills[b].customerId == c;
      }
    }
  }

  /** What `update_bill` does to each row: the bill's amount becomes the
      request's amount (NULL when missing), each customer field changes only
      to a truthy new value, and no other bill or customer changes. */
  lemma UpdateChangesOnlyItsRows(t: Tables, id: nat, data: map<string, Val>)
    requires id in t.bills
    ensures var t', cid := AfterUpdate(t, id, data), t.bills[id].customerId;
      && t'.bills.Keys == t.bills.Keys && t'.customers.Keys == t.customers.Keys
      && t'.bills[id] == t.bills[id].(amount := Get(data, "amount"))
      && (forall b :: b in t.bills && b != id ==> t'.bills[b] == t.bills[b])
      && (forall c :: c in t.customers && c != cid ==> t'.customers[c] == t.customers[c])
      && (cid in t.customers ==>
            && (Truthy(Get(data, "name")) ==> t'.customers[cid].name == Get(data, "name"))
            && (!Truthy(Get(data, "name")) ==> t'.customers[cid].name == t.customers[cid].name)
            && (Truthy(Get(data, "contact")) ==> t'.customers[cid].contact == Get(data, "contact"))
            && (!Truthy(Get(data, "contact")) ==> t'.customers[cid].contact == t.customers[cid].contact)
            && (Truthy(Get(data, "email")) ==> t'.customers[cid].email == Get(data, "email"))
            && (!Truthy(Get(data, "email")) ==> t'.customers[cid].email == t.customers[cid].email))
      && t'.nextCustomerId == t.nextCustomerId && t'.nextBillId == t.nextBillId
  {
  }

  /** An update of an unknown bill changes nothing. */
  lemma UpdateOfUnknownBillChangesNothing(t: Tables, id: nat, data: map<string, Val>)
    requires id !in t.bills
    ensures AfterUpdate(t, id, data) == t
  {
  }

  /** Sending the same update twice is the same as sending it once. */
  lemma UpdateIsIdempotent(t: Tables, id: nat, data: map<string, Val>)
    ensures AfterUpdate(AfterUpdate(t, id, data), id, data) == AfterUpdate(t, id, data)
  {
    if id in t.bills {
      var t1 := AfterUpdate(t, id, data);
      var t2 := AfterUpdate(t1, id, data);
      assert t2.bills == t1.bills;
      assert t2.customers == t1.customers;
    }
  }

  /** `delete_bill`: the bill goes, and so does its customer when no other
      bill refers to it. An unknown bill id changes nothing. */
  function AfterDelete(t: Tables, id: nat): Tables
  {
    if id !in t.bills then t
    else
      var cid := t.bills[id].customerId;
      var bills := t.bills - {id};
      if HasBills(bills, cid) then t.(bills := bills)
      else t.(bills := bills, customers := t.customers - {cid})
  }

  lemma DeletePreservesValid(t: Tables, id: nat)
    requires Valid(t)
    ensures Valid(AfterDelete(t, id))
  {
    if id in t.bills {
      var t' := AfterDelete(t, id);
      var cid := t.bills[id].customerId;
      forall c | c in t'.customers
        ensures HasBills(t'.bills, c)
      {
        var b :| b in t.bills && t.bills[b].customerId == c;
        if b == id {
          assert c == cid && HasBills(t.bills - {id}, cid);
        } else {
          assert b in t'.bills;
        }
      }
    }
  }

  /** `delete_bill` removes exactly that bill, removes its customer exactly
      when no other bill refers to it, and changes nothing else. */
  lemma DeleteRemovesExactlyItsRows(t: Tables, id: nat)
    requires Valid(t) && id in t.bills
    ensures var t', cid := AfterDelete(t, id), t.bills[id].customerId;
      && t'.bills == t.bills - {id}
      && (cid in t'.customers <==> exists b :: b in t.bills && b != id && t.bills[b].customerId == cid)
      && (forall c :: c in t.customers && c != cid ==> c in t'.customers && t'.customers[c] == t.customers[c])
      && t'.customers.Keys <= t.customers.Keys
  {
    var t', cid := AfterDelete(t, id), t.bills[id].customerId;
    if exists b :: b in t.bills && b != id && t.bills[b].customerId == cid {
      var b :| b in t.bills && b != id && t.bills[b].customerId == cid;
      assert b in t.bills - {id};
    }
  }

  /** After `delete_bill`, `get_bills` returns the rows it returned before
      except exactly the deleted bill's. */
  lemma {:induction false} DeleteDropsOneRow(t: Tables, id: nat)
    requires Valid(t) && id in t.bills
    ensures Joined(AfterDelete(t, id)) == Joined(t) - {id}
  {
    var t' := AfterDelete(t, id);
    var before, after := Joined(t), Joined(t');
    assert t'.bills == t.bills - {id};
    forall b | b in t'.bills
      ensures t'.bills[b].customerId in t'.customers
    {
      assert t.bills[b].customerId in t.customers;
      assert HasBills(t'.bills, t.bills[b].customerId);
    }
    assert after.Keys == (before - {id}).Keys;
    forall b | b in after
      ensures after[b] == before[b]
    {
      assert JoinRow(t', b) == JoinRow(t, b);
    }
  }

  /** Adding a bill and deleting it again restores the tables; only the
      AUTO_INCREMENT counters have moved on. */
  lemma AddThenDeleteRestores(t: Tables, name: Val, contact: Val, email: Val, amount: Val, now: int)
    requires Valid(t)
    ensures AfterDelete(AfterAdd(t, name, contact, email, amount, now), t.nextBillId)
         == t.(nextCustomerId := t.nextCustomerId + 1, nextBillId := t.nextBillId + 1)
  {
    var t1 := AfterAdd(t, name, contact, email, amount, now);
    var bills := t1.bills - {t.nextBillId};
    assert bills == t.bills;
    assert !HasBills(bills, t.nextCustomerId);
    assert t1.customers - {t.nextCustomerId} == t.customers;
  }

  /** The routes of the application. */
  datatype Handler = DbCheck | GetBillsRoute | AddBillRoute | UpdateBillRoute(billId: nat) | DeleteBillRoute(billId: nat)

  /** What Flask does with a request: run a handler, or answer 405 or 404. */
  datatype Routing = Dispatched(handler: Handler) | MethodNotAllowed | NotFound

  /** The `<int:bill_id>` segment after `prefix`: one or more decimal digits,
      read as a number. */
  function IdAfter(prefix: string, path: string): (id: Option<nat>)
    ensures id.Some? ==> |path| > |prefix| && path[..|prefix|] == prefix
  {
    if |path| > |prefix| && path[..|prefix|] == prefix && AllDigits(path[|prefix|..])
    then Some(Value(path[|prefix|..]))
    else None
  }

  /** The path and the one method of each route. */
  function Target(path: string): Option<(Handler, string)>
  {
    if path == "/db" then Some((DbCheck, "GET"))
    else if path == "/get_bills" then Some((GetBillsRoute, "GET"))
    else if path == "/add_bill" then Some((AddBillRoute, "POST"))
    else if IdAfter("/update_bill/", path).Some? then Some((UpdateBillRoute(IdAfter("/update_bill/", path).value), "PUT"))
    else if IdAfter("/delete_bill/", path).Some? then Some((DeleteBillRoute(IdAfter("/delete_bill/", path).value), "DELETE"))
    else None
  }

  /** Matching a request to a route: an unknown path is 404, a known path
      with another method is 405. */
  function Route(httpMethod: string, path: string): (r: Routing)
    ensures r == NotFound <==> Target(path).None?
    ensures r.Dispatched? <==> Target(path).Some? && Target(path).value.1 == httpMethod
    ensures r.Dispatched? ==> r.handler == Target(path).value.0
  {
    match Target(path)
    case None => NotFound
    case Some((handler, allowed)) => if allowed == httpMethod then Dispatched(handler) else MethodNotAllowed
  }

  /** A numeral written after a route's prefix is read back as the same id. */
  lemma IdAfterShow(prefix: string, id: nat)
    ensures IdAfter(prefix, prefix + Show(id)) == Some(id)
  {
    var path := prefix + Show(id);
    assert path[..|prefix|] == prefix && path[|prefix|..] == Show(id);
    ValueOfShow(id);
  }

  const BillAdded := "Bill added successfully"
  const BillUpdated := "Bill updated successfully"
  const BillDeleted := "Bill deleted successfully"
  const BillNotFound := "Bill not found"

  /** The database behind the routes. */
  class BillingDb {
    var customers: map<nat, Customer>
    var bills: map<nat, BillRow>
    var nextCustomerId: nat
    var nextBillId: nat

    function State(): Tables
      reads this
    {
      Tables(customers, bills, nextCustomerId, nextBillId)
    }

    constructor ()
      ensures State() == EmptyTables
    {
      customers, bills := map[], map[];
      nextCustomerId, nextBillId := 1, 1;
    }

    /** `get_bills`: 500 without a connection, otherwise the join and 200. */
    method GetBills(dbUp: bool) returns (status: nat, rows: map<nat, Row>)
      ensures status == (if dbUp then 200 else 500)
      ensures dbUp ==> rows == Joined(State())
      ensures !dbUp ==> rows == map[]
    {
      if !dbUp {
        return 500, map[];
      }
      status, rows := 200, Joined(State());
    }

    /**
     * `add_bill`. The four keys are read with `data[...]`, so a missing key
     * raises before anything is written, and so does the missing
     * connection (`None.cursor()`): both end in Flask's 500. Otherwise the
     * customer row, then the bill row, are inserted and 201 is returned.
     */
    method AddBill(data: map<string, Val>, dbUp: bool, now: int) returns (status: nat, message: string)
      modifies this
      ensures var keys := "name" in data && "contact" in data && "email" in data && "amount" in data;
        && (keys && dbUp ==>
              status == 201 && message == BillAdded
              && State() == AfterAdd(old(State()), data["name"], data["contact"], data["email"], data["amount"], now))
        && (!(keys && dbUp) ==> status == 500 && State() == old(State()))
    {
      if !("name" in data && "contact" in data && "email" in data && "amount" in data) {
        return 500, "Internal Server Error";
      }
      var name, contact, email, amount := data["name"], data["contact"], data["email"], data["amount"];
      if !dbUp {
        return 500, "Internal Server Error";
      }
      var customerId := nextCustomerId;
      customers := customers[customerId := Customer(name, contact, email)];
      nextCustomerId := nextCustomerId + 1;
      bills := bills[nextBillId := BillRow(customerId, amount, now)];
      nextBillId := nextBillId + 1;
      status, message := 201, BillAdded;
    }

    /**
     * `update_bill`. The bill's amount is set first; if the bill exists, the
     * truthy customer fields are collected as (column, value) pairs in the
     * order name, contact, email and, when there is at least one, applied
     * to the bill's customer. The reply is 200 whether or not the bill
     * exists.
     */
    method UpdateBill(billId: nat, data: map<string, Val>, dbUp: bool) returns (status: nat, message: string)
      modifies this
      ensures dbUp ==> status == 200 && message == BillUpdated
                       && State() == AfterUpdate(old(State()), billId, data)
      ensures !dbUp ==> status == 500 && State() == old(State())
    {
      var amount, name, contact, email := Get(data, "amount"), Get(data, "name"), Get(data, "contact"), Get(data, "email");
      if !dbUp {
        return 500, "Failed to connect to database";
      }
      if billId in bills {
        bills := bills[billId := bills[billId].(amount := amount)];
      }
      if billId in bills {
        var customerId := bills[billId].customerId;
        var columns: seq<Column> := [];
        var values: seq<Val> := [];
        if Truthy(name) {
          columns, values := columns + [NameColumn], values + [name];
        }
        if Truthy(contact) {
          columns, values := columns + [ContactColumn], values + [contact];
        }
        if Truthy(email) {
          columns, values := columns + [EmailColumn], values + [email];
        }
        if columns != [] && customerId in customers {
          var c := customers[customerId];
          AssignMerges(c, name, contact, email, columns, values);
          customers := customers[customerId := Assign(c, columns, values)];
        }
      }
      status, message := 200, BillUpdated;
    }

    /**
     * `delete_bill`. Without a connection `conn.cursor()` raises outside the
     * `try`: 500. An unknown id is 404. Otherwise the bill is deleted, the
     * customer's remaining bills are counted, and the customer is deleted
     * when the count is 0.
     */
    method DeleteBill(billId: nat, dbUp: bool) returns (status: nat, message: string)
      modifies this
      ensures !dbUp ==> status == 500 && State() == old(State())
      ensures dbUp && billId !in old(bills) ==> status == 404 && message == BillNotFound && State() == old(State())
      ensures dbUp && billId in old(bills) ==>
        status == 200 && message == BillDeleted && State() == AfterDelete(old(State()), billId)
    {
      if !dbUp {
        return 500, "Internal Server Error";
      }
      if billId !in bills {
        return 404, BillNotFound;
      }
      var customerId := bills[billId].customerId;
      bills := bills - {billId};
      var remaining := set b | b in bills && bills[b].customerId == customerId;
      var billCount := |remaining|;
      if billCount == 0 {
        assert remaining == {};
        customers := customers - {customerId};
      } else {
        var other :| other in remaining;
        assert HasBills(bills, customerId);
      }
      status, message := 200, BillDeleted;
    }
  }

  /** The assignments `update_bill` collects set exactly the truthy fields. */
  lemma AssignMerges(c: Customer, name: Val, contact: Val, email: Val, columns: seq<Column>, values: seq<Val>)
    requires |columns| == |values|
    requires columns == (if Truthy(name) then [NameColumn] else []) + (if Truthy(contact) then [ContactColumn] else [])
                        + (if Truthy(email) then [EmailColumn] else [])
    requires values == (if Truthy(name) then [name] else []) + (if Truthy(contact) then [contact] else [])
                       + (if Truthy(email) then [email] else [])
    ensures Assign(c, columns, values) == Customer(Merge(c.name, name), Merge(c.contact, contact), Merge(c.email, email))
  {
    var columns1, values1 := if Truthy(name) then [NameColumn] else [], if Truthy(name) then [name] else [];
    assert [] + columns1 == columns1 && [] + values1 == values1;
    AssignOptional(c, [], [], Truthy(name), NameColumn, name);
    var columns2 := columns1 + (if Truthy(contact) then [ContactColumn] else []);
    var values2 := values1 + (if Truthy(contact) then [contact] else []);
    AssignOptional(c, columns1, values1, Truthy(contact), ContactColumn, contact);
    AssignOptional(c, columns2, values2, Truthy(email), EmailColumn, email);
  }

  /** Appending an assignment, or nothing, to the list. */
  lemma AssignOptional(c: Customer, columns: seq<Column>, values: seq<Val>, present: bool, column: Column, value: Val)
    requires |columns| == |values|
    ensures var columns', values' := columns + (if present then [column] else []), values + (if present then [value] else []);
      |columns'| == |values'|
      && Assign(c, columns', values') == if present then SetColumn(Assign(c, columns, values), column, value) else Assign(c, columns, values)
  {
    if present {
      assert (columns + [column])[..|columns|] == columns;
      assert (values + [value])[..|values|] == values;
    } else {
      assert columns + [] == columns && values + [] == values;
    }
  }
}
