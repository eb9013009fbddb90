// The `/customers` router: create, page, read, partial update and delete
// over the customer table, with 404 for an unknown id. The id is declared
// `int`, so a non-numeric path never reaches these handlers.
module CustomersRouter {
  import opened Wrappers
  import opened Schemas
  import opened Tables

  const CustomerNotFound := HttpError(404, "Customer not found")
  const DeletedMessage := "Customer deleted successfully"

  /** `read_customer`: the stored record, or 404. */
  function ReadCustomer(db: Table<Customer>, id: int): (r: Result<Customer, HttpError>)
    reads db
    ensures r.Err? <==> db.Get(id).None?
    ensures r.Err? ==> r.error == CustomerNotFound
    ensures r.Ok? ==> db.Get(id) == Some(r.value)
  {
    match db.Get(id)
    case None => Err(CustomerNotFound)
    case Some(c) => Ok(c)
  }

  /** `read_customers`: at most `limit` records, in id order, from `skip`. */
  function ReadCustomers(db: Table<Customer>, skip: nat, limit: nat): (r: seq<Customer>)
    reads db
    ensures |r| <= limit
    ensures skip >= |db.rows| ==> r == []
    ensures forall i :: 0 <= i < |r| ==> skip + i < |db.rows| && r[i] == db.rows[skip + i].rec
  {
    Page(db.rows, skip, limit)
  }

  /** `create_customer`: exactly the submitted fields, under a fresh id. */
  method CreateCustomer(db: Table<Customer>, c: Customer) returns (id: int)
    requires db.Valid()
    modifies db
    ensures db.Valid()
    ensures old(ReadCustomer(db, id)).Err? && ReadCustomer(db, id) == Ok(c)
    ensures forall k :: k != id ==> db.Get(k) == old(db.Get(k))
  {
    id := db.Insert(c);
  }

  /** `update_customer`: 404 for an unknown id, otherwise only the fields set
      in the request change. */
  method UpdateCustomer(db: Table<Customer>, id: int, u: CustomerUpdate) returns (r: Result<Customer, HttpError>)
    requires db.Valid()
    modifies db
    ensures db.Valid()
    ensures old(db.Get(id)).None? ==> r == Err(CustomerNotFound) && unchanged(db)
    ensures old(db.Get(id)).Some? ==>
              r == Ok(ApplyCustomerUpdate(old(db.Get(id)).value, u))
              && ReadCustomer(db, id) == r
              && forall k :: k != id ==> db.Get(k) == old(db.Get(k))
  {
    r := ReadCustomer(db, id);
    if r.Ok? {
      var updated := ApplyCustomerUpdate(r.value, u);
      db.Replace(id, updated);
      r := Ok(updated);
    }
  }

  /** `delete_customer`: 404 for an unknown id; otherwise the record is gone,
      so reading it again answers 404, and every other record stays. */
  method DeleteCustomer(db: Table<Customer>, id: int) returns (r: Result<String, HttpError>)
    requires db.Valid()
    modifies db
    ensures db.Valid()
    ensures old(db.Get(id)).None? ==> r == Err(CustomerNotFound) && unchanged(db)
    ensures old(db.Get(id)).Some? ==>
              r == Ok(DeletedMessage)
              && ReadCustomer(db, id) == Err(CustomerNotFound)
              && forall k :: k != id ==> db.Get(k) == old(db.Get(k))
  {
    if db.Get(id).None? {
      return Err(CustomerNotFound);
    }
    db.Delete(id);
    r := Ok(DeletedMessage);
  }
}
