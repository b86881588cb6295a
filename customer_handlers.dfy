/**
 * The Java customer handlers: registration with a unique email, a
 * null-skipping profile update with its own rules for email and password,
 * and login by plain password comparison.  Each email lookup may fail;
 * `lookupFails` says whether it did.
 */
module CustomerHandlers {
  import opened Wrappers
  import opened Entities
  import opened Store
  import ApiResponse

  /** The fields of a customer request body. */
  datatype CustomerBody = CustomerBody(
    email: Option<string>, password: Option<string>,
    firstName: Option<string>, lastName: Option<string>,
    address: Option<string>, phone: Option<string>)

  /** The fields of a login request body. */
  datatype Credentials = Credentials(email: Option<string>, password: Option<string>)

  /** No two customers share an email: what the email lookups try to keep. */
  ghost predicate UniqueEmails(customers: map<string, Customer>) {
    forall i, j :: i in customers && j in customers && customers[i].email == customers[j].email ==> i == j
  }

  const EmailTaken := "Email already exists"
  const BadCredentials := "Invalid email or password"

  // ------------------------------------------------------------ registration

  /** The customer a registration stores: the request's fields as given, password included. */
  function NewCustomer(b: CustomerBody, id: string, now: string): (c: Customer)
    requires b.email.Some? && b.password.Some?
    ensures c.customerId == id && c.createdAt == now && c.updatedAt == now
    ensures c.email == b.email.value && c.password == b.password.value
    ensures c.firstName == b.firstName && c.lastName == b.lastName
    ensures c.address == b.address && c.phone == b.phone
  {
    Customer(id, b.email.value, b.firstName, b.lastName, b.password.value, b.address, b.phone, now, now)
  }

  /** Adding a customer under a new id with an unused email keeps emails unique. */
  lemma AddKeepsUnique(customers: map<string, Customer>, id: string, c: Customer)
    requires UniqueEmails(customers) && id !in customers
    requires forall j :: j in customers ==> customers[j].email != c.email
    ensures UniqueEmails(customers[id := c])
  {
    var after := customers[id := c];
    forall i, j | i in after && j in after && after[i].email == after[j].email
      ensures i == j
    {
      if i != id && j != id {
        assert after[i] == customers[i] && after[j] == customers[j];
      }
    }
  }

  /** POST /customers: register a customer under `freshId`. */
  method CreateCustomer(db: Tables, body: Option<CustomerBody>, freshId: string, now: string, lookupFails: bool)
    returns (r: Response)
    requires db.Valid() && freshId !in db.customers
    modifies db`customers
    ensures db.Valid()
    ensures !lookupFails && UniqueEmails(old(db.customers)) ==> UniqueEmails(db.customers)
    ensures
      if body.None? then r == Bad("Request body is required") && unchanged(db)
      else if Blank(body.value.email) then r == Bad("Email is required") && unchanged(db)
      else if Blank(body.value.password) then r == Bad("Password is required") && unchanged(db)
      else if !lookupFails && old(db.EmailOwners(body.value.email.value)) != {} then
        r == Bad(EmailTaken) && unchanged(db)
      else
        && db.customers == old(db.customers)[freshId := NewCustomer(body.value, freshId, now)]
        && r == Made(CustomerRecord(db.customers[freshId]))
  {
    if body.None? {
      return Bad("Request body is required");
    }
    var b := body.value;
    if Blank(b.email) {
      return Bad("Email is required");
    }
    if Blank(b.password) {
      return Bad("Password is required");
    }
    if !lookupFails {
      var existing := db.QueryCustomersByEmail(b.email.value);
      if |existing| > 0 {
        return Bad(EmailTaken);
      }
    }
    var customer := NewCustomer(b, freshId, now);
    if !lookupFails && UniqueEmails(db.customers) {
      forall j | j in db.customers
        ensures db.customers[j].email != customer.email
      {
        assert j !in db.EmailOwners(customer.email);
      }
      AddKeepsUnique(db.customers, freshId, customer);
    }
    db.customers := db.customers[freshId := customer];
    r := Made(CustomerRecord(customer));
  }

  // ------------------------------------------------------------------ update

  /**
   * The stored customer after an update: the name, address and phone fields
   * the request supplies replace the stored ones, as does a supplied email;
   * the password only when supplied and not empty.
   */
  function MergeCustomer(c: Customer, b: CustomerBody, now: string): (d: Customer)
    ensures d.customerId == c.customerId && d.createdAt == c.createdAt && d.updatedAt == now
    ensures d.firstName == (if b.firstName.Some? then b.firstName else c.firstName)
    ensures d.lastName == (if b.lastName.Some? then b.lastName else c.lastName)
    ensures d.address == (if b.address.Some? then b.address else c.address)
    ensures d.phone == (if b.phone.Some? then b.phone else c.phone)
    ensures b.email.Some? ==> d.email == b.email.value
    ensures b.email.None? ==> d.email == c.email
    ensures !Blank(b.password) ==> d.password == b.password.value
    ensures Blank(b.password) ==> d.password == c.password
  {
    c.(firstName := if b.firstName.Some? then b.firstName else c.firstName,
       lastName := if b.lastName.Some? then b.lastName else c.lastName,
       address := if b.address.Some? then b.address else c.address,
       phone := if b.phone.Some? then b.phone else c.phone,
       email := b.email.GetOr(c.email),
       password := if Blank(b.password) then c.password else b.password.value,
       updatedAt := now)
  }

  /** Sending the same customer update twice is sending it once, apart from updatedAt. */
  lemma MergeCustomerIdempotent(c: Customer, b: CustomerBody, t1: string, t2: string)
    ensures MergeCustomer(MergeCustomer(c, b, t1), b, t2) == MergeCustomer(c, b, t2)
  {
  }

  /** Does the update ask for an email other than the stored one? */
  predicate ChangesEmail(c: Customer, b: CustomerBody) {
    b.email.Some? && b.email.value != c.email
  }

  /** The handler's chain of null-checked setters; the email is set only when it differs. */
  method PatchCustomer(c: Customer, b: CustomerBody, now: string) returns (d: Customer)
    ensures d == MergeCustomer(c, b, now)
  {
    d := c;
    if b.firstName.Some? {
      d := d.(firstName := b.firstName);
    }
    if b.lastName.Some? {
      d := d.(lastName := b.lastName);
    }
    if b.address.Some? {
      d := d.(address := b.address);
    }
    if b.phone.Some? {
      d := d.(phone := b.phone);
    }
    if ChangesEmail(c, b) {
      d := d.(email := b.email.value);
    }
    if b.password.Some? && b.password.value != "" {
      d := d.(password := b.password.value);
    }
    d := d.(updatedAt := now);
  }

  /** Replacing a customer by one whose email is its old one or unused keeps emails unique. */
  lemma ReplaceKeepsUnique(customers: map<string, Customer>, id: string, d: Customer)
    requires UniqueEmails(customers) && id in customers
    requires d.email == customers[id].email || forall j :: j in customers ==> customers[j].email != d.email
    ensures UniqueEmails(customers[id := d])
  {
    var after := customers[id := d];
    forall i, j | i in after && j in after && after[i].email == after[j].email
      ensures i == j
    {
      if i != id && j != id {
        assert after[i] == customers[i] && after[j] == customers[j];
      }
    }
  }

  /** PUT /customers/{customerId}: merge the request into the stored customer. */
  method UpdateCustomer(db: Tables, customerId: Option<string>, body: Option<CustomerBody>, now: string, lookupFails: bool)
    returns (r: Response)
    requires db.Valid()
    modifies db`customers
    ensures db.Valid()
    ensures !lookupFails && UniqueEmails(old(db.customers)) ==> UniqueEmails(db.customers)
    ensures
      if customerId.None? then r == Bad("Customer ID is required") && unchanged(db)
      else if body.None? then r == Bad("Request body is required") && unchanged(db)
      else if customerId.value !in old(db.customers) then r == NotFound("Customer", customerId.value) && unchanged(db)
      else
        var id, b := customerId.value, body.value;
        if ChangesEmail(old(db.customers)[id], b) && !lookupFails && old(db.EmailOwners(b.email.value)) != {} then
          r == Bad(EmailTaken) && unchanged(db)
        else
          && db.customers == old(db.customers)[id := MergeCustomer(old(db.customers)[id], b, now)]
          && r == Ok(CustomerRecord(db.customers[id]))
  {
    if customerId.None? {
      return Bad("Customer ID is required");
    }
    var id := customerId.value;
    if body.None? {
      return Bad("Request body is required");
    }
    var b := body.value;
    if id !in db.customers {
      return NotFound("Customer", id);
    }
    var existing := db.customers[id];
    if ChangesEmail(existing, b) && !lookupFails {
      var owners := db.QueryCustomersByEmail(b.email.value);
      if |owners| > 0 {
        return Bad(EmailTaken);
      }
    }
    var customer := PatchCustomer(existing, b, now);
    if !lookupFails && UniqueEmails(db.customers) {
      if ChangesEmail(existing, b) {
        forall j | j in db.customers
          ensures db.customers[j].email != customer.email
        {
          assert j !in db.EmailOwners(customer.email);
        }
      }
      ReplaceKeepsUnique(db.customers, id, customer);
    }
    db.customers := db.customers[id := customer];
    r := Ok(CustomerRecord(customer));
  }

  // ------------------------------------------------------------------- login

  /** What a successful login returns: the customer's record without the password. */
  function Profile(c: Customer): (p: Payload)
    ensures p.CustomerProfile? && p.customerId == c.customerId && p.email == c.email
    ensures p.firstName == c.firstName && p.lastName == c.lastName
    ensures p.address == c.address && p.phone == c.phone
  {
    CustomerProfile(c.customerId, c.email, c.firstName, c.lastName, c.address, c.phone)
  }

  /** The answer to a login whose email lookup found customer `c` first. */
  function LoginAnswer(c: Customer, password: string): (r: Response)
    ensures r.statusCode == 200 <==> c.password == password
    ensures r.statusCode != 200 ==> r == ApiResponse.Unauthorized(Some(BadCredentials), None)
    ensures r.statusCode == 200 ==> Sent(r) == Some(Profile(c))
  {
    if password == c.password then Ok(Profile(c))
    else ApiResponse.Unauthorized(Some(BadCredentials), None)
  }

  /**
   * POST /login: check an email and password against the customers table.
   * The lookup's order is unspecified, so the customer compared against is
   * some customer with that email.  Nothing is written.
   */
  method Login(db: Tables, body: Option<Credentials>, lookupFails: bool) returns (r: Response)
    requires db.Valid()
    ensures
      if body.None? then r == Bad("Request body is required")
      else if Blank(body.value.email) then r == Bad("Email is required")
      else if Blank(body.value.password) then r == Bad("Password is required")
      else if lookupFails then r == ApiResponse.ServerError(Some("Error querying customer by email"), None)
      else if db.EmailOwners(body.value.email.value) == {} then
        r == ApiResponse.Unauthorized(Some(BadCredentials), None)
      else
        exists id :: id in db.EmailOwners(body.value.email.value) &&
          r == LoginAnswer(db.customers[id], body.value.password.value)
    ensures r.statusCode == 200 ==>
      && body.Some? && body.value.email.Some? && body.value.password.Some?
      && exists id :: id in db.customers && db.customers[id].email == body.value.email.value
           && db.customers[id].password == body.value.password.value
           && Sent(r) == Some(Profile(db.customers[id]))
    ensures UniqueEmails(db.customers) && !lookupFails && body.Some? &&
            !Blank(body.value.email) && !Blank(body.value.password) &&
            (exists id :: id in db.customers && db.customers[id].email == body.value.email.value
                            && db.customers[id].password == body.value.password.value)
            ==> r.statusCode == 200
  {
    if body.None? {
      return Bad("Request body is required");
    }
    var email, password := body.value.email, body.value.password;
    if Blank(email) {
      return Bad("Email is required");
    }
    if Blank(password) {
      return Bad("Password is required");
    }
    if lookupFails {
      return ApiResponse.ServerError(Some("Error querying customer by email"), None);
    }
    var customers := db.QueryCustomersByEmail(email.value);
    forall id | id in db.customers && db.customers[id].email == email.value
      ensures id in db.EmailOwners(email.value)
    {
    }
    if |customers| == 0 {
      return ApiResponse.Unauthorized(Some(BadCredentials), None);
    }
    var customer := customers[0];
    r := LoginAnswer(customer, password.value);
  }
}
