/** The registration endpoint (`POST`): required-field check, duplicate
    e-mail check, role normalisation and validation, then account creation.
    The user store is a list of records; password hashing and the store's
    generated id and timestamps are values given by the caller, and every
    place the handler can throw is a `Fault`. */
module RegisterRoute {
  import opened Common
  import opened Text

  /** The request body's four fields, absent when not sent. */
  datatype RegisterRequest = RegisterRequest(
    name: Option<string>,
    email: Option<string>,
    password: Option<string>,
    role: Option<string>)

  /** A stored account, password hash included. */
  datatype StoredUser = StoredUser(id: string, name: string, email: string, role: string,
                                   passwordHash: string, createdAt: string, updatedAt: string)

  /** The account as returned to the client: the selected columns, without
      the password hash. */
  datatype PublicUser = PublicUser(id: string, name: string, email: string, role: string,
                                   createdAt: string, updatedAt: string)

  /** An exception with its (possibly empty or missing) message. */
  datatype Exception = Exception(message: Option<string>)

  /** Where the handler throws, if anywhere: reading the body, the e-mail
      lookup, hashing, or creating the record. */
  datatype Fault = NoFault | BodyThrows(e: Exception) | LookupThrows(e: Exception)
                 | HashThrows(e: Exception) | CreateThrows(e: Exception)

  /** What the store assigns on creation. */
  datatype Generated = Generated(id: string, timestamp: string)

  datatype Body = ErrorBody(error: string) | CreatedBody(success: bool, user: PublicUser)

  datatype Response = Response(status: int, body: Body)

  datatype Outcome = Outcome(response: Response, store: seq<StoredUser>)

  /** `findUnique({ where: { email } })` found a record. */
  predicate EmailTaken(store: seq<StoredUser>, email: string)
  {
    exists i | 0 <= i < |store| :: store[i].email == email
  }

  /** The role enum of the store, assumed to be the three client roles. */
  predicate IsStoreRole(r: string)
  {
    r == "TOURIST" || r == "GUIDE" || r == "ADMIN"
  }

  /** `role?.toUpperCase() || "TOURIST"`. */
  function NormaliseRole(role: Option<string>): (r: string)
    ensures !Truthy(role) ==> r == "TOURIST"
    ensures Truthy(role) ==> r == ToUpper(role.value)
  {
    if role.None? then "TOURIST"
    else
      var upper := ToUpper(role.value);
      if upper == "" then "TOURIST" else upper
  }

  /** Any casing of a role name is accepted as that role, and a role that
      is not one in any casing is refused; an empty or missing role means
      TOURIST. */
  lemma RoleCasingAccepted(role: string)
    ensures IsStoreRole(NormaliseRole(Some(role))) <==>
      ToUpper(role) == "TOURIST" || ToUpper(role) == "GUIDE" || ToUpper(role) == "ADMIN" || role == ""
    ensures IsStoreRole(ToUpper(role)) ==> NormaliseRole(Some(role)) == ToUpper(role)
    ensures NormaliseRole(Some("")) == NormaliseRole(None) == "TOURIST"
  {
  }

  /** The 500 response for an exception. */
  function Failed(e: Exception, store: seq<StoredUser>): (o: Outcome)
    ensures o.response.status == 500 && o.store == store
    ensures o.response.body == ErrorBody(TextOr(e.message, "Registration failed"))
  {
    Outcome(Response(500, ErrorBody(TextOr(e.message, "Registration failed"))), store)
  }

  function BadRequest(error: string, store: seq<StoredUser>): Outcome
  {
    Outcome(Response(400, ErrorBody(error)), store)
  }

  /** The handler. The checks run in order: required fields, existing
      e-mail, role; a fault aborts at its own place in that order. */
  function Post(req: RegisterRequest, store: seq<StoredUser>, hashed: string, gen: Generated, fault: Fault): (o: Outcome)
    ensures o.response.status in {201, 400, 500}
    ensures o.response.status != 201 ==> o.store == store && o.response.body.ErrorBody?
    ensures o.response.status == 201 ==>
      && Truthy(req.name) && Truthy(req.email) && Truthy(req.password)
      && !EmailTaken(store, req.email.value)
      && IsStoreRole(NormaliseRole(req.role))
      && o.response.body == CreatedBody(true, PublicUser(gen.id, req.name.value, req.email.value,
                                                         NormaliseRole(req.role), gen.timestamp, gen.timestamp))
      && o.store == store + [StoredUser(gen.id, req.name.value, req.email.value, NormaliseRole(req.role),
                                        hashed, gen.timestamp, gen.timestamp)]
    ensures fault == NoFault && Truthy(req.name) && Truthy(req.email) && Truthy(req.password)
            && !EmailTaken(store, req.email.value) && IsStoreRole(NormaliseRole(req.role)) ==>
      o.response.status == 201
    ensures fault.BodyThrows? ==> o == Failed(fault.e, store)
    ensures fault.LookupThrows? && Truthy(req.name) && Truthy(req.email) && Truthy(req.password) ==>
      o == Failed(fault.e, store)
    ensures fault.HashThrows? && Truthy(req.name) && Truthy(req.email) && Truthy(req.password)
            && !EmailTaken(store, req.email.value) ==>
      o == Failed(fault.e, store)
    ensures fault.CreateThrows? && Truthy(req.name) && Truthy(req.email) && Truthy(req.password)
            && !EmailTaken(store, req.email.value) && IsStoreRole(NormaliseRole(req.role)) ==>
      o == Failed(fault.e, store)
    ensures o.response.status == 500 <==> !fault.NoFault? && o == Failed(fault.e, store)
  {
    if fault.BodyThrows? then Failed(fault.e, store)
    else if !Truthy(req.name) || !Truthy(req.email) || !Truthy(req.password) then
      BadRequest("Name, email, and password are required", store)
    else if fault.LookupThrows? then Failed(fault.e, store)
    else if EmailTaken(store, req.email.value) then BadRequest("Email already exists", store)
    else if fault.HashThrows? then Failed(fault.e, store)
    else
      var role := NormaliseRole(req.role);
      if !IsStoreRole(role) then BadRequest("Invalid role", store)
      else if fault.CreateThrows? then Failed(fault.e, store)
      else
        var user := PublicUser(gen.id, req.name.value, req.email.value, role, gen.timestamp, gen.timestamp);
        Outcome(Response(201, CreatedBody(true, user)),
                store + [StoredUser(gen.id, req.name.value, req.email.value, role, hashed, gen.timestamp, gen.timestamp)])
  }

  /** The three 400 answers, each exactly when its check is the first to
      fail (and no earlier fault intervened). A 500 may carry the same text
      when an exception's message happens to be it, so the status is part
      of the statement. */
  lemma CheckOrder(req: RegisterRequest, store: seq<StoredUser>, hashed: string, gen: Generated, fault: Fault)
    requires !fault.BodyThrows?
    ensures var o := Post(req, store, hashed, gen, fault);
      && (o.response == Response(400, ErrorBody("Name, email, and password are required")) <==>
            !(Truthy(req.name) && Truthy(req.email) && Truthy(req.password)))
      && (Truthy(req.name) && Truthy(req.email) && Truthy(req.password) && !fault.LookupThrows? ==>
            (o.response == Response(400, ErrorBody("Email already exists")) <==> EmailTaken(store, req.email.value)))
      && (Truthy(req.name) && Truthy(req.email) && Truthy(req.password) && !fault.LookupThrows?
          && !EmailTaken(store, req.email.value) && !fault.HashThrows? ==>
            (o.response == Response(400, ErrorBody("Invalid role")) <==> !IsStoreRole(NormaliseRole(req.role))))
  {
  }

  /** A request missing a required field is answered before the store is
      consulted: the answer is the same whatever the store holds and
      whatever the later steps would have done. */
  lemma RequiredFieldsBeforeLookup(req: RegisterRequest, s1: seq<StoredUser>, s2: seq<StoredUser>,
                                   h1: string, h2: string, g1: Generated, g2: Generated, f1: Fault, f2: Fault)
    requires !(Truthy(req.name) && Truthy(req.email) && Truthy(req.password))
    requires !f1.BodyThrows? && !f2.BodyThrows?
    ensures Post(req, s1, h1, g1, f1).response == Post(req, s2, h2, g2, f2).response
    ensures Post(req, s1, h1, g1, f1).response == Response(400, ErrorBody("Name, email, and password are required"))
  {
  }

  /** No two accounts share an e-mail address. */
  predicate UniqueEmails(store: seq<StoredUser>)
  {
    forall i, j :: 0 <= i < j < |store| ==> store[i].email != store[j].email
  }

  /** The handler never creates a second account for an address. */
  lemma PostKeepsEmailsUnique(req: RegisterRequest, store: seq<StoredUser>, hashed: string, gen: Generated, fault: Fault)
    requires UniqueEmails(store)
    ensures UniqueEmails(Post(req, store, hashed, gen, fault).store)
  {

  }
}
