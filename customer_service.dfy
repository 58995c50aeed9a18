/** CustomerService over an abstract customer table: a map from id to
    customer and a counter for new ids. Writes happen only after
    validation, so every stored customer passes Bean Validation and no two
    stored customers share an email. */
module CustomerStore {
  import opened Common
  import opened Customers
  import opened CustomerValidation

  const EMAIL_CONFLICT := "That email is already used, please use a unique email"

  /** The table invariant. */
  ghost predicate TableInvariant(customers: map<int, Customer>, nextId: int, bean: BeanValidation) {
    (forall k :: k in customers ==> customers[k].id == Some(k) && k < nextId && bean(customers[k]) == []) &&
    (forall j, k :: j in customers && k in customers && j != k && customers[j].email.Some? ==>
      customers[j].email != customers[k].email)
  }

  /** In a consistent table at most one customer has a given email (a null
      email matches nobody), so the uniqueness query never raises
      NonUniqueResultException. */
  lemma EmailMatchesAtMostOne(customers: map<int, Customer>, nextId: int, bean: BeanValidation, email: Option<string>, id: Option<int>)
    requires TableInvariant(customers, nextId, bean)
    ensures |FindByEmail(customers, email)| <= 1
    ensures EmailAlreadyExists(customers, email, id) != Err(Other(NON_UNIQUE_MESSAGE))
  {
    var matches := FindByEmail(customers, email);
    forall j, k | j in matches && k in matches ensures j == k {
      assert customers[j].email == email == customers[k].email;
    }
    AtMostOne(matches);
  }

  /** Storing a validated customer under its own id, or under a new id when
      the email is free, keeps the invariant. The stored copy carries the
      key as id; Bean Validation does not look at the id. */
  lemma {:induction false} StoreValidated(customers: map<int, Customer>, nextId: int, bean: BeanValidation, c: Customer, key: int)
    requires TableInvariant(customers, nextId, bean)
    requires ValidateCustomer(c, customers, bean).Pass?
    requires bean(c.(id := Some(key))) == bean(c)
    requires (key == nextId && !(c.id.Some? && c.id.value in customers)) || (c.id == Some(key) && key in customers)
    ensures TableInvariant(customers[key := c.(id := Some(key))], if key == nextId then nextId + 1 else nextId, bean)
  {
    ValidatedEmailIsFree(c, customers, bean);
    var after := customers[key := c.(id := Some(key))];
    forall j, k | j in after && k in after && j != k && after[j].email.Some?
      ensures after[j].email != after[k].email
    {
      if j == key {
        assert k in customers && after[k] == customers[k];
      } else if k == key {
        assert j in customers && after[j] == customers[j];
      } else {
        assert after[j] == customers[j] && after[k] == customers[k];
      }
    }
  }

  /** The catch clauses of createCustomer: 201 with the stored customer, 400 with
      one entry per violated path, 409 keyed "email" for the uniqueness
      error, 400 keyed "error" otherwise. */
  function CreateCustomerResponse(outcome: Result<Customer>): (r: Response<Customer>)
    ensures outcome.Ok? ==> r == Response(CREATED, Body(outcome.value))
    ensures outcome.Err? && outcome.error.ConstraintViolation? ==>
      r.status == BAD_REQUEST && r.entity.Fields? && r.entity.fields.Keys == Paths(outcome.error.violations)
    ensures outcome.Err? && outcome.error.Validation? ==> r == Response(CONFLICT, Fields(map["email" := EMAIL_CONFLICT]))
    ensures outcome.Err? && (outcome.error.Other? || outcome.error.WebApplication?) ==>
      r == Response(BAD_REQUEST, Fields(map["error" := Message(outcome.error)]))
  {
    match outcome
    case Ok(v) => Response(CREATED, Body(v))
    case Err(e) =>
      match e
      case ConstraintViolation(vs) =>
        ViolationFieldsKeys(vs);
        Response(BAD_REQUEST, Fields(ViolationFields(vs)))
      case Validation(_) => Response(CONFLICT, Fields(map["email" := EMAIL_CONFLICT]))
      case _ => Response(BAD_REQUEST, Fields(map["error" := Message(e)]))
  }

  /** Registering a second customer with a taken email yields 409 with
      exactly one entry. */
  lemma DuplicateEmailConflict(c: Customer, customers: map<int, Customer>, bean: BeanValidation, k: int)
    requires bean(c) == [] && c.id.None? && c.email.Some?
    requires k in customers && customers[k].email == c.email
    requires forall j :: j in customers && j != k ==> customers[j].email != c.email
    ensures var r := CreateCustomerResponse(Err(ValidateCustomer(c, customers, bean).error));
      r.status == CONFLICT && |r.entity.fields| == 1
  {
    DuplicateEmailRefused(c, customers, bean, k);
  }

  /** In a consistent table, a valid customer that keeps its own stored
      email passes validation, so updating a customer never clashes with
      itself. */
  lemma OwnEmailAccepted(c: Customer, customers: map<int, Customer>, nextId: int, bean: BeanValidation, k: int)
    requires TableInvariant(customers, nextId, bean)
    requires bean(c) == [] && c.id == Some(k) && c.email.Some?
    requires k in customers && customers[k].email == c.email
    ensures ValidateCustomer(c, customers, bean) == Pass
  {
    var matches := FindByEmail(customers, c.email);
    forall j | j in matches ensures j == k {
      assert j in customers && customers[j].email == customers[k].email;
    }
    assert matches == {k};
  }

  class CustomerService {
    var customers: map<int, Customer>
    var nextId: int
    /** The Bean Validation constraints of Customer.java. */
    const bean: BeanValidation

    ghost predicate Valid()
      reads this
    {
      TableInvariant(customers, nextId, bean) &&
      forall c: Customer, k: int :: bean(c.(id := Some(k))) == bean(c)
    }

    /** An empty table; the constraints must not depend on the id, which
        the store assigns. */
    constructor (bean: BeanValidation)
      requires forall c: Customer, k: int :: bean(c.(id := Some(k))) == bean(c)
      ensures Valid() && customers == map[] && nextId == 1 && this.bean == bean
    {
      customers := map[];
      nextId := 1;
      this.bean := bean;
    }

    /** findById: the stored customer with that id, or null. */
    function FindById(id: int): (r: Option<Customer>)
      reads this
      ensures r.Some? <==> id in customers
      ensures r.Some? ==> r.value == customers[id]
    {
      if id in customers then Some(customers[id]) else None
    }

    /** findByLastName: as written it runs the first-name query, so it finds
        the customer whose FIRST name equals the argument. No match and
        several matches both escape as exceptions. */
    method FindByLastName(lastName: string) returns (r: Result<Customer>)
      ensures FindByFirstName(customers, lastName) == {} ==> r == Err(Other(NO_RESULT_MESSAGE))
      ensures |FindByFirstName(customers, lastName)| > 1 ==> r == Err(Other(NON_UNIQUE_MESSAGE))
      ensures r.Ok? <==> |FindByFirstName(customers, lastName)| == 1
      ensures r.Ok? ==> r.value in customers.Values && r.value.firstName == Some(lastName)
    {
      r := SingleResult(customers, FindByFirstName(customers, lastName));
    }

    /** create: validate, then persist with a fresh id. An invalid customer
        is never written; one that already has an id is refused by persist. */
    method Create(c: Customer) returns (r: Result<Customer>)
      requires Valid()
      modifies this
      ensures Valid()
      ensures ValidateCustomer(c, old(customers), bean).Fail? ==>
        r == Err(ValidateCustomer(c, old(customers), bean).error) && customers == old(customers) && nextId == old(nextId)
      ensures ValidateCustomer(c, old(customers), bean).Pass? && c.id.Some? ==>
        r == Err(Other(DETACHED_MESSAGE)) && customers == old(customers) && nextId == old(nextId)
      ensures ValidateCustomer(c, old(customers), bean).Pass? && c.id.None? ==>
        r == Ok(c.(id := Some(old(nextId)))) && customers == old(customers)[old(nextId) := r.value] && nextId == old(nextId) + 1
    {
      var v := ValidateCustomer(c, customers, bean);
      if v.Fail? {
        r := Err(v.error);
        return;
      }
      if c.id.Some? {
        r := Err(Other(DETACHED_MESSAGE));
        return;
      }
      StoreValidated(customers, nextId, bean, c, nextId);
      var stored := c.(id := Some(nextId));
      customers := customers[nextId := stored];
      nextId := nextId + 1;
      r := Ok(stored);
    }

    /** update: validate, then merge. A stored id is overwritten; a customer
        without an id, or with one that is not stored, is inserted as a copy
        under a fresh id. The argument itself is returned. */
    method Update(c: Customer) returns (r: Result<Customer>)
      requires Valid()
      modifies this
      ensures Valid()
      ensures ValidateCustomer(c, old(customers), bean).Fail? ==>
        r == Err(ValidateCustomer(c, old(customers), bean).error) && customers == old(customers) && nextId == old(nextId)
      ensures ValidateCustomer(c, old(customers), bean).Pass? && c.id.Some? && c.id.value in old(customers) ==>
        r == Ok(c) && customers == old(customers)[c.id.value := c] && nextId == old(nextId)
      ensures ValidateCustomer(c, old(customers), bean).Pass? && !(c.id.Some? && c.id.value in old(customers)) ==>
        r == Ok(c) && customers == old(customers)[old(nextId) := c.(id := Some(old(nextId)))] && nextId == old(nextId) + 1
    {
      var v := ValidateCustomer(c, customers, bean);
      if v.Fail? {
        r := Err(v.error);
        return;
      }
      if c.id.Some? && c.id.value in customers {
        StoreValidated(customers, nextId, bean, c, c.id.value);
        assert c.(id := Some(c.id.value)) == c;
        customers := customers[c.id.value := c];
      } else {
        StoreValidated(customers, nextId, bean, c, nextId);
        customers := customers[nextId := c.(id := Some(nextId))];
        nextId := nextId + 1;
      }
      r := Ok(c);
    }
  }
}
