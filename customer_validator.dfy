/** CustomerValidator: Bean Validation first, then email uniqueness, with
    the customer being updated exempt from clashing with itself. */
module CustomerValidation {
  import opened Common
  import opened Customers

  const UNIQUE_EMAIL_MESSAGE := "Unique Email Violation"

  /** emailAlreadyExists: some customer has the email, unless the stored
      customer with the given id has it itself. Comparing with that
      customer's email dereferences it, so a stored customer without an
      email raises a NullPointerException. */
  function EmailAlreadyExists(customers: map<int, Customer>, email: Option<string>, id: Option<int>): (r: Result<bool>)
    ensures FindByEmail(customers, email) == {} ==> r == Ok(false)
    ensures |FindByEmail(customers, email)| == 1 && id.None? ==> r == Ok(true)
    ensures |FindByEmail(customers, email)| == 1 && id.Some? && id.value in customers && customers[id.value].email.None? ==>
      r == Err(Other(NULL_POINTER_MESSAGE))
    ensures |FindByEmail(customers, email)| == 1 && id.Some? && !(id.value in customers && customers[id.value].email.None?) ==>
      r == Ok(!(id.value in customers && customers[id.value].email == email))
    ensures |FindByEmail(customers, email)| > 1 ==> r == Err(Other(NON_UNIQUE_MESSAGE))
  {
    match SingleMatch(FindByEmail(customers, email))
    case Err(e) => Err(e)
    case Ok(found) =>
      if found && id.Some? && id.value in customers && customers[id.value].email.None? then Err(Other(NULL_POINTER_MESSAGE))
      else
        var self := id.Some? && id.value in customers && customers[id.value].email == email;
        Ok(found && !self)
  }

  /** validateCustomer: bean violations are reported before uniqueness is
      looked at; a clashing email raises a ValidationException. */
  function ValidateCustomer(c: Customer, customers: map<int, Customer>, bean: BeanValidation): (r: Outcome)
    ensures bean(c) != [] ==> r == Fail(ConstraintViolation(bean(c)))
    ensures bean(c) == [] ==> (r.Pass? <==> EmailAlreadyExists(customers, c.email, c.id) == Ok(false))
    ensures bean(c) == [] && EmailAlreadyExists(customers, c.email, c.id) == Ok(true) ==>
      r == Fail(Validation(UNIQUE_EMAIL_MESSAGE))
    ensures bean(c) == [] && EmailAlreadyExists(customers, c.email, c.id).Err? ==>
      r == Fail(EmailAlreadyExists(customers, c.email, c.id).error)
  {
    var vs := bean(c);
    if vs != [] then Fail(ConstraintViolation(vs))
    else
      match EmailAlreadyExists(customers, c.email, c.id)
      case Err(e) => Fail(e)
      case Ok(clash) => if clash then Fail(Validation(UNIQUE_EMAIL_MESSAGE)) else Pass
  }

  /** A customer that passes validation shares its email with no stored
      customer other than the one with its own id. */
  lemma {:induction false} ValidatedEmailIsFree(c: Customer, customers: map<int, Customer>, bean: BeanValidation)
    requires ValidateCustomer(c, customers, bean).Pass?
    ensures bean(c) == []
    ensures forall k :: k in customers && c.email.Some? && customers[k].email == c.email ==> c.id == Some(k)
  {
    var matches := FindByEmail(customers, c.email);
    forall k | k in customers && c.email.Some? && customers[k].email == c.email ensures c.id == Some(k) {
      assert k in matches;
      assert |matches| == 1;
      var id := c.id.value;
      assert id in customers && customers[id].email == c.email;
      SingletonMembers(matches, k, id);
    }
  }

  /** A new customer (no id) whose email is taken is refused with the
      uniqueness error, once its fields are valid. */
  lemma DuplicateEmailRefused(c: Customer, customers: map<int, Customer>, bean: BeanValidation, k: int)
    requires bean(c) == [] && c.id.None? && c.email.Some?
    requires k in customers && customers[k].email == c.email
    requires forall j :: j in customers && j != k ==> customers[j].email != c.email
    ensures ValidateCustomer(c, customers, bean) == Fail(Validation(UNIQUE_EMAIL_MESSAGE))
  {
    var matches := FindByEmail(customers, c.email);
    forall j | j in matches ensures j == k {
      assert j in customers && customers[j].email == c.email;
    }
    assert matches == {k};
  }
}
