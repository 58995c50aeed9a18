/** The customer entity as the customer services see it. Its Bean
    Validation constraints live in Customer.java, which is not part of this
    model, so they enter as a function from a customer to its violations. */
module Customers {
  import opened Common

  datatype Customer = Customer(
    id: Option<int>,
    firstName: Option<string>,
    lastName: Option<string>,
    email: Option<string>,
    phoneNumber: Option<string>)

  /** The Bean Validation of a customer, whatever its constraints are. */
  type BeanValidation = Customer -> seq<Violation>

  /** FIND_BY_EMAIL: the ids of the customers with exactly that email. A
      null parameter matches no row, as `email = NULL` is never true. */
  function FindByEmail(customers: map<int, Customer>, email: Option<string>): set<int> {
    if email.None? then {} else Matching(customers, (c: Customer) => c.email, email.value)
  }

  /** The criteria query on the firstName column. */
  function FindByFirstName(customers: map<int, Customer>, firstName: string): set<int> {
    Matching(customers, (c: Customer) => c.firstName, firstName)
  }
}
