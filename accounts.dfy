/** The identity enums of the user table, and user ids. */
module Accounts {

  /** Row ids of the user table. The store hands them out, so they are fresh by construction. */
  type UserId = nat

  datatype Role = CUSTOMER | HOST | ADMIN

  datatype Status = ACTIVE | INACTIVE | BLOCKED
}
