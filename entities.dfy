/** Values shared by the server and the client: roles, the decoded token payload,
    menu items, order lines, the customer snapshot and an HTTP reply. */
module Entities {
  import opened JsRuntime

  /** The `Role` enumeration of the data store. */
  datatype Role = ADMIN | KITCHEN_STAFF | DELIVERY_STAFF | CUSTOMER_SUPPORT | CUSTOMER

  function RoleName(r: Role): string
  {
    match r
    case ADMIN => "ADMIN"
    case KITCHEN_STAFF => "KITCHEN_STAFF"
    case DELIVERY_STAFF => "DELIVERY_STAFF"
    case CUSTOMER_SUPPORT => "CUSTOMER_SUPPORT"
    case CUSTOMER => "CUSTOMER"
  }

  /** The store's reading of a role name: only the five enumeration names are roles. */
  function ParseRole(s: string): (r: Option<Role>)
    ensures r.Some? ==> RoleName(r.value) == s
  {
    if s == "ADMIN" then Some(ADMIN)
    else if s == "KITCHEN_STAFF" then Some(KITCHEN_STAFF)
    else if s == "DELIVERY_STAFF" then Some(DELIVERY_STAFF)
    else if s == "CUSTOMER_SUPPORT" then Some(CUSTOMER_SUPPORT)
    else if s == "CUSTOMER" then Some(CUSTOMER)
    else None
  }

  lemma ParseRoleName(r: Role)
    ensures ParseRole(RoleName(r)) == Some(r)
  {
  }

  /** Role names hold no colon, which keeps permission cache keys unambiguous. */
  lemma RoleNameHasNoColon(r: Role)
    ensures ':' !in RoleName(r)
  {
  }

  /** The payload signed into a token, and `req.user` once it is verified. */
  datatype Claims = Claims(userId: int, email: string, role: string, name: string)

  datatype MenuItem = MenuItem(id: nat, name: string, price: int, category: Option<string>)

  /** One entry of an order's `items`; prices are integer cents. */
  datatype OrderLine = OrderLine(id: int, name: string, price: int, quantity: Option<int>)

  datatype Customer = Customer(name: string, email: string, phoneNo: string, address: string)

  /** The status code and error text a handler answers with (empty text on success). */
  datatype Reply = Reply(code: nat, error: string)
}
