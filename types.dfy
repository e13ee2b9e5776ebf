/** The records the storefront passes around: the backend's models
    (backend/internal/models/types.go) and the client's view of the same
    JSON (src/types.ts). Prices are exact integer cents. */
module Types {
  import opened Common

  // ---- Product categories -------------------------------------------------

  const Eastern: string := "eastern"
  const Western: string := "western"

  /** `ProductCategory.IsValid`: exactly the two lower-case category tags. */
  predicate CategoryIsValid(c: string)
  {
    c == Eastern || c == Western
  }

  /** Any string that is not literally one of the two tags is rejected:
      the empty string, other casings, tags with surrounding blanks. */
  lemma CategoryIsValidRejects(c: string)
    requires c != Eastern && c != Western
    ensures !CategoryIsValid(c)
  {
  }

  // ---- Catalog and cart records -------------------------------------------

  /** A paid add-on (`CustomizationOption`). */
  datatype CustomizationOption = CustomizationOption(id: string, name: string, price: int)

  /** A menu item. The category is kept as the string the backend stores:
      the type on the client is a two-valued union, but the JSON it is read
      from is whatever `CreateProduct` accepted. */
  datatype Product = Product(id: int, name: string, price: int, description: string, category: string)

  /** A cart line (`CartItem`); `customizations` is optional in the record,
      `None` standing for `undefined`. */
  datatype CartLine = CartLine(
    product: Product,
    quantity: int,
    portionSize: string,
    customizations: Option<seq<CustomizationOption>>)

  // ---- Orders -------------------------------------------------------------

  datatype OrderItem = OrderItem(
    productId: int,
    quantity: int,
    portionSize: string,
    customizations: seq<CustomizationOption>)

  datatype Order = Order(
    id: int,
    userId: int,
    items: seq<OrderItem>,
    totalPrice: int,
    status: string,
    createdAt: string)

  const Pending: string := "pending"
  const Completed: string := "completed"
  const Cancelled: string := "cancelled"

  /** The statuses the `Order.Status` field is documented to hold. */
  predicate IsDocumentedStatus(s: string)
  {
    s == Pending || s == Completed || s == Cancelled
  }

  // ---- Users and tokens ---------------------------------------------------

  const Admin: string := "admin"
  const Customer: string := "customer"

  /** The roles `User.Role` and `Claims.Role` are documented to hold. */
  predicate IsDocumentedRole(r: string)
  {
    r == Admin || r == Customer
  }

  datatype User = User(id: int, email: string, password: string, role: string, name: string)

  /** JWT claims; the registered claims are reduced to issue and expiry
      times in seconds. */
  datatype Claims = Claims(userId: int, email: string, role: string, issuedAt: int, expiresAt: int)

  datatype LoginRequest = LoginRequest(email: string, password: string)
  datatype RegisterRequest = RegisterRequest(email: string, password: string, name: string)
  datatype AuthResponse = AuthResponse(token: string, user: User)

  /** Customer feedback; `productId` is a nullable pointer in the source. */
  datatype Feedback = Feedback(
    id: int,
    name: string,
    email: string,
    rating: int,
    comment: string,
    productId: Option<int>,
    productName: string,
    date: string)

  /** The JSON object keys a `User` is encoded with: `password` carries
      `omitempty`, every other field is always written. */
  function UserJsonKeys(u: User): (keys: set<string>)
    ensures "password" in keys <==> u.password != ""
    ensures {"id", "email", "role", "name"} <= keys
  {
    {"id", "email", "role", "name"} + (if u.password == "" then {} else {"password"})
  }

  /** A user whose password was cleared is written without a password key. */
  function WithoutPassword(u: User): (r: User)
    ensures "password" !in UserJsonKeys(r)
    ensures r.id == u.id && r.email == u.email && r.role == u.role && r.name == u.name
  {
    u.(password := "")
  }
}
