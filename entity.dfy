/**
 * The stored records (cmd/entity) and the routing constants (cmd/config).
 *
 * `gorm.Model` contributes the identifier and the three timestamps; a
 * soft-delete timestamp is optional. Instants are abstract integers. The price
 * is a float64 in the source; the model only copies and compares it, so a real
 * number stands in for it.
 */
module Entity {
  import opened Wrappers

  type Time = int

  datatype User = User(
    id: nat,
    createdAt: Time,
    updatedAt: Time,
    deletedAt: Option<Time>,
    firstName: string,
    lastName: string,
    email: string,
    password: string,
    role: string,
    products: seq<Product>)

  datatype Product = Product(
    id: nat,
    createdAt: Time,
    updatedAt: Time,
    deletedAt: Option<Time>,
    name: string,
    description: string,
    stock: int,
    price: real,
    users: seq<User>)

  /** Routing constants. */
  const ApiGroup := "/api/v1"
  const GetProductsList := "/products"
  const GetProducts := "/products/:id"
  const GetProductsByStocks := "/products/stock/:stock"
  const PostProducts := "/products"
  const PutProducts := "/products/:id"
  const DelProducts := "/products/:id"
  const GetUsersList := "/profiles"
  const GetUsers := "/profiles/:id"
  const PostRegister := "/auth/register"
  const PostLogin := "/auth/login"
  const GetLogout := "/auth/logout"
}
