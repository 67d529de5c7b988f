/**
 * The response records of cmd/entity/dto and the two converters.
 *
 * `User` and `Product` refer to each other; the response records cut that
 * cycle after one level: a product lists its users without their products,
 * a user lists its products without their users. A Go nil slice is `None`, an
 * empty one `Some([])`.
 */
module Dto {
  import opened Wrappers
  import opened Entity

  datatype AuthRequestRegisterDto = AuthRequestRegisterDto(
    firstName: string,
    lastName: string,
    email: string,
    password: string,
    passwordConfirm: string,
    role: string)

  datatype AuthRequestLoginDto = AuthRequestLoginDto(email: string, password: string)

  datatype AuthResponseDto = AuthResponseDto(token: string)

  datatype ProductWithoutUsers = ProductWithoutUsers(
    id: nat,
    createdAt: Time,
    updatedAt: Time,
    deletedAt: Option<Time>,
    name: string,
    description: string,
    stock: int,
    price: real)

  /** `products` is an untyped slot in the source that the converters never fill. */
  datatype UserWithoutProducts = UserWithoutProducts(
    id: nat,
    createdAt: Time,
    updatedAt: Time,
    deletedAt: Option<Time>,
    firstName: string,
    lastName: string,
    email: string,
    password: string,
    role: string,
    products: Option<seq<ProductWithoutUsers>>)

  datatype ProductWithUsers = ProductWithUsers(
    id: nat,
    createdAt: Time,
    updatedAt: Time,
    deletedAt: Option<Time>,
    name: string,
    description: string,
    stock: int,
    price: real,
    users: Option<seq<UserWithoutProducts>>)

  datatype UserWithProducts = UserWithProducts(
    id: nat,
    createdAt: Time,
    updatedAt: Time,
    deletedAt: Option<Time>,
    firstName: string,
    lastName: string,
    email: string,
    password: string,
    role: string,
    products: Option<seq<ProductWithoutUsers>>)

  /** Go's zero values of the response records, returned beside an error. */
  const EmptyProduct := ProductWithUsers(0, 0, 0, None, "", "", 0, 0.0, None)
  const EmptyUser := UserWithProducts(0, 0, 0, None, "", "", "", "", "", None)
  const EmptyToken := AuthResponseDto("")

  /** One entry of a product's user list. */
  function UserEntry(u: User): UserWithoutProducts
  {
    UserWithoutProducts(u.id, u.createdAt, u.updatedAt, u.deletedAt,
                        u.firstName, u.lastName, u.email, u.password, u.role, None)
  }

  /** One entry of a user's product list. */
  function ProductEntry(p: Product): ProductWithoutUsers
  {
    ProductWithoutUsers(p.id, p.createdAt, p.updatedAt, p.deletedAt,
                        p.name, p.description, p.stock, p.price)
  }

  /** What ConvertProductToResponse computes. */
  function ProductResponse(p: Product): ProductWithUsers
  {
    ProductWithUsers(p.id, p.createdAt, p.updatedAt, p.deletedAt,
                     p.name, p.description, p.stock, p.price,
                     Some(seq(|p.users|, i requires 0 <= i < |p.users| => UserEntry(p.users[i]))))
  }

  /** What ConvertUserToResponse computes. */
  function UserResponse(u: User): UserWithProducts
  {
    UserWithProducts(u.id, u.createdAt, u.updatedAt, u.deletedAt,
                     u.firstName, u.lastName, u.email, u.password, u.role,
                     Some(seq(|u.products|, i requires 0 <= i < |u.products| => ProductEntry(u.products[i]))))
  }

  method ConvertProductToResponse(product: Product) returns (r: ProductWithUsers)
    ensures r == ProductResponse(product)
  {
    r := ProductWithUsers(product.id, product.createdAt, product.updatedAt, product.deletedAt,
                          product.name, product.description, product.stock, product.price, Some([]));
    for i := 0 to |product.users|
      invariant r.(users := None) == ProductResponse(product).(users := None)
      invariant r.users.Some? && |r.users.value| == i
      invariant forall k :: 0 <= k < i ==> r.users.value[k] == UserEntry(product.users[k])
    {
      r := r.(users := Some(r.users.value + [UserEntry(product.users[i])]));
    }
    assert r.users.value == ProductResponse(product).users.value;
  }

  method ConvertUserToResponse(user: User) returns (r: UserWithProducts)
    ensures r == UserResponse(user)
  {
    r := UserWithProducts(user.id, user.createdAt, user.updatedAt, user.deletedAt,
                          user.firstName, user.lastName, user.email, user.password, user.role, Some([]));
    for i := 0 to |user.products|
      invariant r.(products := None) == UserResponse(user).(products := None)
      invariant r.products.Some? && |r.products.value| == i
      invariant forall k :: 0 <= k < i ==> r.products.value[k] == ProductEntry(user.products[k])
    {
      r := r.(products := Some(r.products.value + [ProductEntry(user.products[i])]));
    }
    assert r.products.value == UserResponse(user).products.value;
  }

  // ---- What the projections keep and what they cut off ----

  /** A product whose users carry no products: all that a response can describe. */
  function TruncatedProduct(p: Product): Product
  {
    p.(users := seq(|p.users|, i requires 0 <= i < |p.users| => p.users[i].(products := [])))
  }

  /** A user whose products carry no users. */
  function TruncatedUser(u: User): User
  {
    u.(products := seq(|u.products|, i requires 0 <= i < |u.products| => u.products[i].(users := [])))
  }

  function UserOfEntry(e: UserWithoutProducts): User
  {
    User(e.id, e.createdAt, e.updatedAt, e.deletedAt, e.firstName, e.lastName, e.email, e.password, e.role, [])
  }

  function ProductOfEntry(e: ProductWithoutUsers): Product
  {
    Product(e.id, e.createdAt, e.updatedAt, e.deletedAt, e.name, e.description, e.stock, e.price, [])
  }

  /** Reads a product back from its response; an absent list reads as no users. */
  function ProductOfResponse(r: ProductWithUsers): Product
  {
    var us := if r.users.Some? then r.users.value else [];
    Product(r.id, r.createdAt, r.updatedAt, r.deletedAt, r.name, r.description, r.stock, r.price,
            seq(|us|, i requires 0 <= i < |us| => UserOfEntry(us[i])))
  }

  function UserOfResponse(r: UserWithProducts): User
  {
    var ps := if r.products.Some? then r.products.value else [];
    User(r.id, r.createdAt, r.updatedAt, r.deletedAt, r.firstName, r.lastName, r.email, r.password, r.role,
         seq(|ps|, i requires 0 <= i < |ps| => ProductOfEntry(ps[i])))
  }

  /**
   * The product response keeps exactly the one-level truncation of the product:
   * reading it back gives the truncated product, every nested user entry has no
   * product list, the list is present (empty when the product has no users), and
   * what lies below the first level never influences the response.
   */
  lemma {:induction false} ProductResponseIsTruncation(p: Product)
    ensures ProductOfResponse(ProductResponse(p)) == TruncatedProduct(p)
    ensures ProductResponse(TruncatedProduct(p)) == ProductResponse(p)
    ensures ProductResponse(p).users.Some? && |ProductResponse(p).users.value| == |p.users|
    ensures forall e <- ProductResponse(p).users.value :: e.products.None?
  {
    var us := ProductResponse(p).users.value;
    var back := ProductOfResponse(ProductResponse(p));
    assert |back.users| == |TruncatedProduct(p).users|;
    forall i | 0 <= i < |p.users|
      ensures back.users[i] == TruncatedProduct(p).users[i]
    {
      assert us[i] == UserEntry(p.users[i]);
      assert back.users[i] == UserOfEntry(us[i]);
    }
    assert back.users == TruncatedProduct(p).users;
    var again := ProductResponse(TruncatedProduct(p)).users.value;
    assert |again| == |us|;
    forall i | 0 <= i < |us|
      ensures again[i] == us[i]
    {
      assert TruncatedProduct(p).users[i] == p.users[i].(products := []);
      assert again[i] == UserEntry(TruncatedProduct(p).users[i]);
    }
    assert again == us;
  }

  /** The user response keeps exactly the one-level truncation of the user. */
  lemma {:induction false} UserResponseIsTruncation(u: User)
    ensures UserOfResponse(UserResponse(u)) == TruncatedUser(u)
    ensures UserResponse(TruncatedUser(u)) == UserResponse(u)
    ensures UserResponse(u).products.Some? && |UserResponse(u).products.value| == |u.products|
  {
    var ps := UserResponse(u).products.value;
    var back := UserOfResponse(UserResponse(u));
    assert |back.products| == |TruncatedUser(u).products|;
    forall i | 0 <= i < |u.products|
      ensures back.products[i] == TruncatedUser(u).products[i]
    {
      assert ps[i] == ProductEntry(u.products[i]);
      assert back.products[i] == ProductOfEntry(ps[i]);
    }
    assert back.products == TruncatedUser(u).products;
    var again := UserResponse(TruncatedUser(u)).products.value;
    assert |again| == |ps|;
    forall i | 0 <= i < |ps|
      ensures again[i] == ps[i]
    {
      assert TruncatedUser(u).products[i] == u.products[i].(users := []);
      assert again[i] == ProductEntry(TruncatedUser(u).products[i]);
    }
    assert again == ps;
  }

  /**
   * Entry i of the product response is user i's own fields, password and role
   * included, and the top-level fields are the product's.
   */
  lemma ProductResponseFields(p: Product, i: nat)
    requires i < |p.users|
    ensures var r := ProductResponse(p);
      && r.id == p.id && r.createdAt == p.createdAt && r.updatedAt == p.updatedAt
      && r.deletedAt == p.deletedAt && r.name == p.name && r.description == p.description
      && r.stock == p.stock && r.price == p.price
      && r.users.value[i].id == p.users[i].id && r.users.value[i].email == p.users[i].email
      && r.users.value[i].password == p.users[i].password && r.users.value[i].role == p.users[i].role
      && r.users.value[i].firstName == p.users[i].firstName && r.users.value[i].lastName == p.users[i].lastName
  {
  }
}
