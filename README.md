# A verified model of the GO-REST-API request core

GO-REST-API is a small Gin/GORM web service. Users register and log in with a
JSON body. A JWT comes back in a cookie and gates the product catalogue and
the profile pages by role. This project models, in Dafny, the decision logic
around the database and the framework:

- the role gate in front of the routes;
- the DTO projections that cut the cyclic user/product records to one level;
- the paging arithmetic and table operations of the two repositories;
- the registration and login rules of the use cases;
- the status-code decisions of the three controllers, with their route tables.

Layout, one module per Go file of the core plus shared modules:

| file | models |
|---|---|
| `table.dfy` | the lookup of a row by a key column and the increasing and distinct column invariants, shared by both repositories |
| `wrappers.dfy`, `failures.dfy` | `Option`; the error values (`gorm.ErrRecordNotFound`, the duplicate-email error, any other message), one `Fault` parameter per database query, and Go's `(value, error)` pair |
| `entity.dfy` | `cmd/entity/user.go`, `cmd/entity/product.go`, the route constants of `cmd/config/appConfig.go` |
| `dto.dfy` | `cmd/entity/dto/authDto.go` |
| `goint.dfy`, `strconv.dfy` | 64-bit integers with wrap-around; Go's `strconv.Atoi` and `strconv.ParseUint(s, 10, 64)` |
| `pagination.dfy` | the offset, limit and `TotalPages` arithmetic shared by both repositories |
| `http.dfy` | the request, the response a handler writes into the context, the context's keys and cookies, and the router group |
| `middleware.dfy` | `cmd/delivery/middlewares/auth.go` |
| `product_repository.dfy`, `user_repository.dfy` | the two repositories, as classes over an in-memory table |
| `user_usecase.dfy`, `auth_usecase.dfy` | the user and authentication use cases |
| `product_controller.dfy`, `user_controller.dfy`, `auth_controller.dfy` | the three controllers |

The project follows the source's own form:

- The repositories are classes whose `rows` field the mutating methods
  reassign.
- The index-filling conversion loops are `for` loops over arrays, proved
  against the functions that specify them.
- The middleware and the handlers are methods that write a `Context` object
  step by step, with early returns.
- Code that only computes is written as functions.

Storage faults are parameters: one per query the Go code issues. Password
hashing, hash checking and the token service are passed in as functions. The
current time is a parameter. The goroutine-and-channel wrappers only hand one
result back at once, so they are direct calls. The product use case only
forwards each call, so the controllers call the product store directly.

Points where the code departs from common REST practice, modelled as the code
behaves:

- A duplicate email at registration is a 500, not a client error.
- The product list passes negative page and size values on unchanged.
- The offset `(page-1)*size` is 64-bit arithmetic. A page number too large
  for Atoi is clamped to 2^63-1, and with size 10 the offset wraps to -20.
  The storage then drops the offset, so the first page comes back instead
  of an empty one.
- The create-product handler answers 200 through the single-response helper,
  although its own `@Success 201` annotation
  (`cmd/delivery/controllers/productController/productController.go:182`)
  announces 201.
- A value beyond 64 bits is a range error of `Atoi`, which also returns the
  nearest 64-bit bound. The product list ignores the error and uses that
  clamped page or size. The profile list stops the process (`log.Fatal`) on
  any `Atoi` error, that one included. A stock value that does not fit is
  refused with 400.

## Model

| member | source | states |
|---|---|---|
| Dto.ConvertProductToResponse | cmd/entity/dto/authDto.go:89-117 | the loop builds exactly the specified one-level response of the product |
| Dto.ConvertUserToResponse | cmd/entity/dto/authDto.go:120-148 | the loop builds exactly the specified one-level response of the user |
| Dto.ProductResponseIsTruncation | cmd/entity/dto/authDto.go:89-117 | the response carries back exactly the product with its users cut at one level; converting that truncation gives the same response; the user list is present (empty, not absent, when there are none), as long as the product's, and no entry carries a products list |
| Dto.UserResponseIsTruncation | cmd/entity/dto/authDto.go:120-148 | the same for a user and its products |
| Dto.ProductResponseFields | cmd/entity/dto/authDto.go:90-113 | the response's scalar fields and entry i's fields, password and role included, are the product's and user i's |
| GoInt.Wrap64 | cmd/repository/productRepository.go:104 | the result is a signed 64-bit value congruent to the exact product modulo 2^64, and equal to it when it fits |
| Strconv.ParseUint64 | cmd/delivery/controllers/productController/productController.go:94 | a parsed value lies in [0, 2^64-1] and comes only from a non-empty all-digit string; a range error carries 2^64-1 |
| Strconv.Atoi | cmd/delivery/controllers/userController/userController.go:33-41 | a parsed value is a 64-bit integer; a range error carries MinInt64 after a minus sign and MaxInt64 otherwise; the empty string is a syntax error |
| Strconv.AtoiAcceptsExactlyDecimals | cmd/delivery/controllers/userController/userController.go:33-41 | Atoi succeeds exactly on an optional sign followed by a non-empty digit string of magnitude at most 2^63 after a minus and 2^63-1 otherwise, and yields that signed value; a larger all-digit magnitude is a range error |
| Strconv.AtoiValue | cmd/delivery/controllers/productController/productController.go:40-41 | Atoi's value is always a 64-bit integer and is 0 on a syntax error |
| Strconv.DigitRunIsDigits | cmd/delivery/controllers/productController/productController.go:94 | the leading digit run holds only digits, and it is the whole string exactly when the string is all digits |
| Strconv.ParseUintAcceptsExactlyDecimals | cmd/delivery/controllers/productController/productController.go:94-98 | ParseUint succeeds exactly on non-empty all-digit strings of value at most 2^64-1, and then yields that value |
| Strconv.DecimalValueOfDecimal | cmd/delivery/controllers/productController/productController.go:94 | the decimal text of n reads back as n |
| Strconv.ParseUintOfDecimal | cmd/delivery/controllers/userController/userController.go:86 | every identifier up to 2^64-1 written in decimal parses to itself |
| Strconv.AtoiOfDecimal | cmd/delivery/controllers/productController/productController.go:144 | every 64-bit value written in decimal, with a minus sign when negative, parses to itself |
| Strconv.EmptyParsesAsZero | cmd/delivery/controllers/productController/productController.go:40-41 | the empty string is a syntax error for both parsers, so Atoi gives 0 |
| Pagination.Offset | cmd/repository/productRepository.go:104 | the offset is always a 64-bit value congruent to (page-1)*size modulo 2^64, and equal to it whenever that fits |
| Pagination.Window | cmd/repository/productRepository.go:115 | the page is no longer than the table, nor than a non-negative limit; from offset 0 or below it is the first min(limit, table length) rows, or the whole table for a negative limit; past the table it is empty; with no limit it is the rest of the table from the offset |
| Pagination.TotalPages | cmd/repository/userRepository.go:51 | with a positive size the count is non-negative and 0 exactly when the table is empty; with a negative size it is at most 0 |
| Pagination.PagingOf | cmd/repository/productRepository.go:134-139 | the descriptor holds the page, the size, the total and the page count |
| Pagination.TotalPagesIsCeiling | cmd/repository/productRepository.go:138 | the page count is the ceiling of total over size, for positive and for negative sizes |
| Pagination.TotalPagesZeroIffEmpty | cmd/repository/userRepository.go:51 | with size at least 1 there are no pages exactly when there are no rows |
| Pagination.OffsetExact | cmd/repository/userRepository.go:27 | the offset is (page-1)*size whenever that fits in 64 bits |
| Pagination.WindowPositions | cmd/repository/productRepository.go:115 | the page holds table positions [offset, offset+size), clipped to the table |
| Pagination.PagesArePrefix | cmd/repository/userRepository.go:37 | pages 1..n together are the first n*size rows |
| Pagination.PagesCoverTable | cmd/repository/productRepository.go:115-138 | pages 1..TotalPages together are the whole table |
| Pagination.PageBeyondLastIsEmpty | cmd/repository/productRepository.go:104-138 | a page past the last one is empty, as long as its offset (page-1)*size fits in 64 bits |
| Pagination.MaxPageWrapsToFirstPage | cmd/repository/productRepository.go:104-115 | page 2^63-1 with size 10 wraps the offset to -20, so the query answers with the first page |
| Pagination.TwentyFiveRowsMakeThreePages | cmd/repository/productRepository.go:138 | 25 rows in pages of 10 make 3 pages; an empty table makes 0 |
| Http.Context.SendError | cmd/delivery/middlewares/auth.go:42 | an error response sets the status and message and stops the handler chain |
| Http.RouterGroup.Handle | cmd/delivery/controllers/productController/productController.go:317 | registering appends one route under the group prefix |
| Middleware.TokenOf | cmd/delivery/middlewares/auth.go:33-53 | a non-empty stripped header is the token; otherwise a non-empty cookie's value is the token; a token found is never empty; there is none exactly when the stripped header is empty and the cookie is missing or empty |
| Middleware.Decide | cmd/delivery/middlewares/auth.go:26-79 | the token handed to the parser is the stripped header when non-empty, else the value of a non-empty cookie; no token is 401 "Please login first"; the request passes exactly when the token parses and its role is in the list; a user is stored exactly when the token parses |
| Middleware.IsValidRole | cmd/delivery/middlewares/auth.go:81-88 | true exactly when the role equals some listed role (so false for an empty list) |
| Middleware.RequireToken | cmd/delivery/middlewares/auth.go:26-79 | the step-by-step gate writes the response, the abort and the `user` key exactly as the decision says |
| Middleware.CookieTokenUsed | cmd/delivery/middlewares/auth.go:35-53 | with no header token, a non-empty cookie's value is exactly the token handed to the parser |
| Middleware.HeaderTokenWins | cmd/delivery/middlewares/auth.go:33-35 | a non-empty header token is used with "Bearer " removed, whatever the cookie holds |
| Middleware.TrimOnlyOnePrefix | cmd/delivery/middlewares/auth.go:33 | one "Bearer " is removed; a header without it is passed on unchanged |
| Middleware.MissingTokenIsUnauthorized | cmd/delivery/middlewares/auth.go:35-53 | no header token with a missing or empty cookie is 401 with no parse and no user |
| Middleware.ParseFailureIsServerError | cmd/delivery/middlewares/auth.go:55-60 | a token the parser refuses is 500, and no user is stored |
| Middleware.ParsedTokenOutcomes | cmd/delivery/middlewares/auth.go:62-77 | a parsed token always stores its user id; no role is 500, an unlisted role 403, a listed role passes |
| Table.IndexOf | cmd/repository/productRepository.go:154 | the position found is the first whose key column holds the value; none means no row holds it |
| Table.DistinctKeyIsFound | cmd/repository/userRepository.go:74 | with a distinct key column, the lookup finds the one row holding the value |
| ProductRepository.ProductStore.Row | cmd/repository/productRepository.go:154 | the row found has that identifier and is in the table; none means no row has it |
| ProductRepository.ProductStore.FindAll | cmd/repository/productRepository.go:97-142 | one converted response per row of the page window, in order, and the page descriptor; a count or fetch failure gives no list and the zero descriptor |
| ProductRepository.ProductStore.FindByStock | cmd/repository/productRepository.go:27-51 | the converted rows of that stock, in table order; a failure gives no list |
| ProductRepository.ProductStore.Create | cmd/repository/productRepository.go:54-78 | the payload is stored under the next identifier and its conversion returned; a failing read-back reports an error although the row is stored |
| ProductRepository.ProductStore.FindByID | cmd/repository/productRepository.go:145-164 | the converted row with that identifier, or the not-found error, or the failure |
| ProductRepository.ProductStore.UpdateByID | cmd/repository/productRepository.go:167-195 | an absent identifier is the not-found error and changes nothing; otherwise exactly that row is merged with the payload |
| ProductRepository.ProductStore.DeleteByID | cmd/repository/productRepository.go:81-94 | the table loses exactly the rows with that identifier |
| ProductRepository.ProductStore.ProductExists | cmd/usecase/productUsecase.go:127-149 | whether a row has that identifier, or the wrapped failure |
| ProductRepository.WithStock | cmd/repository/productRepository.go:36 | no more rows than the table, each of that stock |
| ProductRepository.WithoutId | cmd/repository/productRepository.go:88 | no more rows than the table, none with that identifier |
| ProductRepository.Merged | cmd/repository/productRepository.go:180 | the stored identifier, timestamps and users are kept |
| ProductRepository.MergedFields | cmd/repository/productRepository.go:180 | each of name, description, stock and price is the payload's when non-zero and the stored one otherwise; merging twice is merging once; an all-zero payload changes nothing |
| ProductRepository.WithStockExactly | cmd/repository/productRepository.go:36 | the stock filter keeps exactly the rows of that stock |
| ProductRepository.WithStockKeepsOrder | cmd/repository/productRepository.go:36 | the filter keeps table order |
| ProductRepository.WithoutIdMembers | cmd/repository/productRepository.go:88 | a row survives the delete exactly when it was in the table and has another identifier |
| ProductRepository.WithoutIdKeepsOrder | cmd/repository/productRepository.go:88 | deleting keeps exactly the other rows, in order |
| ProductRepository.DeleteRemovesOne | cmd/repository/productRepository.go:88 | deleting a stored identifier shortens the table by one |
| UserRepository.UserStore.FindAll | cmd/repository/userRepository.go:24-55 | one converted response per row of the page window and the page descriptor; a count failure returns before the fetch |
| UserRepository.UserStore.Create | cmd/repository/userRepository.go:57-62 | the payload is stored under the next identifier and its conversion is returned; a taken email is refused by the unique column |
| UserRepository.UserStore.FindByID | cmd/repository/userRepository.go:64-70 | the converted user with that identifier, the not-found error when there is none, or the failure |
| UserRepository.UserStore.FindByEmail | cmd/repository/userRepository.go:72-78 | the user with that email, read without products; no match is the not-found error with an empty response whose email is "" |
| UserRepository.EmailLookupIsUnique | cmd/entity/user.go:11 | with unique emails, the lookup finds the one row holding the email |
| UserUseCase.RegistrationError | cmd/usecase/userUsecase.go:34-45 | an empty email is always refused; a stored email is always refused, as a taken email when the lookup works; there is no error exactly when the email is non-empty, not stored and the insert works; an insert failure past the check is returned as that failure; a stored email the failed lookup missed is the unique column's duplicate-entry error |
| UserUseCase.RegisterNewUser | cmd/usecase/userUsecase.go:34-45 | refused registrations change nothing and return the empty response; otherwise exactly one user, stamped with the current time, is appended and returned |
| UserUseCase.FindAllUsers | cmd/usecase/userUsecase.go:25-27 | the repository's page, unchanged |
| UserUseCase.FindUserByEmail | cmd/usecase/userUsecase.go:30-32 | the repository's answer, unchanged |
| UserUseCase.FindUserByID | cmd/usecase/userUsecase.go:47-49 | the repository's answer, unchanged |
| AuthUseCase.NewUser | cmd/usecase/authUsecase.go:45-51 | the user built for registration carries the hashed password |
| AuthUseCase.FindUserByEmail | cmd/usecase/authUsecase.go:22-24 | the user use case's answer, unchanged |
| AuthUseCase.Login | cmd/usecase/authUsecase.go:26-37 | a failed lookup is the empty token with that error; a wrong password is the empty token with no error; an accepted password gives the token service's answer, or the empty token with its error; a token is only returned for a stored user with that email whose hash accepts the password |
| AuthUseCase.RegisterError | cmd/usecase/authUsecase.go:39-52 | a hashing error comes first; an empty or stored email is always an error; there is no error exactly when hashing works, the email is non-empty and not stored, and the insert works; once hashing works the error is the user use case's registration error for the hashed user |
| AuthUseCase.Register | cmd/usecase/authUsecase.go:39-52 | a hashing error stores nothing; a success stores the hashed password, never the plaintext, with names, email and role copied and the confirmation dropped |
| AuthController.LoginCookie | cmd/delivery/controllers/authController/authController.go:67 | the login cookie is `token` with the token, max-age 3600, HttpOnly |
| AuthController.LogoutCookie | cmd/delivery/controllers/authController/authController.go:133 | the logout cookie is `token`, emptied, already expired |
| AuthController.AuthController.LoginHandler | cmd/delivery/controllers/authController/authController.go:36-70 | a bad body is 400; a failed lookup or wrong password is 401 before the use case is called; a use-case error is 500; success sets the token cookie, and a cookie is only set for a stored user whose hash accepts the password |
| AuthController.AuthController.RegisterHandler | cmd/delivery/controllers/authController/authController.go:83-123 | a bad body or a mismatched confirmation is 400 with nothing stored; any use-case error is 500; success is 201 with id, "first last" as username, email, role and timestamps, and no password |
| AuthController.AuthController.LogoutHandler | cmd/delivery/controllers/authController/authController.go:131-136 | the token cookie is cleared and the answer is 200 |
| AuthController.AuthController.Route | cmd/delivery/controllers/authController/authController.go:139-143 | the three auth routes are registered without a gate |
| ProductController.ListPaging | cmd/delivery/controllers/productController/productController.go:40-48 | page and size are never 0: a value that Atoi reads as 0 (missing, unparsable or "0") becomes 1 for the page and 10 for the size; any other value is kept |
| ProductController.ProductController.GetAllHandler | cmd/delivery/controllers/productController/productController.go:39-79 | a store error is 500; an empty page is 404; otherwise the converted page and its descriptor |
| ProductController.ProductController.GetByIDHandler | cmd/delivery/controllers/productController/productController.go:92-130 | an identifier that is not an unsigned decimal is 400; absent, or 0, is 404; another error is 500; otherwise the converted product |
| ProductController.ProductController.GetByStockHandler | cmd/delivery/controllers/productController/productController.go:142-174 | a stock Atoi refuses is 400; a failure 500; no match 404; otherwise the converted matches |
| ProductController.ProductController.CreateHandler | cmd/delivery/controllers/productController/productController.go:186-211 | a bad body is 400 and stores nothing; a failure is 500; otherwise the stored product |
| ProductController.ProductController.UpdateHandler | cmd/delivery/controllers/productController/productController.go:226-262 | the identifier is checked before the body; an absent product is 404 and changes nothing; another error is 500; otherwise the merged row |
| ProductController.ProductController.DeleteHandler | cmd/delivery/controllers/productController/productController.go:275-314 | existence is checked first; an absent product is 404 and the delete never happens; a stored one is removed |
| ProductController.ProductController.Route | cmd/delivery/controllers/productController/productController.go:316-323 | the six product routes are registered with their role lists |
| ProductController.ListPagingDefaults | cmd/delivery/controllers/productController/productController.go:40-48 | a missing or unparsable page or size becomes 1 or 10 |
| ProductController.ListPagingKeepsNegatives | cmd/delivery/controllers/productController/productController.go:40-48 | page "-2" stays -2 while size "abc" becomes 10 |
| ProductController.PastLastPageIsEmpty | cmd/delivery/controllers/productController/productController.go:68-71 | with 25 products, page 4 of size 10 is empty, so the list answers 404 although rows exist |
| ProductController.RouteRoles | cmd/delivery/controllers/productController/productController.go:316-323 | customers reach only list and get-by-id; resellers and admins reach all six routes; "user" reaches none |
| ProductController.CustomerForbiddenOnStaffRoutes | cmd/delivery/controllers/productController/productController.go:319-322 | a customer's valid token is 403 on the stock, create, update and delete routes |
| UserController.ListPaging | cmd/delivery/controllers/userController/userController.go:33-48 | a value Atoi refuses stops the process; otherwise page and size are at least 1: a page below 1 becomes 1, a size below 1 becomes 10, and a parsed value of at least 1 is kept |
| UserController.UserController.GetAllHandler | cmd/delivery/controllers/userController/userController.go:32-74 | an unparsable page or size stops the process with nothing written; a store error is 500; otherwise the page, even when empty, is 200 |
| UserController.UserController.GetHandler | cmd/delivery/controllers/userController/userController.go:84-110 | an unparsable identifier stops the process; every lookup error, a storage failure included, is 404; a stored user is 200 with its response |
| UserController.UserController.SendPage | cmd/delivery/controllers/userController/userController.go:50-74 | once page and size are read: a count or fetch failure is 500 with its message; otherwise 200 with the converted page window and its descriptor |
| UserController.UserController.Route | cmd/delivery/controllers/userController/userController.go:112-115 | the two profile routes are registered with the user/admin gate |
| UserController.ListPagingDefaults | cmd/delivery/controllers/userController/userController.go:33-41 | missing page and size give 1 and 10 |
| UserController.ListPagingClampsNegatives | cmd/delivery/controllers/userController/userController.go:43-48 | page "-2" becomes 1 here, where the product list keeps it |
| UserController.EmptySizeIsFatal | cmd/delivery/controllers/userController/userController.go:38-41 | a size given as "" does not parse and stops the process |
| UserController.CustomerAndResellerForbidden | cmd/delivery/controllers/userController/userController.go:113-114 | customer and reseller tokens are 403 on both profile routes |

## Left out

- Concurrency: each goroutine-and-channel wrapper is a direct call, since it hands back one result at once.
- The token service (signing, expiry, verification): the parser and the token maker are function parameters.
- Password hashing and checking: the bcrypt-class helpers are function parameters.
- GORM behaviour beyond what the repository code does:
  - deleted rows are removed from the table rather than soft-deleted and hidden;
  - `CreatedAt`/`UpdatedAt` are not stamped automatically;
  - `Updates` does not refresh `UpdatedAt`;
  - a payload's own identifier is ignored on create;
  - preloading is the row's stored association list.
- The many-to-many enrollment table: each row carries its association list directly.
- Floating point: `Price` is a `real`. `TotalPages` is the exact ceiling. The float64 rounding of `math.Ceil` on values beyond 2^53 is not modelled.
- JSON binding: a body either decodes to the DTO or is refused with the decoder's message; the decoder is not modelled.
- `log.Fatal` stops the process; the model only records that the process stopped, with no response.
- The log lines and `fmt.Println` output of the middleware and repositories.
- The `role.(string)` type assertion, which panics on a non-string role: the role claim is an optional string.
- `ctx.Cookie` unescaping of cookie values, header binding errors (only logged by the source), and `ctx.Next()` itself: an allowed request writes nothing and the chain goes on.
- The shared response helpers are not shown in the source. Their statuses are inferred: error responses stop the chain; single, paged and success responses are 200; created is 201.
- ProductRepository.Merged: GORM's struct `Updates` also writes a payload's non-zero `ID`, `CreatedAt`, `UpdatedAt`, `DeletedAt` and `Users`; the model applies only name, description, stock and price from the payload.
- `AuthResponseRegisterDto` is declared but never used.
- Server wiring, database connection, migration, Swagger, the configuration loader and `main`.
- `time.Now`: the current time is a parameter.
- ProductRepository.ProductStore.FindAll: a zero size is excluded by its precondition; both callers replace 0 before calling.
- UserRepository.UserStore.FindAll: same precondition, for the same reason.
