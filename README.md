# Order service: order amount, login filter and store access rules

A Dafny model of three small pieces of logic in an e-commerce order/store
backend. The rest of that backend forwards requests to services and
repositories. The three pieces are:

- **The order entity** (`OrderEntity`). An `Order` owns a mutable list of
  line items. An item can be appended, or the whole list can be cleared
  and refilled from another list. A pending payment is created whose
  amount is the sum of price × quantity over the items. The Java list is
  modelled as an object (`ProductList`). Two names can therefore denote
  the same list, and the model captures what happens when the order's
  list is refilled from itself.
- **The login filter** (`LoginFilter`). It first decides where to read the
  credentials from. If the content type contains `application/json` they
  come from the parsed JSON body; otherwise from the form fields. Then it
  checks for missing values and hands the pair to the authentication
  manager. On success it takes the first granted authority as the role
  and issues an access token and a refresh token. It saves the refresh
  token and answers 200, with the `access` header and an HttpOnly
  `refresh` cookie. On failure it answers 401 with one fixed message.
- **The store controller** (`StoreController`). It normalizes the page
  size to 10, 30 or 50. It runs an owner-or-admin check before updating or
  deleting a store; the two checks compare against different admin
  strings, `"ADMIN"` and `"ROLE_ADMIN"`. Category and region changes need a
  role exactly equal to `"ROLE_MASTER"`. A new store is recorded as created
  by the token's username. Each handler either yields one service call
  (`Proceed`) or is refused (`Refused`) without any mutating service call.
  The update and delete handlers look the store up before their check.

Collaborators that are not part of this model become parameters:

- The authentication manager is a function from credentials to an
  authentication or a refusal.
- The token issuer (`createJwt`) is an uninterpreted function of (type,
  username, role, ttl).
- The token decoder is a pair of uninterpreted functions (`getUsername`,
  `getRole`).
- The refresh-token store behind the token reissue service is a map from
  username to (token, ttl). A save replaces the previous entry.

The store service is represented only by the service calls the handlers
make.

Behaviour of the code worth noting:

- On the JSON path `String.valueOf` turns a missing key into the string
  `"null"`, so only the form path can report "Username or Password is
  missing" (`JsonMissingKeyBecomesNull`).
- The refresh cookie lasts one day (86400 s), while the refresh token
  lives 100 days.
- The code gives the access token 1000 days (`600000·60·24·100` ms), ten
  times the refresh token's lifetime, although its comment says 100 days
  (`TtlValues`).
- The failure response has HTTP status 401, but its body carries the code
  `BAD_REQUEST`.

## Model

| member | source | states |
|---|---|---|
| `OrderEntity.SumAppend` | src/main/java/com/teamsparta14/order_service/order/entity/Order.java:61-67 | appending an item adds exactly its price × quantity to the amount |
| `OrderEntity.Order.GetAmount` | src/main/java/com/teamsparta14/order_service/order/entity/Order.java:61-67 | the accumulator loop returns the sum of price × quantity over the list in list order, 0 for an empty list |
| `OrderEntity.Order.AddOrderProductsList` | src/main/java/com/teamsparta14/order_service/order/entity/Order.java:48-50 | the list becomes the old list with the item added at the end; the amount grows by the item's line total; no field of the order changes |
| `OrderEntity.Order.CreatePayment` | src/main/java/com/teamsparta14/order_service/order/entity/Order.java:53-58 | payment becomes PENDING with the amount of the current items and the order's user name; the list and all other fields are unchanged |
| `OrderEntity.Order.UpdateOrderProductList` | src/main/java/com/teamsparta14/order_service/order/entity/Order.java:69-74 | the list equals the given list element for element; when the given list is the order's own list, the result is empty; only the order's list changes |
| `OrderEntity.Order.constructor` | src/main/java/com/teamsparta14/order_service/order/entity/Order.java:21-46 | the all-arguments construction sets every field of the entity |
| `LoginFilter.ContainsIff` | src/main/java/com/teamsparta14/order_service/user/jwt/LoginFilter.java:55 | the content-type test holds exactly when "application/json" occurs at some index of the content type |
| `LoginFilter.ValueOf` | src/main/java/com/teamsparta14/order_service/user/jwt/LoginFilter.java:61-62 | a missing key and a JSON null both render as "null"; any other value renders as its string form |
| `LoginFilter.ExtractCredentials` | src/main/java/com/teamsparta14/order_service/user/jwt/LoginFilter.java:51-74 | when the content type is present and contains "application/json", credentials come from the JSON body, and a parse failure gives "Failed to parse JSON request"; otherwise they come from the form fields, and "Username or Password is missing" is reported exactly when a form field is absent; these are the only failures |
| `LoginFilter.JsonMissingKeyBecomesNull` | src/main/java/com/teamsparta14/order_service/user/jwt/LoginFilter.java:61-74 | on the JSON path a missing password key is no failure: the password handed on is "null" |
| `LoginFilter.LoginFilter.AttemptAuthentication` | src/main/java/com/teamsparta14/order_service/user/jwt/LoginFilter.java:72-78 | a failed extraction is returned as is; success happens exactly when extraction succeeds and the authenticator accepts the extracted pair; an authenticator refusal is returned as `Rejected` with its reason, and every `Rejected` comes from such a refusal |
| `LoginFilter.LoginFilter.AuthenticatorNotConsultedOnFailure` | src/main/java/com/teamsparta14/order_service/user/jwt/LoginFilter.java:72-78 | when extraction fails, the outcome is the same whatever the authenticator, so the authenticator is not consulted |
| `LoginFilter.LoginFilter.JsonAndFormAgree` | src/main/java/com/teamsparta14/order_service/user/jwt/LoginFilter.java:55-78 | a JSON request and a form request that carry the same username and password give the same outcome |
| `LoginFilter.LoginFilter.SuccessfulAuthentication` | src/main/java/com/teamsparta14/order_service/user/jwt/LoginFilter.java:84-116 | with no authority: fails with "User not found" and changes neither response nor store; otherwise both tokens carry the name and the first authority, with types "access"/"refresh" and TTLs 86400000000/8640000000 ms; the store records the refresh token and its TTL for the username; the response has status 200, header `access`, a new HttpOnly `refresh` cookie with max-age 86400 and the success body |
| `LoginFilter.LoginFilter.UnsuccessfulAuthentication` | src/main/java/com/teamsparta14/order_service/user/jwt/LoginFilter.java:120-131 | whatever the failure, the status is 401 and the one fixed message is written; headers and cookies are unchanged |
| `LoginFilter.LoginFilter.CreateCookie` | src/main/java/com/teamsparta14/order_service/user/jwt/LoginFilter.java:133-144 | a fresh cookie with the given name and value, max-age 24·60·60 s, HttpOnly set |
| `LoginFilter.LoginFilter.constructor` | src/main/java/com/teamsparta14/order_service/user/jwt/LoginFilter.java:35-43 | keeps the collaborators and sets the login URL to /api/auth/login |
| `LoginFilter.TtlValues` | src/main/java/com/teamsparta14/order_service/user/jwt/LoginFilter.java:98-101 | refresh TTL is 100 days, access TTL 1000 days (ten times the refresh TTL), cookie max-age one day, shorter than the refresh TTL |
| `LoginFilter.RefreshTokenStore.RefreshTokenSave` | src/main/java/com/teamsparta14/order_service/user/jwt/LoginFilter.java:101 | the username's record becomes (refresh, ttl); every other record is unchanged |
| `LoginFilter.ReplayLastWriteWins` | src/main/java/com/teamsparta14/order_service/user/jwt/LoginFilter.java:101 | after any series of saves (each successful login performs exactly one), each user's record is that of its latest save, and users with no save keep their old record; this rests on the save being an upsert |
| `StoreController.NormalizePageSize` | src/main/java/com/teamsparta14/order_service/store/controller/StoreController.java:47-49 | the size used is one of 10, 30, 50: the requested size if it is one of them, 10 otherwise |
| `StoreController.NormalizePageSizeIdempotent` | src/main/java/com/teamsparta14/order_service/store/controller/StoreController.java:47-49 | normalizing twice equals normalizing once |
| `StoreController.GetAllStores` | src/main/java/com/teamsparta14/order_service/store/controller/StoreController.java:41-55 | always lists, with the normalized page size and page, status and sort passed on unchanged |
| `StoreController.CreateStore` | src/main/java/com/teamsparta14/order_service/store/controller/StoreController.java:67-74 | the store is created with createdBy equal to the username decoded from the `access` token |
| `StoreController.UpdateStore` | src/main/java/com/teamsparta14/order_service/store/controller/StoreController.java:77-97 | proceeds to the update call exactly when the user holds "ADMIN" or created the store; otherwise it is refused with the update message and no update call is made |
| `StoreController.DeleteStore` | src/main/java/com/teamsparta14/order_service/store/controller/StoreController.java:100-119 | proceeds to the delete call exactly when the user holds "ROLE_ADMIN" or created the store; otherwise it is refused with the delete message and no delete call is made |
| `StoreController.UpdateAndDeleteDisagreeIff` | src/main/java/com/teamsparta14/order_service/store/controller/StoreController.java:87-115 | update and delete permissions differ exactly for a non-creator holding one of "ADMIN" and "ROLE_ADMIN" but not the other |
| `StoreController.RoleAdminDeletesButCannotUpdate` | src/main/java/com/teamsparta14/order_service/store/controller/StoreController.java:77-117 | an account whose only authority is "ROLE_ADMIN" passes the route's framework check; on a store it did not create, it can delete but not update |
| `StoreController.CreatorMayUpdateAndDelete` | src/main/java/com/teamsparta14/order_service/store/controller/StoreController.java:67-117 | the user recorded as creator of a store may later update and delete it |
| `StoreController.CreateCategory` | src/main/java/com/teamsparta14/order_service/store/controller/StoreController.java:134-146 | proceeds exactly when the token's role is "ROLE_MASTER", passing that role on; otherwise AccessDenied and no service call |
| `StoreController.UpdateCategory` | src/main/java/com/teamsparta14/order_service/store/controller/StoreController.java:149-161 | proceeds exactly when the token's role is "ROLE_MASTER"; otherwise AccessDenied and no service call |
| `StoreController.DeleteCategory` | src/main/java/com/teamsparta14/order_service/store/controller/StoreController.java:164-175 | proceeds exactly when the token's role is "ROLE_MASTER"; otherwise AccessDenied and no service call |
| `StoreController.CreateRegion` | src/main/java/com/teamsparta14/order_service/store/controller/StoreController.java:178-190 | proceeds exactly when the token's role is "ROLE_MASTER"; otherwise AccessDenied and no service call |
| `StoreController.MasterHandlersAgree` | src/main/java/com/teamsparta14/order_service/store/controller/StoreController.java:139-189 | for a given token the four administration handlers all proceed or are all denied |

## Left out

- OrderEntity.Order.GetAmount: amounts are unbounded integers. Java `Long` overflow of `price * quantity` and of the running sum is not modelled. The types of the item's `getPrice`/`getQuantity` are not shown (and neither is the possibility that they are null).
- Null references (a null `orderProducts` or `updateList`, a null `createdBy` of a store, an uninitialised JPA list) and the exceptions they would raise are not modelled.
- JPA mapping is not modelled: annotations, cascade and orphan removal, UUID generation, the `BaseEntity` auditing fields.
- Payment statuses other than PENDING, the constants of `OrderType`, and the other fields of `OrderProduct` are not part of this model.
- JSON parsing by the object mapper is a library call. The request carries its outcome: an object, or `None` for a parse failure. A body that parses to the JSON literal `null`, which would make the map lookup throw, is not modelled.
- Password checking inside the authentication manager is a library call, modelled as an arbitrary function parameter.
- The token issuer and decoder are not part of this model: no signing, expiry or decoding errors.
- The token reissue service is not part of this model. Its save is modelled as a map upsert; no reissue protocol, token rotation or concurrency control is modelled.
- The base filter's dispatch is framework code and is not modelled: the URL matching, the call to `attemptAuthentication` and the choice between the success and failure handlers. So is what happens to the "User not found" exception afterwards.
- Response content type, character encoding and the JSON serialization of response bodies are not modelled; the written body is recorded as an `ApiResponse` value.
- The enforcement of `@PreAuthorize` and the population of the security context are framework code. `PreAuthorized` states the route check; `RoleAdminDeletesButCannotUpdate` proves that an account holding only "ROLE_ADMIN" passes it; no handler assumes it.
- Looking up the store by id, and its failure when the id is unknown, belong to the store service, which is not part of this model; the handlers receive the store it returned.
- StoreController.GetAllStores: always proceeds, whereas `PageRequest.of` rejects a negative page index (library behaviour, not modelled). The `@RequestParam` defaults (page 0, size 10, sort CREATED_AT; StoreController.java:42-45) are not modelled either; for the size, the default gives the same result as normalization.
- `ProductController.java`, `UserController.java`, `StoreRepository.java` and `StoreClientResponse.java` are not modelled: they only forward to services that are not shown, or declare queries and data holders.
