# A verified model of the e-commerce core

This project models, in Dafny, the business core of a small online shop: a
Spring backend (catalog entity, cart service, order service, payment
service, registration, bearer-token filter) and the rules a React frontend
applies on its own (the browser-side cart and the two route guards). Every
module states what the code does as contracts, and proves properties of it.

Modules, one per source file (shared types live in `Common`, `common.dfy`):

- `Catalog` (`product.dfy`): `Product` and its validation constraints, plus
  the guarded `reduceStock`. Java `int` arithmetic on the stock is written
  out as 32-bit wrap-around.
- `CartEntity` (`cart_entity.dfy`): the `Cart`/`CartItem` entities and the
  link helpers `addItem`/`removeItem`, as objects updated in place.
- `CartStore` (`cart_service.dfy`): `CartServiceImpl` as a class over its
  repositories (users, current prices, carts). A cart's meaning is the map
  from product to quantity. Each operation is proved equal to the matching map
  update. The cached total is proved equal to the recomputed one, with the
  prices held fixed (see "Left out").
- `Orders` (`orders.dfy`): `OrderServiceImpl.createOrder` and
  `updateOrderStatus`. The order freezes each line's price, and its total is
  the sum of its lines.
- `Payments` (`payments.dfy`): `PaymentService`. The amount guard compares
  scale and all, like `BigDecimal.equals`. Verification is specified twice:
  as intended (`Finalize`), and as it commits under `@Transactional`
  (`FinalizeAsCommitted`).
- `Registration` (`registration.dfy`): both `registerUser` versions. The
  role-resolution loop runs over the name set in an unspecified order.
- `TokenFilter` (`token_filter.dfy`): `parseJwt` and the filter's decision.
- `CartContext` (`cart_context.dfy`): the frontend cart reducers.
- `AuthGuard` (`auth_guard.dfy`) and `RouterGuard` (`router_guard.dfy`): the
  two `ProtectedRoute` components as decision functions. The router guard
  includes JavaScript's `split(",")` and `trim`.

Modelling conventions:

- Money is an integer number of minor units: the price column has scale 2,
  so 1 stands for 0.01.
- Identifiers are integers, and strings are sequences of characters.
- Java exceptions, `Optional` and `null` become `Result`, `Outcome` and
  `Option` values.
- A `@Transactional` method that throws leaves the repositories as they were.
- Collaborators the core cannot see become parameters:
  - the password encoder;
  - the JWT validator, the user-name claim and the user lookup;
  - the payment gateway's signature check, whose stub in the source accepts
    every signature;
  - the random UUID behind a gateway order id.

Behaviours of the code worth noting:

- `createOrder` sets `PENDING`, while the payment guard expects
  `PENDING_PAYMENT`. So a freshly created order is refused by the payment
  guard until its status changes (`Payments.NewOrderNotPayable`).
- `createOrder` reserves no stock.
- Payment verification has no status guard. A replay passes the service's
  checks and saves a second `SUCCESS` transaction
  (`Payments.FinalizeReplayRecordsTwice`). A unique `order_id` column, like
  the one the `payment.model.Transaction` entity declares, would reject that
  insert.
- The rejection path writes no transaction. It sets the status
  `PENDELIVERY_FAILED`, and that write is then rolled back (see Findings).
- `OrderServiceImpl` reads the cart's lines through `getCartItems()`. The
  `Cart` entity names that collection `items`. The model reads the cart's
  lines.
- `CartServiceImpl` calls `setTotalAmount` on a cart, but the `Cart` entity
  declares no `totalAmount` field. The model gives the cart the field the
  service uses.
- `AuthService.registerUser` sets a first and a last name, but the `User`
  entity declares no such fields. The model gives the user the fields the
  service sets.
- The auth `ProtectedRoute` reads `loading` from the authentication
  context, but the `AuthContext` provider exposes no `loading` value, so it
  is always undefined. `AuthGuard.Guard`'s `Loading` view is therefore never
  shown in the application.
- `AuthServiceImpl` declares that it implements `AuthService`, which is
  itself a class with a `registerUser` of another signature. The two are
  modelled as two separate services.

## Model

| member | source | states |
|---|---|---|
| Catalog.Wrap | backend/src/main/java/com/ecommerce/backend/model/Product.java:72 | the result is a 32-bit int congruent to the exact value mod 2^32, and equal to it when that fits |
| Catalog.NotBlankIsNotHasText | backend/src/main/java/com/ecommerce/backend/model/Product.java:29 | the name's `@NotBlank` test differs from `hasText`: a lone NUL is blank, a lone ideographic space is not |
| Catalog.StockAfter | backend/src/main/java/com/ecommerce/backend/model/Product.java:70-76 | reduceStock succeeds exactly when stock >= quantity; a failure is InsufficientStock naming the product; a new stock is an int |
| Catalog.StockAfterNonNegative | backend/src/main/java/com/ecommerce/backend/model/Product.java:70-72 | an admitted non-negative decrement gives exactly stock - quantity, which is >= 0 |
| Catalog.NegativeQuantityWraps | backend/src/main/java/com/ecommerce/backend/model/Product.java:70-72 | a negative quantity is admitted and raises the stock, and at the range limit wraps it negative |
| Catalog.Product.ReduceStock | backend/src/main/java/com/ecommerce/backend/model/Product.java:70-76 | only stockQuantity changes: decremented on success, untouched on InsufficientStock; a non-negative quantity keeps the entity's constraints |
| CartEntity.Cart.constructor | backend/src/main/java/com/ecommerce/backend/cart/model/Cart.java:34 | a new cart's item set is empty |
| CartEntity.Cart.AddItem | backend/src/main/java/com/ecommerce/backend/cart/model/Cart.java:52-55 | the item joins the set (set semantics) and points back to this cart; no other item's link changes |
| CartEntity.Cart.RemoveItem | backend/src/main/java/com/ecommerce/backend/cart/model/Cart.java:60-63 | the item leaves the set and its cart link is cleared; no other item's link changes |
| CartStore.FindLine | backend/src/main/java/com/ecommerce/backend/cart/service/CartServiceImpl.java:52-54 | the first line for the product, or -1 exactly when the cart has none |
| CartStore.DropAt | backend/src/main/java/com/ecommerce/backend/cart/service/CartServiceImpl.java:107 | removing one line keeps every other line in its order |
| CartStore.QuantitiesDomain | backend/src/main/java/com/ecommerce/backend/cart/service/CartServiceImpl.java:52-54 | a product is in the cart's quantity map exactly when the cart has a line for it |
| CartStore.QuantitiesAt | backend/src/main/java/com/ecommerce/backend/cart/service/CartServiceImpl.java:52-54 | with one line per product, the map gives each line's quantity |
| CartStore.TotalConcat | backend/src/main/java/com/ecommerce/backend/cart/service/CartServiceImpl.java:133-135 | the total of two runs of lines is the sum of their totals |
| CartStore.AddLineKeepsInvariant | backend/src/main/java/com/ecommerce/backend/cart/service/CartServiceImpl.java:51-66 | adding a positive quantity keeps one line per product, positive quantities and known products |
| CartStore.AddLineQuantities | backend/src/main/java/com/ecommerce/backend/cart/service/CartServiceImpl.java:51-66 | addToCart adds the quantity to the product's entry of the map (0 if absent); the line count grows only for a new product |
| CartStore.AddLineTotal | backend/src/main/java/com/ecommerce/backend/cart/service/CartServiceImpl.java:68-69 | after addToCart the total rises by exactly price x quantity |
| CartStore.RemoveLineKeepsInvariant | backend/src/main/java/com/ecommerce/backend/cart/service/CartServiceImpl.java:102-108 | removal keeps the invariant and leaves no line for the product |
| CartStore.RemoveLineQuantities | backend/src/main/java/com/ecommerce/backend/cart/service/CartServiceImpl.java:102-108 | removal deletes exactly the product's map entry, one line fewer; a product without a line leaves the cart unchanged |
| CartStore.RemoveLineTotal | backend/src/main/java/com/ecommerce/backend/cart/service/CartServiceImpl.java:107-111 | removal lowers the total by exactly that line's price x quantity |
| CartStore.UpdateLineKeepsInvariant | backend/src/main/java/com/ecommerce/backend/cart/service/CartServiceImpl.java:78-90 | an update keeps the invariant; a quantity <= 0 is a removal; a product without a line changes nothing |
| CartStore.UpdateLineSets | backend/src/main/java/com/ecommerce/backend/cart/service/CartServiceImpl.java:87-93 | a positive update sets the product's map entry to the quantity, keeps the line count and moves the total by the quantity difference |
| CartStore.CartService.GetCartByUserId | backend/src/main/java/com/ecommerce/backend/cart/service/CartServiceImpl.java:31-38 | unknown users fail with carts unchanged; an existing cart is returned unchanged; otherwise an empty cart with total 0 is created and stored |
| CartStore.CartService.AddToCart | backend/src/main/java/com/ecommerce/backend/cart/service/CartServiceImpl.java:40-71 | failures in the source's order (quantity, user, product) with nothing changed; success iff all checks pass; the new lines, their map and the exact total |
| CartStore.CartService.UpdateCartItemQuantity | backend/src/main/java/com/ecommerce/backend/cart/service/CartServiceImpl.java:73-95 | unknown user or missing line fails with nothing changed; otherwise the line is removed (<= 0) or set to the quantity, the product's map entry is dropped or set accordingly, and the cached total stays exact |
| CartStore.CartService.RemoveCartItem | backend/src/main/java/com/ecommerce/backend/cart/service/CartServiceImpl.java:97-113 | unknown user or missing line fails with nothing changed; otherwise exactly that product's entry goes |
| CartStore.CartService.ClearCart | backend/src/main/java/com/ecommerce/backend/cart/service/CartServiceImpl.java:115-126 | the user's cart becomes empty with total 0; only that cart changes |
| CartStore.CartService.CalculateTotal | backend/src/main/java/com/ecommerce/backend/cart/service/CartServiceImpl.java:128-136 | the sum of price x quantity over the user's cart, equal to its cached totalAmount |
| Orders.Snapshot | backend/src/main/java/com/ecommerce/backend/order/service/OrderServiceImpl.java:73-86 | one order line per cart line, same product and quantity, with the current price frozen in |
| Orders.SnapshotTotal | backend/src/main/java/com/ecommerce/backend/order/service/OrderServiceImpl.java:70-89 | the frozen lines' quantity x priceAtOrder sum equals the cart's total at current prices |
| Orders.DiscardingTotalIsZero | backend/src/main/java/com/ecommerce/backend/order/service/OrderServiceImpl.java:71-83 | with the result of add discarded, the running total stays at its start value |
| Orders.DiscardedTotalDiffers | backend/src/main/java/com/ecommerce/backend/order/service/OrderServiceImpl.java:71-89 | for two units at 1000.00 the as-written total is 0 and the intended one 2000.00 |
| Orders.NewOrder | backend/src/main/java/com/ecommerce/backend/order/service/OrderServiceImpl.java:63-89 | a new order is PENDING, for the user and address given, its lines the snapshot, its total the sum of its lines and the cart's total |
| Orders.OrderService.CreateOrder | backend/src/main/java/com/ecommerce/backend/order/service/OrderServiceImpl.java:51-101 | unknown user, missing cart, empty cart fail in that order with nothing changed; otherwise one fresh order is saved and the cart deleted, and every stored total stays the sum of its lines |
| Orders.OrderService.UpdateOrderStatus | backend/src/main/java/com/ecommerce/backend/order/service/OrderServiceImpl.java:116-123 | any status overwrites the current one, nothing else changes; an unknown id fails with nothing changed |
| Payments.NewOrderNotPayable | backend/src/main/java/com/ecommerce/backend/service/PaymentService.java:46 | no order as createOrder builds it passes the payment guard |
| Payments.PayableIsScaleSensitive | backend/src/main/java/com/ecommerce/backend/service/PaymentService.java:46 | 25.50 with scale 2 matches a total of 25.50; 25.5 with scale 1 does not |
| Payments.SuccessRecord | backend/src/main/java/com/ecommerce/backend/service/PaymentService.java:88-95 | the record carries the order, the gateway ids, the signature, the order's total as amount paid, INR and SUCCESS |
| Payments.FinalizeFailure | backend/src/main/java/com/ecommerce/backend/service/PaymentService.java:67-85 | failure exactly for an unknown order or a rejected signature; no transaction then; a rejected signature changes only that order's status, to PENDELIVERY_FAILED |
| Payments.FinalizeSuccess | backend/src/main/java/com/ecommerce/backend/service/PaymentService.java:87-99 | an accepted payment appends exactly one SUCCESS record for the order's total and stores the order as PLACED, lines and total kept |
| Payments.FinalizeKeepsTotals | backend/src/main/java/com/ecommerce/backend/service/PaymentService.java:66-99 | finalising keeps the set of orders and every order's total equal to the sum of its lines |
| Payments.FinalizeReplayRecordsTwice | backend/src/main/java/com/ecommerce/backend/service/PaymentService.java:66-99 | the service code has no status guard: finalising twice saves two SUCCESS transactions for one order (with no unique column in the ledger) |
| Payments.RolledBackFailureStatus | backend/src/main/java/com/ecommerce/backend/service/PaymentService.java:65-85 | as committed, a rejected signature leaves a PENDING_PAYMENT order PENDING_PAYMENT, where the intended behaviour stores PENDELIVERY_FAILED |
| Payments.AsCommittedAgreesElsewhere | backend/src/main/java/com/ecommerce/backend/service/PaymentService.java:65-100 | outside the rejected-signature branch the committed result is the intended one |
| Payments.PaymentService.CreatePaymentOrder | backend/src/main/java/com/ecommerce/backend/service/PaymentService.java:40-56 | unknown order, then wrong status or amount, fail; success exactly for a payable order, returning "pg_order_" and eight UUID characters |
| Payments.PaymentService.VerifyPaymentAndFinalizeOrder | backend/src/main/java/com/ecommerce/backend/service/PaymentService.java:66-100 | the result and the new orders and transactions are those of the intended Finalize |
| Payments.PaymentService.VerifyPaymentAsCommitted | backend/src/main/java/com/ecommerce/backend/service/PaymentService.java:65-100 | the result and the new orders and transactions are those of FinalizeAsCommitted |
| Registration.RoleFor | backend/src/main/java/com/ecommerce/backend/security/services/AuthServiceImpl.java:105-120 | exact matching: ROLE_ADMIN iff "admin", ROLE_MODERATOR iff "mod", ROLE_USER for every other name |
| Registration.LowerAscii | backend/src/main/java/com/ecommerce/backend/security/services/AuthService.java:104 | lower-casing maps each character to its lower case and keeps the length |
| Registration.LowerAsciiFixes | backend/src/main/java/com/ecommerce/backend/security/services/AuthService.java:104 | a name without upper-case letters is unchanged by lower-casing |
| Registration.LowerAsciiIdempotent | backend/src/main/java/com/ecommerce/backend/security/services/AuthService.java:104 | lower-casing twice is lower-casing once |
| Registration.FoldingExtendsExactMatch | backend/src/main/java/com/ecommerce/backend/security/services/AuthService.java:104-119 | the folded matcher agrees with the exact one wherever that one picks admin or mod, and picks admin/mod exactly for names lower-casing to "admin"/"mod" |
| Registration.CapitalisedAdmin | backend/src/main/java/com/ecommerce/backend/security/services/AuthService.java:104-109 | "Admin" is ROLE_ADMIN after folding and ROLE_USER when matched exactly |
| Registration.RoleDefaults | backend/src/main/java/com/ecommerce/backend/security/services/AuthService.java:97-101 | AuthService always assigns a role, {ROLE_USER} for a null or empty request; AuthServiceImpl gives {ROLE_USER} for null and no role for an empty set |
| Registration.SelectedMembers | backend/src/main/java/com/ecommerce/backend/security/services/AuthServiceImpl.java:96-121 | a role is assigned exactly when some requested name maps to it (each role once) |
| Registration.ResolveRoles | backend/src/main/java/com/ecommerce/backend/security/services/AuthService.java:103-120 | resolution succeeds exactly when every selected role has a row, returning the selected set; a failure names a selected role without a row |
| Registration.RequestedRolesSelect | backend/src/main/java/com/ecommerce/backend/security/services/AuthServiceImpl.java:98-121 | the names the role step resolves give AuthService's and AuthServiceImpl's assigned role sets |
| Registration.AuthService.RegisterUser | backend/src/main/java/com/ecommerce/backend/security/services/AuthService.java:74-125 | taken username, then taken email, then missing role row fail with nothing saved; with name and email free, a failure is RoleNotFound naming a needed missing row; success iff none applies, saving one user with the names, encoded password and folded roles |
| Registration.AuthServiceImpl.RegisterUser | backend/src/main/java/com/ecommerce/backend/security/services/AuthServiceImpl.java:79-128 | the same checks in the same order (a failure with name and email free is RoleNotFound), exact roles, no names copied; success saves one user and returns "User registered successfully!" |
| TokenFilter.ParseJwt | backend/src/main/java/com/ecommerce/backend/security/jwt/AuthTokenFilter.java:84-93 | a token exactly for a header with text starting with "Bearer "; the token is the header minus those 7 characters |
| TokenFilter.PrefixImpliesText | backend/src/main/java/com/ecommerce/backend/security/jwt/AuthTokenFilter.java:87 | the prefix already has text, so a token comes back exactly when the prefix is there |
| TokenFilter.ParseJwtRoundTrip | backend/src/main/java/com/ecommerce/backend/security/jwt/AuthTokenFilter.java:85-89 | parsing "Bearer " + t gives t for every t, the empty one included |
| TokenFilter.ParseJwtRejects | backend/src/main/java/com/ecommerce/backend/security/jwt/AuthTokenFilter.java:87-92 | a missing, blank, lower-case "bearer" or bare "Bearer" header gives no token |
| TokenFilter.DoFilter | backend/src/main/java/com/ecommerce/backend/security/jwt/AuthTokenFilter.java:43-76 | the chain always continues; a principal is installed exactly when the token is present and valid and its user is found |
| TokenFilter.NoHeaderNoPrincipal | backend/src/main/java/com/ecommerce/backend/security/jwt/AuthTokenFilter.java:48-50 | without a bearer header no one is authenticated, whatever the validator says |
| CartContext.FindIndex | frontend/src/context/CartContext.js:35 | the first entry with the id, or -1 exactly when there is none |
| CartContext.AddToCartExisting | frontend/src/context/CartContext.js:35-43 | a known id: same length, only the first match changes, by exactly the quantity added |
| CartContext.AddToCartNew | frontend/src/context/CartContext.js:33-47 | a new id: one entry appended with the given quantity, default 1, overriding the product's own |
| CartContext.AddToCartKeepsUniqueIds | frontend/src/context/CartContext.js:35-47 | addToCart keeps ids unique and leaves the product in the cart |
| CartContext.AddToCartTotal | frontend/src/context/CartContext.js:33-48 | totalItems rises by exactly the quantity added |
| CartContext.TotalItemsAppend | frontend/src/context/CartContext.js:74 | totalItems of two lists is the sum of their totals |
| CartContext.TotalItemsRemove | frontend/src/context/CartContext.js:52-54 | totalItems splits into the removed id's quantities and the rest's total |
| CartContext.QuantityOfUniqueId | frontend/src/context/CartContext.js:74 | with unique ids, an id's summed quantity is that of its one entry |
| CartContext.RemoveItemKeeps | frontend/src/context/CartContext.js:52-54 | removeItem keeps exactly the entries with another id; a list without the id is unchanged |
| CartContext.RemoveItemConcat | frontend/src/context/CartContext.js:53 | removeItem works piecewise over concatenation, so it keeps the order of what remains |
| CartContext.RemoveItemKeepsUniqueIds | frontend/src/context/CartContext.js:53 | removeItem keeps ids unique |
| CartContext.SetQuantity | frontend/src/context/CartContext.js:62-64 | every entry with the id gets the quantity, every other entry is kept, the length is the same |
| CartContext.UpdateQuantityCases | frontend/src/context/CartContext.js:57-66 | a quantity <= 0 is removeItem; otherwise exactly the matching entries' quantity is set |
| CartContext.UpdateQuantityIdempotent | frontend/src/context/CartContext.js:57-66 | applying the same update twice is applying it once |
| CartContext.UpdateQuantityTotal | frontend/src/context/CartContext.js:62-64 | with unique ids, a positive update moves totalItems by new minus old quantity |
| CartContext.UpdateQuantityKeepsUniqueIds | frontend/src/context/CartContext.js:57-66 | updateQuantity keeps ids unique |
| CartContext.ClearCart | frontend/src/context/CartContext.js:69-71 | clearCart yields the empty list |
| AuthGuard.Guard | frontend/src/components/auth/ProtectedRoute.jsx:11-34 | loading wins; then no user redirects to /login; a missing required role redirects to /; no requirement admits any user |
| AuthGuard.GuardGrantsIff | frontend/src/components/auth/ProtectedRoute.jsx:15-34 | the children exactly when not loading, logged in, and holding the required role if one is required |
| AuthGuard.MissingRolesRedirect | frontend/src/components/auth/ProtectedRoute.jsx:27-30 | a user without a roles array is sent home from every role-protected route and only from those |
| AuthGuard.AdminRouteAsWritten | frontend/src/App.jsx:80 | with "ADMIN" required, every user whose roles are authority names is sent home, administrators included |
| AuthGuard.AdminRouteIntended | frontend/src/App.jsx:80 | with "ROLE_ADMIN" required, a logged-in user gets the page exactly when holding ROLE_ADMIN |
| RouterGuard.Split | frontend/src/components/router/ProtectedRoute.jsx:14 | split(",") gives at least one piece and no piece holds a comma |
| RouterGuard.JoinSplit | frontend/src/components/router/ProtectedRoute.jsx:14 | joining the pieces with commas gives back the string |
| RouterGuard.SplitNoComma | frontend/src/components/router/ProtectedRoute.jsx:14 | a comma-free string splits into itself |
| RouterGuard.TrimStart | frontend/src/components/router/ProtectedRoute.jsx:14 | only leading spaces are cut, and the result does not start with one |
| RouterGuard.TrimEnd | frontend/src/components/router/ProtectedRoute.jsx:14 | only trailing spaces are cut, and the result does not end with one |
| RouterGuard.Trim | frontend/src/components/router/ProtectedRoute.jsx:14 | trim is an infix with only spaces around it and no space at either end |
| RouterGuard.TrimFixes | frontend/src/components/router/ProtectedRoute.jsx:14 | a string without spaces at its ends is its own trim |
| RouterGuard.AllowedRoleList | frontend/src/components/router/ProtectedRoute.jsx:14 | a missing or empty string gives no list; otherwise one trimmed entry per piece |
| RouterGuard.Route | frontend/src/components/router/ProtectedRoute.jsx:17-21 | no user is redirected to /login whatever the roles |
| RouterGuard.RouteGrantsIff | frontend/src/components/router/ProtectedRoute.jsx:17-40 | access exactly for a user when the list is empty or shares a role; no shared role sends home; a list with a user lacking roles is the render error |
| RouterGuard.NoRolesAnyUser | frontend/src/components/router/ProtectedRoute.jsx:14-24 | without a role string every logged-in user passes |
| RouterGuard.SpacedListParses | frontend/src/components/router/ProtectedRoute.jsx:14 | " A , B " lists exactly A and B for comma- and space-free names |
| RouterGuard.SplitConcat | frontend/src/components/router/ProtectedRoute.jsx:14 | a comma-free prefix joins the first piece of what follows |

## Left out

- I/O and framework plumbing: the controllers, the security configuration,
  the `SecurityContextHolder` write, logging, the toasts, React state, and
  the `localStorage` persistence of the browser cart. The filter's decision
  is returned as a value instead.
- Clocks: `orderDate`, `lastModified`, and the entity and transaction
  timestamps.
- Generated ids other than the order id.
- Lazy loading, cascades and orphan removal.
- Lombok's generated `equals`/`hashCode`. Entities in sets are compared by
  identity (`CartEntity`) or kept one line per product (`CartStore`).
- The source collects order lines into a `Set`. The generated equality could
  merge two equal lines; the model keeps one order line per cart line.
- Login (`authenticateUser`) and JWT generation, because they call into
  Spring Security and the JWT library. Validation, the user-name claim and
  the user lookup are parameters of `TokenFilter.DoFilter`.
- BCrypt: the password encoder is a parameter.
- The payment gateway: signature verification and the UUID are parameters.
  With the source's stub, every signature is accepted, so only the success
  branch is reachable until a real check is plugged in.
- `PaymentService` imports a `Transaction` type from the `model` package,
  which is not part of this model. The record follows the `Transaction`
  entity of the `payment.model` package, whose default currency is INR.
- `Payments.FinalizeReplayRecordsTwice`: the ledger has no unique `order_id`
  column. The `payment.model.Transaction` entity declares one, and on that
  mapping the second save would fail and roll the replay back.
- The browser cart's `totalPrice`, because it is floating-point arithmetic.
- The browser cart's quantities are integers. Fractional and `NaN`
  quantities, and the string concatenation `+` gives for a string quantity,
  are not modelled.
- `findAllOrdersByUser` and `findOrderById` are plain repository lookups.
- Cross-service sharing of one repository: each service class owns its own
  copy of the repositories it reads.
- `CartStore.CartService.CalculateTotal`: the equality of the cached
  `totalAmount` with the recomputed sum depends on the prices staying fixed.
  No operation of the model changes a price. In the program an admin can
  update a product's price, and a stored cart's total then stays stale until
  its next add, update or remove, so `calculateTotal` could differ from it.
- `CartStore.CartService.AddToCart`: cart-line quantities are unbounded
  integers, so the Java `int` overflow of a very large increment is not
  modelled. Only the product stock's `int` is written out with wrap-around.
- `Registration.LowerAscii`: lower-casing is ASCII only. The default-locale,
  full-Unicode `toLowerCase` (for instance the Turkish dotless i) is not
  modelled.
- Database collation: `existsByUsername`/`existsByEmail` compare exactly.
- `Registration.AuthService.RegisterUser` and
  `Registration.AuthServiceImpl.RegisterUser`: the `User` entity's Bean
  Validation constraints are not modelled. These are a non-blank username of
  at most 20 characters, a non-blank well-formed email of at most 50, and a
  non-blank password of at most 120. A request that breaks them succeeds in the model,
  where the save would throw.
- `@Size` limits count UTF-16 code units; the model's length bounds
  (`Catalog.Product` name and description) count characters. So a name of
  characters outside the Basic Multilingual Plane can exceed the 100-unit
  limit and still satisfy the model's constraint.
- A `null` stock (`Integer`) or price, which would throw a
  NullPointerException, is not modelled.

## Findings

| source | as written | input that shows it | evidently intended | confidence | as-written member | corrected member |
|---|---|---|---|---|---|---|
| backend/src/main/java/com/ecommerce/backend/order/service/OrderServiceImpl.java:83 | `add` returns a new BigDecimal and the result is dropped, so every order total is ZERO | a cart with one line of 2 units at 1000.00: total 0.00 | the sum of quantity x price at order, 2000.00 | high, not executed | Orders.DiscardedTotalDiffers | Orders.NewOrder |
| backend/src/main/java/com/ecommerce/backend/service/PaymentService.java:80-85 | the failure status is saved and then a RuntimeException is thrown inside the `@Transactional` method, which rolls the save back | a PENDING_PAYMENT order and a rejected signature: the order stays PENDING_PAYMENT | the order is stored as PENDELIVERY_FAILED | medium, not executed | Payments.RolledBackFailureStatus | Payments.FinalizeFailure |
| frontend/src/App.jsx:80 | the admin route requires the role "ADMIN", but the backend's role names are authorities such as "ROLE_ADMIN" (the header checks for that one) | a user with roles ["ROLE_ADMIN"]: redirected to / | require "ROLE_ADMIN" | high, not executed | AuthGuard.AdminRouteAsWritten | AuthGuard.AdminRouteIntended |
