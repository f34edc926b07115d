# Role-based access and order views of the `accounts` app

This project models, in Dafny, the `accounts` app of a small order-management
web application. Customers see their own orders. Admins manage customers,
products and orders.

The core is the access layer in `accounts/decorators.py`. It has three
decorators that decide, from the request's user, whether a view runs or what
is answered instead:

- `unauthenticated_user` sends a logged-in user to `home`.
- `users_allowed(roles)` lets a user through only when the name of the user's
  first group is in `roles`. Everyone else gets the text "You are not
  authorized to view this page".
- `only_admin` lets a user through only when the first group is `admin`. It
  sends a first group `customer` to `user-page`. For every other user it
  returns nothing at all.

The model also covers the views of `accounts/views.py`:

- the decorator stack on each route (`login_required` first, then the role guard);
- the counters of the two dashboards;
- the writes made by `registerPage`, `accountSettings`, `createOrder`,
  `updateOrder` and `deleteOrder`;
- the control flow of `loginPage` and `logoutUser`.

Files and modules:

- `http.dfy` (`Http`): the values passed around. A `User` has a key, a logged-in
  flag, and its group names in the order `groups.all()` yields them. A
  `Request` has a user, a method and a URL `pk`. `Response` covers a redirect,
  a text reply, a rendered page, an escaped exception, and "no response".
- `decorators.dfy` (`Decorators`): the three decorators as functions. Each
  returns `Forward(req)` (call the view with the request unchanged) or
  `Reply(resp)`.
- `routes.dfy` (`Routes`): the framework's `login_required`, the guard stack of
  every route, and `Dispatch`, which runs a stack outermost first.
- `dashboard.dfy` (`Dashboard`): `Order` rows and the counters of `home` and
  `userPage`.
- `session.dfy` (`Session`): `loginPage` and `logoutUser`.
- `store.dfy` (`Store`): the `User`, `Customer` and `Order` tables as a class
  whose methods are the views that write. `Serve` runs a request: the guards
  first, then the view.

Quirks of the code that the model keeps as written:

- Only the first group is read. A user in no group never matches an allow-list.
- `only_admin` (the guard on `home`) returns no response for a first group
  other than `customer` or `admin`, and for a user with no group.
- `deleteOrder` deletes on POST but drops the value of `redirect('/')`, so it
  renders the delete page either way.
- `registerPage` saves the new user before it looks up the `customer` group.
  If that group is missing, the user stays saved with no group and no
  `Customer`, and the lookup raises.

Two differences between the role guards:

- `home` is guarded by `only_admin`, not by `users_allowed(['admin'])`. So a
  customer who opens it is redirected to `user-page` instead of getting the
  unauthorized text (`Routes.HomeDecision`).
- `only_admin` has no allow-list. Its third outcome is no response at all.

Inputs the model takes as given: whether a form or formset is valid, and what
data it holds; whether `authenticate` matched the credentials. An exception the
ORM would raise (`DoesNotExist`, a user without a customer) is modelled as a
`ServerError` answer that changes nothing. The one exception is the
registration case above.

## Model

| member | source | states |
|---|---|---|
| `Decorators.UnauthenticatedUser` | accounts/decorators.py:4-10 | The view runs exactly when the user is not logged in, and it gets the request unchanged. A logged-in user is always redirected to `home`. |
| `Decorators.UsersAllowed` | accounts/decorators.py:12-25 | The view runs if and only if the user has a group and the first group's name is in `roles`. The request is passed on unchanged. Every refusal is the text "You are not authorized to view this page". |
| `Decorators.OnlyAdmin` | accounts/decorators.py:27-38 | First group `admin` runs the view with the request unchanged. First group `customer` redirects to `user-page`. Exactly the other users, including those with no group, get no response. |
| `Decorators.UsersAllowedReadsFirstGroupOnly` | accounts/decorators.py:16-18 | Two users with the same first group (or both with none) get the same decision and the same refusal. Later groups never matter. |
| `Decorators.UsersAllowedRefusesNoGroupOrNoRoles` | accounts/decorators.py:12-23 | A user with no group, or the default empty `roles_allowed`, always gets the unauthorized text. |
| `Decorators.UsersAllowedMonotone` | accounts/decorators.py:20-21 | If every role of `roles` is also in `more`, a request `roles` admits is also admitted by `more`. |
| `Decorators.OnlyAdminAgreesWithUsersAllowedAdmin` | accounts/decorators.py:27-38 | `only_admin` admits exactly whom `users_allowed(['admin'])` admits. It refuses only with the `user-page` redirect or with no response. |
| `Decorators.FirstGroup` | accounts/decorators.py:16-18 | The local `group` is None exactly when the user is in no group, and otherwise the name of the first group. |
| `Routes.Guards` | accounts/views.py:18-164 | The decorator lines of each view. Every `@login_required` route has exactly two guards, `login_required('login')` first. `home` then has `only_admin`, the customer pages `users_allowed(['customer'])`, and the admin pages `users_allowed(['admin'])`. `registerPage` and `loginPage` have `unauthenticated_user` alone, and `logoutUser` has none. |
| `Routes.Dispatch` | accounts/views.py:61-62 | A request that passes a route's guards reaches the view unchanged. An anonymous user on a `@login_required` route is redirected to `login`. |
| `Routes.LoginRequiredGuard` | accounts/views.py:61 | `login_required(login_url='login')` lets a request through exactly when the user is logged in, unchanged, and otherwise redirects to the login URL. |
| `Routes.Chain` | accounts/views.py:61-63 | A decorator stack that reaches the view passes the original request to it. |
| `Routes.ChainDecision` | accounts/views.py:61-63 | A stack reaches the view exactly when every guard forwards. Otherwise its answer is that of the first guard that does not forward. |
| `Routes.LoginCheckedFirst` | accounts/views.py:61-164 | On every `@login_required` route, an anonymous user is redirected to `login`, whatever groups it has. The role guard never decides. |
| `Routes.AnonymousRoutesDecision` | accounts/views.py:18-42 | `registerPage` and `loginPage` redirect a logged-in user to `home` and pass an anonymous request to the view unchanged. |
| `Routes.LogoutUnguarded` | accounts/views.py:57-59 | `logoutUser` has no guard: every request reaches it unchanged. |
| `Routes.AdminRoutesDecision` | accounts/views.py:107-164 | `product`, `customer`, `createOrder`, `updateOrder` and `deleteOrder` run if and only if the user is logged in and the first group is `admin`. Every other logged-in user gets the unauthorized text. |
| `Routes.CustomerRoutesDecision` | accounts/views.py:78-93 | `userPage` and `accountSettings` run if and only if the user is logged in and the first group is `customer`. Every other logged-in user gets the unauthorized text. |
| `Routes.HomeDecision` | accounts/views.py:61-63 | `home` runs if and only if the user is logged in and the first group is `admin`. A logged-in customer is sent to `user-page`. Any other logged-in user gets no response. |
| `Routes.DispatchReadsFirstGroupOnly` | accounts/decorators.py:29-31 | On every route, users who agree on being logged in and on their first group get the same decision. |
| `Dashboard.CountStatus` | accounts/views.py:70-71 | The count of orders with a status is at most the number of orders. It is zero exactly when no order has that status. |
| `Dashboard.CountStatusIsMultiplicity` | accounts/views.py:70-71 | The status count equals the multiplicity of that status among the orders' statuses. |
| `Dashboard.CountStatusAppend` | accounts/views.py:69-71 | The status count of two sequences of orders joined together is the sum of their counts. |
| `Dashboard.TwoStatusesBounded` | accounts/views.py:69-71 | For two different statuses, the two counts add up to at most the number of orders. |
| `Dashboard.OrdersOf` | accounts/views.py:81 | A customer's `order_set` holds exactly the orders whose customer is that one. |
| `Dashboard.OrdersOfCountBounded` | accounts/views.py:81-85 | A status count over one customer's orders never exceeds the same count over all orders. |
| `Dashboard.OrdersOfAppend` | accounts/views.py:81 | Selecting one customer's orders from two sequences joined together joins the two selections. |
| `Dashboard.Tally` | accounts/views.py:69-71 | `total_orders` is the number of orders. `delivered` and `pending` are the multiplicities of `'Delivered'` and `'Pending'`. `delivered + pending <= total_orders`. |
| `Dashboard.HomeCounts` | accounts/views.py:64-71 | `home` counts all customers and all orders. `delivered` and `pending` are the multiplicities of `'Delivered'` and `'Pending'` among all orders' statuses, with `delivered + pending <= total_orders`. |
| `Dashboard.UserCounts` | accounts/views.py:81-85 | `userPage` counts the requesting customer's orders only. Each of its three counts is at most the global one. |
| `Session.LoginPage` | accounts/views.py:42-55 | A POST whose credentials match redirects to `home`. Anything else renders the login page. |
| `Session.LogoutUser` | accounts/views.py:57-59 | Logging out leaves an anonymous user in no group and redirects to `login`. |
| `Session.LoggedOutUserSentToLogin` | accounts/views.py:57-62 | After logout, every `@login_required` page redirects to `login`. |
| `Session.LoginFormOnlyForAnonymous` | accounts/views.py:41-50 | The login view is reached exactly by anonymous users. A logged-in one is sent to `home`. |
| `Store.Find` | accounts/views.py:150 | `objects.get` finds the first row holding the key, or reports that none does (where the framework raises). |
| `Store.FindUnique` | accounts/views.py:165 | With distinct keys, the row found is the only one holding the key. |
| `Store.NewOrders` | accounts/views.py:138-140 | `formset.save()` creates one order per filled-in form, with that form's product and status and consecutive fresh keys. Every created order belongs to the customer `pk`. |
| `Store.RemoveOrder` | accounts/views.py:168 | After deletion, the remaining orders are exactly the old ones whose key differs from `pk`. |
| `Store.RemoveOrderRemovesOneRow` | accounts/views.py:165-168 | With distinct keys, deleting the order at position `i` removes that row alone, keeps the others in order, and shrinks the table by one. |
| `Store.CreateOrderCounts` | accounts/views.py:138-140 | Saving a formset for a customer adds its orders to the global total and to that customer's total. Every other customer's counts stay the same. |
| `Store.RegisteredAccountIsCustomer` | accounts/views.py:28-29 | A registered account (groups `["customer"]`) reaches the customer pages when logged in. It is sent from `home` to `user-page` and refused every admin page. |
| `Store.Store.HomeView` | accounts/views.py:63-76 | The dashboard shows the number of customers and the tally of all orders, with `delivered + pending` at most the total. |
| `Store.Store.UserPageView` | accounts/views.py:80-88 | There is no page exactly when the user has no customer. Otherwise the counts are those of the orders of the customer linked to the requesting user, and nobody else's. Each is at most the dashboard's. |
| `Store.Store.CustomerView` | accounts/views.py:116-120 | There is no page exactly when no customer has key `pk`. Otherwise `order_count` is the number of that customer's orders, which is at most the number of all orders. |
| `Store.Store.ReadView` | accounts/views.py:41-126 | The answer of each view that writes nothing: login redirect or login page, logout redirect, dashboard, user page or missing customer, products, customer page or missing customer. |
| `Store.Store.RegisterPage` | accounts/views.py:18-39 | A valid POST adds exactly one account, keyed by the next id, in group `customer`. It adds exactly one `Customer` linked to that account, then redirects to `login`. Nothing else changes. Without the group, the account is saved with no group and the lookup raises. Otherwise nothing changes and the form is shown again. |
| `Store.Store.AccountSettings` | accounts/views.py:91-104 | For the requesting user's customer, a valid POST replaces its profile fields and nothing else. The settings page is shown either way. A user without a customer raises. |
| `Store.Store.CreateOrder` | accounts/views.py:129-144 | For an existing customer, a valid POST appends one order per filled-in form, with fresh keys, and redirects to `/`. Otherwise the order form is shown and nothing changes. A missing customer raises. |
| `Store.Store.UpdateOrder` | accounts/views.py:147-159 | For an existing order, a valid POST overwrites its fields and keeps its key, then redirects to `/`. Otherwise the form is shown. A missing order raises. |
| `Store.Store.DeleteOrder` | accounts/views.py:162-172 | For an existing order, a POST removes exactly that row. The delete page is rendered in every case, POST included. A missing order raises. |
| `Store.Store.Serve` | accounts/views.py:18-172 | The route's guards decide first. A refused request gets the guard's reply and changes nothing, and so does every view that only reads. |

## Left out

- Template rendering, the context dictionaries passed to `render`, and `messages` flashes: pages are identified by their template name only.
- Form and formset construction and validation (`CreateUserForm`, `OrderForm`, `CustumerForm`, `inlineformset_factory`, `forms.py`): validity and the saved data are inputs. This includes the `extra=5` limit of the order formset.
- `updateOrder` builds its form from `request.method`, the string `"POST"`, rather than from `request.POST` (accounts/views.py:153). A form reads each field from its data with `.get`, which a string lacks. So the program's POST branch most likely raises instead of writing any fields, and the model's "valid POST overwrites the order" branch of `UpdateOrder` may be unreachable in the program. The model takes validity and the written fields as inputs.
- `OrderFilter` (accounts/views.py:122-123, defined in `filters.py`, which is not part of this model): `CustomerView` gives only `order_count`, which is taken before filtering.
- File uploads in `accountSettings` (accounts/views.py:98). The `Customer` fields the form edits are an uninterpreted name-to-value map, because `models.py` is not part of this model.
- `authenticate`, `login` and `logout` sessions and cookies: authentication is the `authenticated` flag of the request's user, and `logoutUser`'s effect is the anonymous user `LogoutUser` returns. `Serve` does not carry a session from one request to the next.
- `login_required` appends `?next=<path>` to its redirect; the model keeps only the target `login`.
- ORM query semantics: `groups.all()` is taken in the given order, URL keys are natural numbers, the `Product` table is not modelled (the `product` view only renders), and foreign keys named by an order form are not checked.
- The framework turning a missing response (`NoResponse`) or an escaped exception (`ServerError`) into an error page.
- Store.Store.Serve: for the five routes that write, its contract promises only that the store stays valid; what each write does is the contract of the view method it calls.
