/**
 The stored records the views of accounts/views.py read and write, and the
 views themselves. Tables are sequences in insertion order; fresh primary
 keys come from one auto-increment counter per table.
 */
module Store {
  import opened Http
  import opened Dashboard
  import D = Decorators
  import R = Routes
  import Session

  /** A framework `User` row: its key, its name and the names of its groups. */
  datatype Account = Account(id: nat, username: string, groups: seq<string>)

  /** A `Customer` row: its key, the account it belongs to (one-to-one) and the
      fields the profile form edits, by name. */
  datatype Customer = Customer(id: nat, user: nat, details: map<string, string>)

  /** One filled-in form of the `createOrder` formset (`fields=('product','status')`). */
  datatype Entry = Entry(product: nat, status: string)

  /** The fields an `OrderForm` writes back into an order. */
  datatype OrderFields = OrderFields(customer: nat, product: nat, status: string)

  /** What the forms, the formset and `authenticate` decide about a request;
      their workings are outside this model. */
  datatype FormInput = FormInput(
    valid: bool,
    username: string,
    credentialsMatch: bool,
    entries: seq<Entry>,
    fields: OrderFields,
    details: map<string, string>)

  function AccountIds(s: seq<Account>): seq<nat>
  {
    seq(|s|, i requires 0 <= i < |s| => s[i].id)
  }

  function CustomerIds(s: seq<Customer>): seq<nat>
  {
    seq(|s|, i requires 0 <= i < |s| => s[i].id)
  }

  /** The accounts the customers belong to, in table order. */
  function CustomerUsers(s: seq<Customer>): seq<nat>
  {
    seq(|s|, i requires 0 <= i < |s| => s[i].user)
  }

  function OrderIds(s: seq<Order>): seq<nat>
  {
    seq(|s|, i requires 0 <= i < |s| => s[i].id)
  }

  /** No key occurs twice. */
  predicate Distinct(keys: seq<nat>)
  {
    forall i, j :: 0 <= i < j < |keys| ==> keys[i] != keys[j]
  }

  /** Every key is below `bound`. */
  predicate Below(keys: seq<nat>, bound: nat)
  {
    forall i :: 0 <= i < |keys| ==> keys[i] < bound
  }

  /** `Model.objects.get(<column>=k)` on a column: the position of the first row
      holding `k`, or None where the framework raises `DoesNotExist`. */
  function Find(keys: seq<nat>, k: nat): (r: Option<nat>)
    ensures r.Some? ==> r.value < |keys| && keys[r.value] == k &&
                        forall j :: 0 <= j < r.value ==> keys[j] != k
    ensures r.None? <==> k !in keys
    decreases |keys|
  {
    if keys == [] then None
    else if keys[0] == k then Some(0)
    else match Find(keys[1..], k)
         case None => None
         case Some(i) => Some(i + 1)
  }

  /** With distinct keys, the row found is the only one holding the key. */
  lemma FindUnique(keys: seq<nat>, k: nat, i: nat)
    requires Distinct(keys) && i < |keys| && keys[i] == k
    ensures Find(keys, k) == Some(i)
  {
  }

  /** `order.delete()`: the orders left once every row with key `pk` is gone. */
  function RemoveOrder(orders: seq<Order>, pk: nat): (r: seq<Order>)
    ensures |r| <= |orders|
    ensures forall o :: o in r <==> o in orders && o.id != pk
    decreases |orders|
  {
    if orders == [] then []
    else
      var rest := RemoveOrder(orders[1..], pk);
      assert forall o :: o in orders <==> o == orders[0] || o in orders[1..];
      if orders[0].id == pk then rest else [orders[0]] + rest
  }

  /** With distinct keys, deleting the order at position `i` removes that row
      alone and keeps the others in their order. */
  lemma {:induction false} RemoveOrderRemovesOneRow(orders: seq<Order>, pk: nat, i: nat)
    requires Distinct(OrderIds(orders)) && i < |orders| && orders[i].id == pk
    ensures RemoveOrder(orders, pk) == orders[..i] + orders[i + 1..]
    ensures |RemoveOrder(orders, pk)| == |orders| - 1
    decreases |orders|
  {
    var tail := orders[1..];
    if i == 0 {
      assert pk !in OrderIds(tail) by {
        forall j | 0 <= j < |tail| ensures OrderIds(tail)[j] != pk {
          assert OrderIds(orders)[j + 1] != OrderIds(orders)[0];
        }
      }
      RemoveOrderKeeps(tail, pk);
      assert orders[..0] + orders[1..] == tail;
    } else {
      assert orders[0].id != pk by {
        assert OrderIds(orders)[0] == orders[0].id && OrderIds(orders)[i] == orders[i].id;
      }
      assert Distinct(OrderIds(tail)) by {
        forall j, k | 0 <= j < k < |tail| ensures OrderIds(tail)[j] != OrderIds(tail)[k] {
          assert OrderIds(orders)[j + 1] != OrderIds(orders)[k + 1];
        }
      }
      RemoveOrderRemovesOneRow(tail, pk, i - 1);
      assert RemoveOrder(orders, pk) == [orders[0]] + RemoveOrder(tail, pk);
      assert orders[..i] == [orders[0]] + tail[..i - 1];
      assert orders[i + 1..] == tail[i..];
    }
  }

  /** Deleting a key no row holds changes nothing. */
  lemma {:induction false} RemoveOrderKeeps(orders: seq<Order>, pk: nat)
    requires pk !in OrderIds(orders)
    ensures RemoveOrder(orders, pk) == orders
    decreases |orders|
  {
    if orders != [] {
      assert OrderIds(orders)[0] == orders[0].id;
      assert OrderIds(orders[1..]) == OrderIds(orders)[1..];
      RemoveOrderKeeps(orders[1..], pk);
    }
  }

  /** The orders `formset.save()` creates for customer `cid`, keyed from `first` on. */
  function NewOrders(entries: seq<Entry>, cid: nat, first: nat): (r: seq<Order>)
    ensures |r| == |entries|
    ensures forall k :: 0 <= k < |r| ==>
              r[k].id == first + k && r[k].product == entries[k].product && r[k].status == entries[k].status
    ensures OrdersOf(r, cid) == r
  {
    var r := seq(|entries|, k requires 0 <= k < |entries| =>
      Order(first + k, cid, entries[k].product, entries[k].status));
    OrdersOfWhole(r, cid);
    r
  }

  /** Selecting the orders of a customer who owns every order selects them all. */
  lemma {:induction false} OrdersOfWhole(orders: seq<Order>, cid: nat)
    requires forall k :: 0 <= k < |orders| ==> orders[k].customer == cid
    ensures OrdersOf(orders, cid) == orders
    decreases |orders|
  {
    if orders != [] {
      OrdersOfWhole(orders[1..], cid);
    }
  }

  /** Selecting the orders of a customer who owns none of them selects nothing. */
  lemma OrdersOfNone(orders: seq<Order>, cid: nat)
    requires forall k :: 0 <= k < |orders| ==> orders[k].customer != cid
    ensures OrdersOf(orders, cid) == []
  {
  }

  /** Creating orders for customer `cid` adds them to the global count and to
      `cid`'s count, and leaves every other customer's dashboard as it was. */
  lemma CreateOrderCounts(orders: seq<Order>, entries: seq<Entry>, cid: nat, first: nat, other: nat)
    requires other != cid
    ensures Tally(orders + NewOrders(entries, cid, first)).total == Tally(orders).total + |entries|
    ensures UserCounts(orders + NewOrders(entries, cid, first), cid).total ==
              UserCounts(orders, cid).total + |entries|
    ensures UserCounts(orders + NewOrders(entries, cid, first), other) == UserCounts(orders, other)
  {
    var added := NewOrders(entries, cid, first);
    OrdersOfAppend(orders, added, cid);
    OrdersOfAppend(orders, added, other);
    OrdersOfWhole(added, cid);
    OrdersOfNone(added, other);
    assert OrdersOf(orders, other) + [] == OrdersOf(orders, other);
  }

  /** The user a browser holds after logging in as `a`. */
  function SessionUser(a: Account): User
  {
    User(a.id, true, a.groups)
  }

  /** A freshly registered account is a customer: once logged in it reaches the
      customer pages, is sent from the dashboard to `user-page`, and is refused
      every admin page. */
  lemma RegisteredAccountIsCustomer(a: Account, verb: string, pk: nat, route: R.Route)
    requires a.groups == ["customer"]
    ensures R.IsCustomerRoute(route) ==> R.Dispatch(route, Request(SessionUser(a), verb, pk)).Forward?
    ensures R.IsAdminRoute(route) ==>
              R.Dispatch(route, Request(SessionUser(a), verb, pk)) == D.Reply(Text(Unauthorized))
    ensures R.Dispatch(R.Home, Request(SessionUser(a), verb, pk)) == D.Reply(Redirect("user-page"))
  {
    var req := Request(SessionUser(a), verb, pk);
    R.HomeDecision(req);
    if R.IsCustomerRoute(route) { R.CustomerRoutesDecision(route, req); }
    if R.IsAdminRoute(route) { R.AdminRoutesDecision(route, req); }
  }

  /** The routes whose views write to the tables. */
  predicate Mutates(route: R.Route)
  {
    route.Register? || route.AccountSettings? || route.CreateOrder? || route.UpdateOrder? || route.DeleteOrder?
  }

  class Store {
    var accounts: seq<Account>
    var groupNames: set<string>
    var customers: seq<Customer>
    var orders: seq<Order>
    var nextAccountId: nat
    var nextCustomerId: nat
    var nextOrderId: nat

    /** Keys are unique and below their counters, every customer belongs to an
        existing account and no account has two customers, and every group an
        account is in exists. */
    ghost predicate Valid()
      reads this
    {
      && Distinct(AccountIds(accounts)) && Below(AccountIds(accounts), nextAccountId)
      && Distinct(CustomerIds(customers)) && Below(CustomerIds(customers), nextCustomerId)
      && Distinct(OrderIds(orders)) && Below(OrderIds(orders), nextOrderId)
      && Distinct(CustomerUsers(customers))
      && (forall u :: u in CustomerUsers(customers) ==> u in AccountIds(accounts))
      && (forall i :: 0 <= i < |accounts| ==> forall g :: g in accounts[i].groups ==> g in groupNames)
    }

    /** An empty database in which the groups `groups` exist. */
    constructor (groups: set<string>)
      ensures Valid()
      ensures accounts == [] && customers == [] && orders == [] && groupNames == groups
    {
      accounts, groupNames, customers, orders := [], groups, [], [];
      nextAccountId, nextCustomerId, nextOrderId := 1, 1, 1;
    }

    /** `home`: the counters over every order and every customer. */
    function HomeView(): (h: HomeContext)
      reads this
      ensures h.totalCustomers == |customers|
      ensures h.counts == Tally(orders)
      ensures h.counts.delivered + h.counts.pending <= h.counts.total
    {
      HomeCounts(orders, |customers|)
    }

    /** `userPage`: the counters over the requesting user's own orders, or None
        for a user with no customer, where `request.user.customer` raises. */
    function UserPageView(user: User): (r: Option<Counts>)
      reads this
      ensures r.None? <==> user.id !in CustomerUsers(customers)
      ensures match Find(CustomerUsers(customers), user.id)
              case None => r.None?
              case Some(i) => r == Some(UserCounts(orders, customers[i].id))
      ensures r.Some? ==> r.value.total <= HomeView().counts.total &&
                          r.value.delivered <= HomeView().counts.delivered &&
                          r.value.pending <= HomeView().counts.pending
    {
      match Find(CustomerUsers(customers), user.id)
      case None => None
      case Some(i) => Some(UserCounts(orders, customers[i].id))
    }

    /** `customer`: the number of orders of customer `pk`, or None where
        `Customer.objects.get` raises. */
    function CustomerView(pk: nat): (r: Option<nat>)
      reads this
      ensures r.None? <==> pk !in CustomerIds(customers)
      ensures r.Some? ==> r.value == |OrdersOf(orders, pk)| && r.value <= |orders|
    {
      match Find(CustomerIds(customers), pk)
      case None => None
      case Some(_) => Some(|OrdersOf(orders, pk)|)
    }

    /** The answer of each view that writes nothing, once its guards let the request through. */
    function ReadView(route: R.Route, req: Request, form: FormInput): (resp: Response)
      reads this
      requires !Mutates(route)
      ensures route.Login? ==>
                resp == (if req.verb == Post && form.credentialsMatch then Redirect("home") else Page("accounts/login.html"))
      ensures route.Logout? ==> resp == Redirect("login")
      ensures route.Home? ==> resp == Page("accounts/dashboard.html")
      ensures route.UserPage? ==>
                resp == (if req.user.id in CustomerUsers(customers) then Page("accounts/user.html")
                         else ServerError("RelatedObjectDoesNotExist"))
      ensures route.Products? ==> resp == Page("accounts/products.html")
      ensures route.CustomerPage? ==>
                resp == (if req.pk in CustomerIds(customers) then Page("accounts/customer.html")
                         else ServerError("Customer.DoesNotExist"))
    {
      match route
      case Login => Session.LoginPage(req, form.credentialsMatch)
      case Logout => Session.LogoutUser(req).1
      case Home => Page("accounts/dashboard.html")
      case UserPage =>
        if UserPageView(req.user).Some? then Page("accounts/user.html") else ServerError("RelatedObjectDoesNotExist")
      case Products => Page("accounts/products.html")
      case CustomerPage =>
        if CustomerView(req.pk).Some? then Page("accounts/customer.html") else ServerError("Customer.DoesNotExist")
    }

    /** `registerPage`: a valid POST saves the account, adds it to group
        `customer` and creates its `Customer`, then redirects to `login`. If
        the group does not exist the saved account stays, with no group and
        no customer, and the lookup raises. */
    method RegisterPage(req: Request, form: FormInput) returns (resp: Response)
      requires Valid()
      modifies this
      ensures Valid()
      ensures groupNames == old(groupNames) && orders == old(orders) && nextOrderId == old(nextOrderId)
      ensures !(req.verb == Post && form.valid) ==>
                && resp == Page("accounts/register.html")
                && accounts == old(accounts) && customers == old(customers)
                && nextAccountId == old(nextAccountId) && nextCustomerId == old(nextCustomerId)
      ensures req.verb == Post && form.valid && "customer" in groupNames ==>
                && resp == Redirect("login")
                && accounts == old(accounts) + [Account(old(nextAccountId), form.username, ["customer"])]
                && customers == old(customers) + [Customer(old(nextCustomerId), old(nextAccountId), map[])]
                && nextAccountId == old(nextAccountId) + 1 && nextCustomerId == old(nextCustomerId) + 1
      ensures req.verb == Post && form.valid && "customer" !in groupNames ==>
                && resp == ServerError("Group.DoesNotExist")
                && accounts == old(accounts) + [Account(old(nextAccountId), form.username, [])]
                && customers == old(customers)
                && nextAccountId == old(nextAccountId) + 1 && nextCustomerId == old(nextCustomerId)
    {
      if req.verb != Post || !form.valid {
        return Page("accounts/register.html");
      }
      var uid := nextAccountId;
      var saved := Account(uid, form.username, []);
      assert AccountIds(accounts + [saved]) == AccountIds(accounts) + [uid];
      accounts := accounts + [saved];
      nextAccountId := nextAccountId + 1;
      if "customer" !in groupNames {
        return ServerError("Group.DoesNotExist");
      }
      var member := saved.(groups := ["customer"]);
      assert AccountIds(accounts[|accounts| - 1 := member]) == AccountIds(accounts);
      accounts := accounts[|accounts| - 1 := member];
      var created := Customer(nextCustomerId, uid, map[]);
      assert uid !in CustomerUsers(customers);
      assert CustomerIds(customers + [created]) == CustomerIds(customers) + [created.id];
      assert CustomerUsers(customers + [created]) == CustomerUsers(customers) + [uid];
      customers := customers + [created];
      nextCustomerId := nextCustomerId + 1;
      resp := Redirect("login");
    }

    /** `accountSettings`: a valid POST replaces the profile fields of the
        requesting user's customer; the settings page is shown either way. */
    method AccountSettings(req: Request, form: FormInput) returns (resp: Response)
      requires Valid()
      modifies this
      ensures Valid()
      ensures accounts == old(accounts) && groupNames == old(groupNames) && orders == old(orders)
      ensures nextAccountId == old(nextAccountId) && nextCustomerId == old(nextCustomerId)
      ensures nextOrderId == old(nextOrderId)
      ensures match Find(CustomerUsers(old(customers)), req.user.id)
              case None =>
                resp == ServerError("RelatedObjectDoesNotExist") && customers == old(customers)
              case Some(i) =>
                && resp == Page("accounts/account_settings.html")
                && customers == if req.verb == Post && form.valid
                                then old(customers)[i := old(customers)[i].(details := form.details)]
                                else old(customers)
    {
      match Find(CustomerUsers(customers), req.user.id)
      case None =>
        resp := ServerError("RelatedObjectDoesNotExist");
      case Some(i) =>
        if req.verb == Post && form.valid {
          var edited := customers[i].(details := form.details);
          assert CustomerIds(customers[i := edited]) == CustomerIds(customers);
          assert CustomerUsers(customers[i := edited]) == CustomerUsers(customers);
          customers := customers[i := edited];
        }
        resp := Page("accounts/account_settings.html");
    }

    /** `createOrder`: for an existing customer, a valid POST saves one new
        order per filled-in form and redirects to `/`. */
    method CreateOrder(req: Request, form: FormInput) returns (resp: Response)
      requires Valid()
      modifies this
      ensures Valid()
      ensures accounts == old(accounts) && groupNames == old(groupNames) && customers == old(customers)
      ensures nextAccountId == old(nextAccountId) && nextCustomerId == old(nextCustomerId)
      ensures req.pk !in CustomerIds(customers) ==>
                resp == ServerError("Customer.DoesNotExist") && orders == old(orders) && nextOrderId == old(nextOrderId)
      ensures req.pk in CustomerIds(customers) && req.verb == Post && form.valid ==>
                && resp == Redirect("/")
                && orders == old(orders) + NewOrders(form.entries, req.pk, old(nextOrderId))
                && nextOrderId == old(nextOrderId) + |form.entries|
      ensures req.pk in CustomerIds(customers) && !(req.verb == Post && form.valid) ==>
                resp == Page("accounts/order_form.html") && orders == old(orders) && nextOrderId == old(nextOrderId)
    {
      if Find(CustomerIds(customers), req.pk).None? {
        return ServerError("Customer.DoesNotExist");
      }
      if req.verb == Post && form.valid {
        var created := NewOrders(form.entries, req.pk, nextOrderId);
        assert OrderIds(orders + created) == OrderIds(orders) + OrderIds(created);
        assert forall k :: 0 <= k < |created| ==> OrderIds(created)[k] == nextOrderId + k;
        orders := orders + created;
        nextOrderId := nextOrderId + |form.entries|;
        return Redirect("/");
      }
      resp := Page("accounts/order_form.html");
    }

    /** `updateOrder`: for an existing order, a valid POST writes the form's
        fields into it, keeping its key, and redirects to `/`. */
    method UpdateOrder(req: Request, form: FormInput) returns (resp: Response)
      requires Valid()
      modifies this
      ensures Valid()
      ensures accounts == old(accounts) && groupNames == old(groupNames) && customers == old(customers)
      ensures nextAccountId == old(nextAccountId) && nextCustomerId == old(nextCustomerId)
      ensures nextOrderId == old(nextOrderId)
      ensures |orders| == |old(orders)| && OrderIds(orders) == OrderIds(old(orders))
      ensures match Find(OrderIds(old(orders)), req.pk)
              case None =>
                resp == ServerError("Order.DoesNotExist") && orders == old(orders)
              case Some(i) =>
                && orders == (if req.verb == Post && form.valid
                              then old(orders)[i := Order(req.pk, form.fields.customer, form.fields.product, form.fields.status)]
                              else old(orders))
                && resp == (if req.verb == Post && form.valid then Redirect("/") else Page("accounts/order_form.html"))
    {
      match Find(OrderIds(orders), req.pk)
      case None =>
        resp := ServerError("Order.DoesNotExist");
      case Some(i) =>
        if req.verb == Post && form.valid {
          var f := form.fields;
          var edited := Order(req.pk, f.customer, f.product, f.status);
          assert OrderIds(orders[i := edited]) == OrderIds(orders);
          orders := orders[i := edited];
          resp := Redirect("/");
        } else {
          resp := Page("accounts/order_form.html");
        }
    }

    /** `deleteOrder`: for an existing order, a POST deletes it; the result of
        `redirect('/')` is dropped, so the delete page is shown either way. */
    method DeleteOrder(req: Request) returns (resp: Response)
      requires Valid()
      modifies this
      ensures Valid()
      ensures accounts == old(accounts) && groupNames == old(groupNames) && customers == old(customers)
      ensures nextAccountId == old(nextAccountId) && nextCustomerId == old(nextCustomerId)
      ensures nextOrderId == old(nextOrderId)
      ensures req.pk !in OrderIds(old(orders)) ==>
                resp == ServerError("Order.DoesNotExist") && orders == old(orders)
      ensures req.pk in OrderIds(old(orders)) ==>
                && resp == Page("accounts/delete.html")
                && orders == (if req.verb == Post then RemoveOrder(old(orders), req.pk) else old(orders))
                && |orders| == (if req.verb == Post then |old(orders)| - 1 else |old(orders)|)
    {
      match Find(OrderIds(orders), req.pk)
      case None =>
        resp := ServerError("Order.DoesNotExist");
      case Some(i) =>
        if req.verb == Post {
          RemoveOrderRemovesOneRow(orders, req.pk, i);
          var kept := RemoveOrder(orders, req.pk);
          RemoveIdsKeepValid(orders, req.pk, i, nextOrderId);
          orders := kept;
        }
        resp := Page("accounts/delete.html");
    }

    /** One request: the route's guards run first, outermost first; a refused
        request changes nothing, and so does every view that only reads. */
    method Serve(route: R.Route, req: Request, form: FormInput) returns (resp: Response)
      requires Valid()
      modifies this
      ensures Valid()
      ensures R.Dispatch(route, req).Reply? ==>
                resp == R.Dispatch(route, req).resp &&
                unchanged(this)
      ensures R.Dispatch(route, req).Forward? && !Mutates(route) ==>
                resp == old(ReadView(route, req, form)) && unchanged(this)
      ensures !Mutates(route) ==> unchanged(this)
    {
      match R.Dispatch(route, req)
      case Reply(r) =>
        resp := r;
      case Forward(_) =>
        match route
        case Register => resp := RegisterPage(req, form);
        case AccountSettings => resp := AccountSettings(req, form);
        case CreateOrder => resp := CreateOrder(req, form);
        case UpdateOrder => resp := UpdateOrder(req, form);
        case DeleteOrder => resp := DeleteOrder(req);
        case _ => resp := ReadView(route, req, form);
    }
  }

  /** Removing one row keeps the order keys distinct and below the counter. */
  lemma RemoveIdsKeepValid(orders: seq<Order>, pk: nat, i: nat, bound: nat)
    requires Distinct(OrderIds(orders)) && Below(OrderIds(orders), bound)
    requires i < |orders| && RemoveOrder(orders, pk) == orders[..i] + orders[i + 1..]
    ensures Distinct(OrderIds(RemoveOrder(orders, pk))) && Below(OrderIds(RemoveOrder(orders, pk)), bound)
  {
    var kept := orders[..i] + orders[i + 1..];
    forall k | 0 <= k < |kept|
      ensures kept[k] == orders[if k < i then k else k + 1]
    {
    }
    assert OrderIds(kept) == OrderIds(orders)[..i] + OrderIds(orders)[i + 1..];
  }
}
