/**
 The three access decorators of accounts/decorators.py as decision functions.
 Each one either forwards the request, untouched, to the wrapped view or
 answers in the view's place.
 */
module Decorators {
  import opened Http

  /** What a wrapper does with a request. */
  datatype Outcome = Forward(req: Request) | Reply(resp: Response)

  /** The local `group`: the name of the first of the user's groups, or None
      when the user is in no group. */
  function FirstGroup(user: User): (g: Option<string>)
    ensures g.None? <==> user.groups == []
    ensures g.Some? ==> g.value == user.groups[0]
  {
    if |user.groups| > 0 then Some(user.groups[0]) else None
  }

  /** Python's `group in roles_allowed` on a list of names: None is never an element. */
  predicate InList(group: Option<string>, roles: seq<string>)
  {
    group.Some? && group.value in roles
  }

  /** True when the user's first group is `name`; no later group is looked at. */
  predicate FirstGroupIs(user: User, name: string)
  {
    |user.groups| > 0 && user.groups[0] == name
  }

  /** `unauthenticated_user`: a logged-in user is sent to `home`; anyone else
      reaches the view with the request unchanged. */
  function UnauthenticatedUser(req: Request): (o: Outcome)
    ensures o.Forward? <==> !req.user.authenticated
    ensures o.Forward? ==> o.req == req
    ensures o.Reply? ==> o.resp == Redirect("home")
  {
    if req.user.authenticated then Reply(Redirect("home")) else Forward(req)
  }

  /** The default of `users_allowed(roles_allowed=[])`. */
  const DefaultRoles: seq<string> := []

  /** `users_allowed(roles)`: the view runs exactly when the user has a group
      and the first one is listed; otherwise the fixed "not authorized" text. */
  function UsersAllowed(roles: seq<string>, req: Request): (o: Outcome)
    ensures o.Forward? <==> |req.user.groups| > 0 && req.user.groups[0] in roles
    ensures o.Forward? ==> o.req == req
    ensures o.Reply? ==> o.resp == Text(Unauthorized)
  {
    var group := FirstGroup(req.user);
    if InList(group, roles) then Forward(req) else Reply(Text(Unauthorized))
  }

  /** `only_admin`: first group `customer` is sent to `user-page`, first group
      `admin` reaches the view, and every other user (no group included) gets
      no response at all. */
  function OnlyAdmin(req: Request): (o: Outcome)
    ensures o.Forward? <==> FirstGroupIs(req.user, "admin")
    ensures o.Forward? ==> o.req == req
    ensures o == Reply(Redirect("user-page")) <==> FirstGroupIs(req.user, "customer")
    ensures o == Reply(NoResponse) <==>
              !FirstGroupIs(req.user, "admin") && !FirstGroupIs(req.user, "customer")
  {
    var group := FirstGroup(req.user);
    if group == Some("customer") then Reply(Redirect("user-page"))
    else if group == Some("admin") then Forward(req)
    else Reply(NoResponse)
  }

  /** Two users whose first groups agree are treated alike by `users_allowed`:
      groups after the first never change the decision. */
  lemma UsersAllowedReadsFirstGroupOnly(roles: seq<string>, req: Request, user': User)
    requires FirstGroup(user') == FirstGroup(req.user)
    ensures UsersAllowed(roles, req.(user := user')).Forward? == UsersAllowed(roles, req).Forward?
    ensures UsersAllowed(roles, req).Reply? ==>
              UsersAllowed(roles, req.(user := user')) == UsersAllowed(roles, req)
  {
  }

  /** A user in no group, or the default empty allow-list, is always refused. */
  lemma UsersAllowedRefusesNoGroupOrNoRoles(roles: seq<string>, req: Request)
    requires req.user.groups == [] || roles == DefaultRoles
    ensures UsersAllowed(roles, req) == Reply(Text(Unauthorized))
  {
  }

  /** Growing the allow-list never turns a permitted request into a refused one. */
  lemma UsersAllowedMonotone(roles: seq<string>, more: seq<string>, req: Request)
    requires forall r :: r in roles ==> r in more
    ensures UsersAllowed(roles, req).Forward? ==> UsersAllowed(more, req) == Forward(req)
  {
  }

  /** `only_admin` lets in exactly whom `users_allowed(['admin'])` lets in; the
      two differ only in how they refuse. */
  lemma OnlyAdminAgreesWithUsersAllowedAdmin(req: Request)
    ensures OnlyAdmin(req).Forward? <==> UsersAllowed(["admin"], req).Forward?
    ensures OnlyAdmin(req).Reply? ==>
              OnlyAdmin(req).resp in {Redirect("user-page"), NoResponse}
  {
  }
}
