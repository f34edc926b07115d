/**
 The request and response values the access rules and the views pass around.
 Only what the decisions read is kept: whether the user is logged in, the
 names of the user's groups in the order `groups.all()` yields them, the HTTP
 method and the primary key captured from the URL.
 */
module Http {

  datatype Option<+T> = None | Some(value: T)

  /** `request.user`: its primary key, `is_authenticated`, and its group names. */
  datatype User = User(id: nat, authenticated: bool, groups: seq<string>)

  /** The anonymous user the framework installs after `logout`: not logged in, in no group. */
  const Anonymous: User := User(0, false, [])

  /** A request: who sends it, `request.method` (as `verb`), and the `pk` argument of the
      routes that take one (the other routes ignore it). */
  datatype Request = Request(user: User, verb: string, pk: nat)

  const Post := "POST"

  /** What a view or a guard answers with. */
  datatype Response =
    | Redirect(to: string)            // redirect('<url name or path>')
    | Text(body: string)              // HttpResponse('<body>')
    | Page(template: string)          // render(request, '<template>', context)
    | ServerError(exception: string)  // an exception escaped the view
    | NoResponse                      // the wrapper fell off its end and returned None

  const Unauthorized := "You are not authorized to view this page"
}
