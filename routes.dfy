/** The redirect surface of the application and the outcome of a handler's
    `try` block. */
module Routes {
  import opened Js

  /** The pages a handler or a guard can push. */
  datatype Route = Login | UserProfile | BusinessDashboard | Register(userType: string)

  /** The path the router is given for each route. */
  function Href(r: Route): (path: string)
    ensures r.Register? ==> path == "/register?type=" + r.userType
  {
    match r
    case Login => "/login"
    case UserProfile => "/user-profile"
    case BusinessDashboard => "/business-dashboard"
    case Register(t) => "/register?type=" + t
  }

  /** How a `try` block ended: it pushed `route`, or it threw an error whose
      `message` is `Some` string or `undefined`. */
  datatype Step = Done(route: Route) | Threw(message: Option<string>)
}
