/** The decisions `app.js` makes itself: which browser origins CORS admits,
    the health check, the catch-all 404 and the global error handler. */
module App {
  import opened Wrappers
  import opened Http

  const HealthMessage := "Adoptly API is up and running!"
  const ServerError := "An unexpected error occurred on the server."
  const CorsPrefix := "CORS policy violation: "
  const CorsSuffix := " not allowed"

  /** `cb(null, true)` or `cb(new Error(...))`; the error then reaches the global handler. */
  datatype CorsDecision = Allow | Reject(error: string)

  function CorsError(origin: string): string
  {
    CorsPrefix + origin + CorsSuffix
  }

  /** The `origin` callback. `frontendUrl` is `FRONTEND_URL`, which may be unset. */
  function Cors(origin: Option<string>, frontendUrl: Option<string>): (r: CorsDecision)
    ensures r == Allow <==> origin.None? || origin.value == "" || frontendUrl == origin
    ensures r.Reject? ==> r.error == CorsError(origin.value)
    ensures r.Reject? ==> r.error[|CorsPrefix|..|r.error| - |CorsSuffix|] == origin.value
  {
    if origin.None? || origin.value == "" then Allow
    else if frontendUrl == origin then Allow
    else Reject(CorsError(origin.value))
  }

  /** With `FRONTEND_URL` unset, only requests without an origin pass. */
  lemma UnsetFrontendAdmitsOnlyNoOrigin(origin: Option<string>)
    ensures Cors(origin, None) == Allow <==> origin.None? || origin.value == ""
  {
  }

  /** `GET /api/v1`. */
  function Health(): (r: Reply<()>)
    ensures r.status == 200 && r.body == Message(HealthMessage) && r.cookie == NoCookie
  {
    Respond(200, HealthMessage)
  }

  const NotFoundPrefix := "Not Found - The requested URL "
  const NotFoundSuffix := " does not exist."

  function NotFoundMessage(url: string): string
  {
    NotFoundPrefix + url + NotFoundSuffix
  }

  /** The catch-all handler for a request no router matched. */
  function NotFound(originalUrl: string): (r: Reply<()>)
    ensures r.status == 404 && r.body.Message? && r.cookie == NoCookie
    ensures r.body.message == NotFoundMessage(originalUrl)
    ensures r.body.message[|NotFoundPrefix|..|r.body.message| - |NotFoundSuffix|] == originalUrl
  {
    Respond(404, NotFoundMessage(originalUrl))
  }

  /** The global error handler: every error gets the same 500 answer, whatever it says. */
  function ErrorHandler<T>(error: string): (r: Reply<T>)
    ensures r.status == 500 && r.body == Message(ServerError) && r.cookie == NoCookie
  {
    Respond(500, ServerError)
  }

  /** A refused origin ends in the global handler's 500. */
  lemma RejectedOriginIs500(origin: string, frontendUrl: Option<string>)
    requires origin != "" && frontendUrl != Some(origin)
    ensures Cors(Some(origin), frontendUrl).Reject?
    ensures ErrorHandler<()>(Cors(Some(origin), frontendUrl).error).status == 500
  {
  }
}
