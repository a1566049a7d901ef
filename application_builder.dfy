/** The exception handler as an extension of the application builder. It
    checks the builder before the context and then does what the context
    extension does: the reset of the response is the same code. */
module ApplicationBuilderExtensions {
  import opened Common
  import opened HttpContextExtensions

  /** An `IApplicationBuilder`; only its identity matters here. */
  class ApplicationBuilder {
    constructor ()
    {
    }
  }

  /** `app.HandleException(context)`. */
  method HandleException(app: ApplicationBuilder?, context: HttpContext?, reasonPhrase: int -> string)
    returns (r: Result<HandlerOutcome>)
    requires context != null ==> context.response.Valid()
    modifies if context == null then {} else {context.response}
    ensures app == null ==> r == Failure(ArgumentNullException("app")) && (context != null ==> unchanged(context.response))
    ensures app != null && context == null ==> r == Failure(ArgumentNullException("context"))
    ensures app != null && context != null && old(context.response.hasStarted) ==>
              r == Success(CompletedTask) && unchanged(context.response)
    ensures app != null && context != null && !old(context.response.hasStarted) ==>
              && r == Success(Executed(ProblemResult(old(context.response.statusCode), reasonPhrase)))
              && context.response.statusCode == old(context.response.statusCode)
              && context.response.headers == ResetHeaders(old(context.response.headers))
              && !context.response.hasStarted
  {
    if app == null {
      return Failure(ArgumentNullException("app"));
    }
    r := HttpContextExtensions.HandleException(context, reasonPhrase);
  }
}
