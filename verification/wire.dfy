/** The two JSON crossings between the UI and the execution service: the
    client's request body as the handler decodes it, and the handler's answer
    as the client receives it. */
module Wire {
  import opened Basics
  import opened Text
  import App
  import Backend

  /** The client sends every property, so the handler sees them all present. */
  function ToBackendRequest(req: App.RunSnapshot): (r: Backend.RunRequest)
    ensures r.language == req.language && r.code == req.code
    ensures Backend.EffectiveStdin(r.stdin) == req.stdin
    ensures req.timeoutSeconds != 0 ==> Backend.EffectiveTimeout(r.timeoutSeconds) == req.timeoutSeconds
  {
    Backend.RunRequest(req.language, req.code, Present(req.stdin), Present(req.timeoutSeconds))
  }

  /** The serialised response: every property is present, a missing exit code
      travels as `null`. */
  function ToReply(resp: Backend.RunResponse): (r: App.PartialReply)
    ensures r.stdout == Present(resp.stdout) && r.stderr == Present(resp.stderr)
    ensures r.timedOut == Present(resp.timedOut)
    ensures !r.exitCode.Absent?
    ensures r.exitCode.Null? <==> resp.exitCode.None?
    ensures resp.exitCode.Some? ==> r.exitCode == Present(resp.exitCode.value)
  {
    App.PartialReply(
      Present(resp.stdout),
      Present(resp.stderr),
      Present(resp.timedOut),
      match resp.exitCode case Some(c) => Present(c) case None => Null)
  }

  /** The result as the service reported it, field for field. */
  function Reported(resp: Backend.RunResponse): App.Output
  {
    App.Output(resp.stdout, resp.stderr, resp.timedOut, resp.exitCode)
  }

  /** The client's defaults never alter a reply the service produced: after
      normalisation the UI holds exactly what the handler reported. */
  lemma ReplyRoundTrip(resp: Backend.RunResponse)
    ensures App.Normalize(ToReply(resp)) == Reported(resp)
  {
  }

  /** How the HTTP client settles: a response body is delivered, an error
      status rejects the request with the client's standard message. */
  function Deliver(answer: Result<Backend.RunResponse, Backend.HttpError>): (t: App.Transport)
    ensures answer.Ok? <==> t.Delivered?
    ensures answer.Ok? ==> t.reply == ToReply(answer.value)
    ensures answer.Err? ==> t.message != ""
  {
    match answer
    case Ok(resp) => App.Delivered(ToReply(resp))
    case Err(e) => App.Failed("Request failed with status code " + IntToDecimal(e.status))
  }
}
