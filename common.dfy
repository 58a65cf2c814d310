/** Outcomes of calls into hosted services, which the model does not run. */
module Results {

  datatype Option<+T> = None | Some(value: T)

  /** What a remote call (database, auth or payment provider) reported:
      its data on success, or an error the caller throws on. */
  datatype Remote<+T> = Ok(value: T) | Failed
}

/** The JSON responses the route handlers send back. */
module Http {

  datatype Body =
    | SessionCreated(sessionId: string)   // { sessionId }
    | Received                            // { received: true }
    | ErrorMessage(message: string)       // { error }

  /** `NextResponse.json(body, { status })`; the status defaults to 200. */
  datatype Response = Response(status: int, body: Body)
}
