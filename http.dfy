/**
 * What the handlers see of HTTP: the response they send, the outcome of the
 * one remote call they make (given as an oracle), and the environment.
 */
module Http {
  import opened Wrappers

  /** The JSON text of a remote response body or of an error detail, kept opaque. */
  type Payload = string

  /** The body sent back to the webhook caller. */
  datatype Body =
    | ErrorBody(error: string)                        // `{ error }`
    | ErrorDetails(error: string, details: Payload)   // `{ error, details }`
    | DataBody(message: string, data: Payload)        // `{ message, data }`
    | TextBody(text: string)                          // a plain-text body given to `send`

  datatype Response = Response(status: int, body: Body)

  /**
   * An error thrown by the HTTP client: `response` holds the data of an
   * answer that came back with an error status, `requestSent` says whether
   * a request went out at all, `message` is the error's message.
   */
  datatype ClientError = ClientError(response: Option<Payload>, requestSent: bool, message: string)

  /** The outcome of one remote POST: the response data, or the error it threw. */
  datatype CallOutcome = Answered(data: Payload) | Threw(error: ClientError)

  /** The process environment, variable name to value. */
  type Env = map<string, string>

  /** `process.env[key]` is truthy: set and not empty. */
  predicate EnvSet(env: Env, key: string) {
    key in env && env[key] != ""
  }

  /** `process.env[key]`, `undefined` when unset. */
  function EnvGet(env: Env, key: string): Option<string> {
    if key in env then Some(env[key]) else None
  }

  /** The credentials object given to the HTTP client. */
  datatype Auth =
    | UserAuth(username: Option<string>, password: Option<string>)   // `{ username, password }`
    | EmailAuth(email: Option<string>, password: Option<string>)     // `{ email, password }`
}
