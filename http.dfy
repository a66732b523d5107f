/** The parts of an Express response the handlers set: a status code, a JSON
    body that is either `{ message }` or a handler-specific value, and at
    most one operation on the `token` cookie. */
module Http {
  import Strings

  datatype Cookie =
    | NoCookie
      /** `res.cookie('token', value, { httpOnly, secure, maxAge })`. */
    | SetToken(value: string, httpOnly: bool, secure: bool, maxAge: nat)
      /** `res.clearCookie('token')`. */
    | ClearToken

  datatype Payload<+T> = Message(message: string) | Data(value: T)

  datatype Reply<+T> = Reply(status: nat, body: Payload<T>, cookie: Cookie)

  /** `res.status(status).json({ message })`, for an error and for a plain acknowledgement alike. */
  function Respond<T>(status: nat, message: string): Reply<T>
  {
    Reply(status, Message(message), NoCookie)
  }

  /** `res.status(status).json(value)`. */
  function Send<T>(status: nat, value: T): Reply<T>
  {
    Reply(status, Data(value), NoCookie)
  }

  /** One day in milliseconds, the lifetime of the session cookie. */
  const TokenMaxAge: nat := 24 * 60 * 60 * 1000

  /** The session cookie both register and login set; `secure` only in production. */
  function TokenCookie(token: string, nodeEnv: string): (c: Cookie)
    ensures c.SetToken? && c.httpOnly && c.maxAge == 86400000
    ensures c.value == token && (c.secure <==> nodeEnv == "production")
  {
    SetToken(token, true, nodeEnv == "production", TokenMaxAge)
  }

  /** `messages.join('. ')` over a Mongoose validation error's messages. */
  function JoinMessages(messages: seq<string>): string
  {
    Strings.Join(messages, ". ")
  }
}
