/** What a handler writes to Express's `res`: a status code with a JSON body,
    and, for the register handler, a cookie. */
module Express {

  /** `res.status(status).json(body)`. */
  datatype Response<B> = Response(status: int, body: B)

  /** `res.cookie(name, value, options)`, with the options the handlers set. */
  datatype Cookie = Cookie(name: string, value: string, httpOnly: bool, sameSite: string, maxAge: int)
}
