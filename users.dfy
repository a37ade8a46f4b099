/** The Prisma `User` model as the handlers see it. */
module Users {
  import opened JsRuntime

  /** Values of the `UserRole` enum; Prisma represents them as these strings. */
  const ADMIN: string := "ADMIN"
  const USER: string := "USER"

  /** A row of the user table. `id`, `image` and `createdAt` are filled in by
      the database when the row is created. */
  datatype UserRow = UserRow(
    id: string,
    name: string,
    email: string,
    password: string,
    role: string,
    image: Option<string>,
    createdAt: string)

  /** The user the authentication middleware attaches to `req.user`: the row
      restricted to the fields its query selects. */
  datatype AuthUser = AuthUser(id: string, name: string, email: string, role: string, image: Option<string>)

  /** The `select: {id, name, email, role, image}` of the middleware's query. */
  function SelectAuthFields(row: UserRow): AuthUser
  {
    AuthUser(row.id, row.name, row.email, row.role, row.image)
  }
}
