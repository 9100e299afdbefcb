/** The authentication service: a login handle and password are checked
    against the stored hash, and a signed token is issued. */
module Auth {
  import opened Common
  import opened Store

  /** The claims of a token: the user id and the login handle. */
  datatype Payload = Payload(sub: Id, user: string)

  datatype UserToken = UserToken(accessToken: string, userName: string)

  /** The user with login handle `handle` and a password that `compare`
      accepts against their stored hash. */
  ghost predicate Accepts(users: map<Id, User>, compare: (string, string) -> bool, handle: string, password: string) {
    exists k :: k in users && users[k].user == handle && compare(password, users[k].password)
  }

  class AuthService {
    const prisma: Database
    /** The check of a plain password against a stored bcrypt hash. */
    const compare: (string, string) -> bool
    /** The token signer (a JWT with the service's secret). */
    const sign: Payload -> string

    constructor (prisma: Database, compare: (string, string) -> bool, sign: Payload -> string)
      ensures this.prisma == prisma && this.compare == compare && this.sign == sign
    {
      this.prisma := prisma;
      this.compare := compare;
      this.sign := sign;
    }

    /** The user with this handle, with the plain password in place of the
        hash, when the password matches; Unauthorized otherwise. */
    function ValidateUser(handle: string, password: string): (r: Result<User>)
      reads prisma
      requires prisma.Valid()
      ensures r.Ok? <==> Accepts(prisma.users.rows, compare, handle, password)
      ensures r.Ok? ==> r.value.id in prisma.users.rows && r.value.user == handle
                        && r.value == prisma.users.rows[r.value.id].(password := password)
      ensures r.Err? ==> r.error == Unauthorized
    {
      if exists k :: k in prisma.users.rows && prisma.users.rows[k].user == handle then
        var k :| k in prisma.users.rows && prisma.users.rows[k].user == handle;
        var u := prisma.users.rows[k];
        if compare(password, u.password) then Ok(u.(password := password)) else Err(Unauthorized)
      else
        Err(Unauthorized)
    }

    /** Log in: a token signed over the user's id and handle, and the
        handle; Unauthorized when the handle or password is wrong. */
    function Login(handle: string, password: string): (r: Result<UserToken>)
      reads prisma
      requires prisma.Valid()
      ensures r.Ok? <==> Accepts(prisma.users.rows, compare, handle, password)
      ensures r.Err? ==> r.error == Unauthorized
      ensures r.Ok? ==> exists k :: k in prisma.users.rows && prisma.users.rows[k].user == handle
                          && r.value == UserToken(sign(Payload(k, handle)), handle)
    {
      match ValidateUser(handle, password)
      case Err(e) => Err(e)
      case Ok(u) => Ok(UserToken(sign(Payload(u.id, u.user)), u.user))
    }
  }
}
