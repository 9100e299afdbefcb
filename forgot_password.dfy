/** The password-reset service: a six-character code is stored on the user
    and mailed, and a matching code lets the password be replaced once. */
module ForgotPassword {
  import opened Common
  import opened Store

  const CODE_SENT := "Código de redefinição enviado com sucesso!"
  const PASSWORD_RESET := "Senha redefinida com sucesso!"

  /** A reset code: the first six characters of a version-4 UUID, which are
      lower-case hexadecimal digits. */
  predicate IsResetCode(code: string) {
    |code| == 6 && forall i :: 0 <= i < |code| ==> code[i] in "0123456789abcdef"
  }

  /** The user registered under `email`, if any. */
  predicate Registered(users: map<Id, User>, email: string) {
    exists k :: k in users && users[k].email == email
  }

  class ForgotPasswordService {
    const prisma: Database
    /** The password hash (bcrypt with cost 10). */
    const hash: string -> string

    constructor (prisma: Database, hash: string -> string)
      ensures this.prisma == prisma && this.hash == hash
    {
      this.prisma := prisma;
      this.hash := hash;
    }

    /** Store a fresh code on the user with `email` and mail it.  An unknown
        e-mail is NotFound; a failed delivery is an InternalServerError,
        but the code stays stored. */
    method SendResetCode(email: string, code: string, delivered: bool) returns (r: Result<string>)
      requires prisma.Valid() && IsResetCode(code)
      modifies prisma`users
      ensures prisma.Valid()
      ensures !Registered(old(prisma.users.rows), email) ==>
                r == Err(NotFound) && prisma.users == old(prisma.users)
      ensures Registered(old(prisma.users.rows), email) ==>
                && r == (if delivered then Ok(CODE_SENT) else Err(InternalServerError))
                && prisma.users.nextId == old(prisma.users.nextId)
                && prisma.users.rows.Keys == old(prisma.users.rows.Keys)
                && forall k :: k in prisma.users.rows ==>
                     prisma.users.rows[k] ==
                       if old(prisma.users.rows)[k].email == email
                       then old(prisma.users.rows)[k].(resetCode := Some(code))
                       else old(prisma.users.rows)[k]
    {
      if k :| k in prisma.users.rows && prisma.users.rows[k].email == email {
        var u := prisma.users.rows[k];
        prisma.users := prisma.users.(rows := prisma.users.rows[k := u.(resetCode := Some(code))]);
        r := if delivered then Ok(CODE_SENT) else Err(InternalServerError);
      } else {
        r := Err(NotFound);
      }
    }

    /** Replace the password of the user with `email` when `code` equals the
        code stored on them, and clear the code.  `code` is None when the body
        carries a null code; it then equals an absent stored code.  An unknown
        e-mail is NotFound; any other code is a BadRequest. */
    method ResetPassword(email: string, code: Option<string>, newPassword: string) returns (r: Result<string>)
      requires prisma.Valid()
      modifies prisma`users
      ensures prisma.Valid()
      ensures !Registered(old(prisma.users.rows), email) ==>
                r == Err(NotFound) && prisma.users == old(prisma.users)
      ensures forall k :: k in old(prisma.users.rows) && old(prisma.users.rows)[k].email == email ==>
                if old(prisma.users.rows)[k].resetCode != code
                then r == Err(BadRequest) && prisma.users == old(prisma.users)
                else && r == Ok(PASSWORD_RESET)
                     && prisma.users == old(prisma.users).(rows := old(prisma.users.rows)[k :=
                          old(prisma.users.rows)[k].(password := hash(newPassword), resetCode := None)])
    {
      if k :| k in prisma.users.rows && prisma.users.rows[k].email == email {
        var u := prisma.users.rows[k];
        if u.resetCode != code {
          return Err(BadRequest);
        }
        prisma.users := prisma.users.(rows := prisma.users.rows[k := u.(password := hash(newPassword), resetCode := None)]);
        r := Ok(PASSWORD_RESET);
      } else {
        r := Err(NotFound);
      }
    }

    /** A code works once: repeating a successful reset with the same code
        is a BadRequest.  A null code is the exception: the successful reset
        cleared the stored code, so the null code matches again. */
    method ResetTwice(email: string, code: Option<string>, newPassword: string) returns (first: Result<string>, second: Result<string>)
      requires prisma.Valid()
      modifies prisma`users
      ensures prisma.Valid()
      ensures first.Ok? && code.Some? ==> second == Err(BadRequest)
      ensures first.Ok? && code.None? ==> second == Ok(PASSWORD_RESET)
    {
      ghost var before := prisma.users.rows;
      first := ResetPassword(email, code, newPassword);
      if first.Ok? {
        ghost var k :| k in before && before[k].email == email;
        assert prisma.users.rows[k].email == email && prisma.users.rows[k].resetCode.None?;
      }
      second := ResetPassword(email, code, newPassword);
    }
  }
}
