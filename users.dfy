/** The user service: sign-up with unique e-mail and handle, a default
    avatar and a hashed password; lookups by id and by handle; updates that
    re-hash a new password; removal. */
module Users {
  import opened Common
  import opened Store

  /** The avatar a user gets when the sign-up carries no image. */
  const DEFAULT_IMAGE := "https://img.freepik.com/vetores-premium/icone-de-perfil-de-avatar-padrao-imagem-de-usuario-de-midia-social-cinza-avatar-icone-em-branco-silhueta-vetor-ilustracao_561158-3485.jpg?w=740"

  /** What became of the image sent with a request: none was sent, it was
      stored at `url`, or the object store refused it. */
  datatype ImageUpload = NoImage | ImageUploaded(url: string) | ImageUploadFailed

  /** The body of a sign-up. */
  datatype UserInput = UserInput(name: string, user: string, email: string, password: string, roles: Option<Role>)

  /** The body of an update; a field left out is None, and `roles` may be
      set to null. */
  datatype UserPatch = UserPatch(
    name: Option<string>,
    user: Option<string>,
    email: Option<string>,
    password: Option<string>,
    roles: Option<Option<Role>>)

  predicate EmailTaken(rows: map<Id, User>, email: string, except: Option<Id>) {
    exists k :: k in rows && Some(k) != except && rows[k].email == email
  }

  predicate HandleTaken(rows: map<Id, User>, handle: string, except: Option<Id>) {
    exists k :: k in rows && Some(k) != except && rows[k].user == handle
  }

  /** The row an update writes, given the password hash function: a
      non-empty new password is stored hashed, an empty one as it is. */
  function Patched(u: User, p: UserPatch, upload: ImageUpload, hash: string -> string): (n: User)
    ensures n.id == u.id && n.resetCode == u.resetCode
    ensures NonEmpty(p.password) ==> n.password == hash(p.password.value)
    ensures !NonEmpty(p.password) ==> n.password == p.password.GetOr(u.password)
    ensures n.image == if upload.ImageUploaded? then upload.url else u.image
  {
    User(u.id,
         p.name.GetOr(u.name),
         p.user.GetOr(u.user),
         p.email.GetOr(u.email),
         if NonEmpty(p.password) then hash(p.password.value) else p.password.GetOr(u.password),
         p.roles.GetOr(u.roles),
         if upload.ImageUploaded? then upload.url else u.image,
         u.resetCode)
  }

  class UsersService {
    const prisma: Database
    /** The password hash (bcrypt with cost 10). */
    const hash: string -> string

    constructor (prisma: Database, hash: string -> string)
      ensures this.prisma == prisma && this.hash == hash
    {
      this.prisma := prisma;
      this.hash := hash;
    }

    /** Sign up.  A used e-mail, then a used handle, is a BadRequest; a
        failed image upload, or a hash equal to the plain password, is an
        InternalServerError.  The stored password is never the one sent. */
    method Create(data: UserInput, upload: ImageUpload) returns (r: Result<User>)
      requires prisma.Valid()
      modifies prisma`users
      ensures prisma.Valid()
      ensures EmailTaken(old(prisma.users.rows), data.email, None) || HandleTaken(old(prisma.users.rows), data.user, None) ==>
                r == Err(BadRequest) && prisma.users == old(prisma.users)
      ensures !EmailTaken(old(prisma.users.rows), data.email, None) && !HandleTaken(old(prisma.users.rows), data.user, None)
              && (upload.ImageUploadFailed? || hash(data.password) == data.password) ==>
                r == Err(InternalServerError) && prisma.users == old(prisma.users)
      ensures !EmailTaken(old(prisma.users.rows), data.email, None) && !HandleTaken(old(prisma.users.rows), data.user, None)
              && !upload.ImageUploadFailed? && hash(data.password) != data.password ==>
                && r == Ok(User(old(prisma.users.nextId), data.name, data.user, data.email, hash(data.password),
                                data.roles, if upload.ImageUploaded? then upload.url else DEFAULT_IMAGE, None))
                && prisma.users == old(prisma.users).Insert(r.value)
      ensures r.Ok? ==> r.value.password != data.password
    {
      var emailTaken := exists k :: k in prisma.users.rows && prisma.users.rows[k].email == data.email;
      var handleTaken := exists k :: k in prisma.users.rows && prisma.users.rows[k].user == data.user;
      if emailTaken || handleTaken {
        return Err(BadRequest);
      }
      var image: string;
      match upload {
        case ImageUploadFailed => return Err(InternalServerError);
        case ImageUploaded(url) => image := url;
        case NoImage => image := DEFAULT_IMAGE;
      }
      var hashed := hash(data.password);
      if hashed == data.password {
        return Err(InternalServerError);
      }
      var created := User(prisma.users.nextId, data.name, data.user, data.email, hashed, data.roles, image, None);
      prisma.users := prisma.users.Insert(created);
      r := Ok(created);
    }

    /** The user with `id`; NotFound otherwise. */
    method FindOne(id: Id) returns (r: Result<User>)
      requires prisma.Valid()
      ensures r.Ok? <==> id in prisma.users.rows
      ensures r.Ok? ==> r.value == prisma.users.rows[id] && r.value.id == id
      ensures r.Err? ==> r.error == NotFound
    {
      if id in prisma.users.rows {
        r := Ok(prisma.users.rows[id]);
      } else {
        r := Err(NotFound);
      }
    }

    /** The user with login handle `handle`; NotFound otherwise.  Handles are
        unique, so the answer is the one such user. */
    method FindByUser(handle: string) returns (r: Result<User>)
      requires prisma.Valid()
      ensures r.Ok? <==> HandleTaken(prisma.users.rows, handle, None)
      ensures r.Ok? ==> r.value.id in prisma.users.rows && prisma.users.rows[r.value.id] == r.value && r.value.user == handle
      ensures r.Err? ==> r.error == NotFound
      ensures forall k :: k in prisma.users.rows && prisma.users.rows[k].user == handle ==> r == Ok(prisma.users.rows[k])
    {
      if k :| k in prisma.users.rows && prisma.users.rows[k].user == handle {
        r := Ok(prisma.users.rows[k]);
      } else {
        r := Err(NotFound);
      }
    }

    /** Update a user.  A failed image upload, an unknown id, or an e-mail or
        handle another user has, is an InternalServerError with no write. */
    method Update(id: Id, data: UserPatch, upload: ImageUpload) returns (r: Result<User>)
      requires prisma.Valid()
      modifies prisma`users
      ensures prisma.Valid()
      ensures upload.ImageUploadFailed? || id !in old(prisma.users.rows) ==>
                r == Err(InternalServerError) && prisma.users == old(prisma.users)
      ensures !upload.ImageUploadFailed? && id in old(prisma.users.rows) ==>
                var n := Patched(old(prisma.users.rows)[id], data, upload, hash);
                if EmailTaken(old(prisma.users.rows), n.email, Some(id)) || HandleTaken(old(prisma.users.rows), n.user, Some(id))
                then r == Err(InternalServerError) && prisma.users == old(prisma.users)
                else r == Ok(n) && prisma.users == old(prisma.users).(rows := old(prisma.users.rows)[id := n])
    {
      if upload.ImageUploadFailed? || id !in prisma.users.rows {
        return Err(InternalServerError);
      }
      var updated := Patched(prisma.users.rows[id], data, upload, hash);
      var clash := exists k :: k in prisma.users.rows && k != id
                     && (prisma.users.rows[k].email == updated.email || prisma.users.rows[k].user == updated.user);
      if clash {
        return Err(InternalServerError);
      }
      prisma.users := prisma.users.(rows := prisma.users.rows[id := updated]);
      r := Ok(updated);
    }

    /** Delete a user; an unknown id is an InternalServerError. */
    method Remove(id: Id) returns (r: Result<User>)
      requires prisma.Valid()
      modifies prisma`users
      ensures prisma.Valid()
      ensures id !in old(prisma.users.rows) ==>
                r == Err(InternalServerError) && prisma.users == old(prisma.users)
      ensures id in old(prisma.users.rows) ==>
                r == Ok(old(prisma.users.rows)[id]) && prisma.users == old(prisma.users).Delete({id})
    {
      if id !in prisma.users.rows {
        return Err(InternalServerError);
      }
      r := Ok(prisma.users.rows[id]);
      prisma.users := prisma.users.Delete({id});
    }
  }
}
