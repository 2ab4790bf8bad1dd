/**
 * The authentication gate (`token_required`), the two role gates stacked
 * on it (`instructor_required`, `student_required`), and the decision part
 * of login, which issues the claim that the gate later reads back.
 *
 * Signature checking and expiry are the token library's business: its
 * verdict on a token is an input, `decode`, returning a `Decoded`.
 */
module Auth {
  import opened Wrappers
  import opened Text
  import opened Documents
  import opened Records

  /** What `jwt.decode` does with a token: raise ExpiredSignatureError,
      raise another InvalidTokenError (bad signature, malformed token), or
      return the claims, of which only `userId` is read (absent: `None`). */
  datatype Decoded = Expired | Invalid | Claims(userId: Option<Doc>)

  /** A gate either lets the request through to the handler, with the
      resolved user as its first argument, or answers it itself. */
  datatype GateResult = Proceed(user: User) | Reject(response: Response)

  const MissingToken: Response := Reply(403, "Token is missing!")
  const ExpiredToken: Response := Reply(401, "Token has expired!")
  const InvalidToken: Response := Reply(401, "Invalid token!")
  const InstructorsOnly: Response := Reply(403, "Access forbidden: Instructors only!")
  const StudentsOnly: Response := Reply(403, "Access forbidden: Students only!")

  /** A header counts as present when it is there and not empty. */
  predicate Presented(header: Option<string>)
  {
    header.Some? && header.value != ""
  }

  /** The token the gate hands to the decoder: the second space-separated
      piece of the header, whatever the first piece says. */
  function Credential(header: string): string
    requires ' ' in header
  {
    SecondPieceIffSeparator(header, ' ');
    Split(header, ' ')[1]
  }

  /** `token_required`: read the Authorization header, cut out the token,
      decode it, and resolve its `userId` claim to a user. */
  function TokenRequired(header: Option<string>, decode: string -> Decoded, users: seq<User>): (g: GateResult)
    ensures !Presented(header) <==> g == Reject(MissingToken)
    ensures Presented(header) && ' ' !in header.value ==> g == Reject(Unhandled(IndexError))
    ensures Presented(header) && ' ' in header.value ==>
      match decode(Credential(header.value))
      case Expired => g == Reject(ExpiredToken)
      case Invalid => g == Reject(InvalidToken)
      case Claims(None) => g == Reject(Unhandled(KeyError))
      case Claims(Some(claim)) =>
        match ToInt(claim)
        case ValueErr => g == Reject(Unhandled(ValueError))
        case TypeErr => g == Reject(Unhandled(TypeError))
        case Converted(n) =>
          && ((forall i :: 0 <= i < |users| ==> users[i].userId != n) ==> g == Reject(InvalidToken))
          && ((exists i :: 0 <= i < |users| && users[i].userId == n) ==>
                exists i :: 0 <= i < |users| && g == Proceed(users[i]) && users[i].userId == n &&
                  forall j :: 0 <= j < i ==> users[j].userId != n)
    ensures g.Proceed? ==> g.user in users
  {
    if !Presented(header) then Reject(MissingToken)
    else
      var pieces := Split(header.value, ' ');
      SecondPieceIffSeparator(header.value, ' ');
      if |pieces| < 2 then Reject(Unhandled(IndexError))
      else
        match decode(pieces[1])
        case Expired => Reject(ExpiredToken)
        case Invalid => Reject(InvalidToken)
        case Claims(None) => Reject(Unhandled(KeyError))
        case Claims(Some(claim)) =>
          match ToInt(claim)
          case ValueErr => Reject(Unhandled(ValueError))
          case TypeErr => Reject(Unhandled(TypeError))
          case Converted(n) =>
            match FindFirst(users, IdIs(n))
            case None => Reject(InvalidToken)
            case Some(i) => Proceed(users[i])
  }

  /** `instructor_required`: `None` lets the request through. */
  function InstructorRequired(user: User): (r: Option<Response>)
    ensures r.None? <==> user.role == StrDoc("instructor")
    ensures r.Some? ==> r.value == InstructorsOnly
  {
    if user.role != StrDoc("instructor") then Some(InstructorsOnly) else None
  }

  /** `student_required`: `None` lets the request through. */
  function StudentRequired(user: User): (r: Option<Response>)
    ensures r.None? <==> user.role == StrDoc("student")
    ensures r.Some? ==> r.value == StudentsOnly
  {
    if user.role != StrDoc("student") then Some(StudentsOnly) else None
  }

  /** The decorators a protected route carries under `token_required`. */
  datatype Guard = TokenOnly | InstructorOnly | StudentOnly

  /** The roles a guard admits; a user without a role, or with any value
      other than the exact string, is admitted by `TokenOnly` alone. */
  predicate Admits(guard: Guard, role: Doc)
  {
    match guard
    case TokenOnly => true
    case InstructorOnly => role == StrDoc("instructor")
    case StudentOnly => role == StrDoc("student")
  }

  /** `token_required` wrapped around a role gate: the token is checked
      first, the role only for a resolved user. */
  function Gate(guard: Guard, header: Option<string>, decode: string -> Decoded, users: seq<User>): (g: GateResult)
    ensures TokenRequired(header, decode, users).Reject? ==> g == TokenRequired(header, decode, users)
    ensures g.Proceed? <==>
      TokenRequired(header, decode, users).Proceed? && Admits(guard, TokenRequired(header, decode, users).user.role)
    ensures g.Proceed? ==> g == TokenRequired(header, decode, users)
    ensures TokenRequired(header, decode, users).Proceed? && !Admits(guard, TokenRequired(header, decode, users).user.role) ==>
      g == Reject(if guard == InstructorOnly then InstructorsOnly else StudentsOnly)
  {
    match TokenRequired(header, decode, users)
    case Reject(r) => Reject(r)
    case Proceed(u) =>
      var verdict :=
        match guard
        case TokenOnly => None
        case InstructorOnly => InstructorRequired(u)
        case StudentOnly => StudentRequired(u);
      match verdict
      case None => Proceed(u)
      case Some(r) => Reject(r)
  }

  /** The decision part of `login`. `checkpw` is bcrypt's verdict on a
      plaintext against a stored hash. A success carries the claim the
      signed token encodes: the user id written with `str`. */
  function Login(body: Body, users: seq<User>, checkpw: (string, Hash) -> bool): (r: Response)
    ensures !Truthy(Get(body, "email")) || !Truthy(Get(body, "password")) ==>
      r == Reply(400, "Email and password are required")
    ensures
      && Truthy(Get(body, "email")) && Truthy(Get(body, "password"))
      && (forall i :: 0 <= i < |users| ==> users[i].email != Get(body, "email"))
      ==> r == Reply(401, "Invalid credentials")
    ensures
      && Truthy(Get(body, "email")) && Truthy(Get(body, "password"))
      && FindFirst(users, EmailIs(Get(body, "email"))).Some?
      ==>
      var u, password := users[FindFirst(users, EmailIs(Get(body, "email"))).value], Get(body, "password");
      && (!IsText(password) ==> r == Unhandled(AttributeError))
      && (IsText(password) && checkpw(password.scalar.s, u.password) ==> r == Token(Show(u.userId)))
      && (IsText(password) && !checkpw(password.scalar.s, u.password) ==> r == Reply(401, "Invalid credentials"))
    ensures r.Token? ==>
      && IsText(Get(body, "password"))
      && FindFirst(users, EmailIs(Get(body, "email"))).Some?
      && var u := users[FindFirst(users, EmailIs(Get(body, "email"))).value];
         checkpw(Get(body, "password").scalar.s, u.password) && r.userIdClaim == Show(u.userId)
    ensures r.Unhandled? ==> r.fault == AttributeError && !IsText(Get(body, "password"))
  {
    var email := Get(body, "email");
    var password := Get(body, "password");
    if !Truthy(email) || !Truthy(password) then Reply(400, "Email and password are required")
    else
      match FindFirst(users, EmailIs(email))
      case None => Reply(401, "Invalid credentials")
      case Some(i) =>
        if !IsText(password) then Unhandled(AttributeError)
        else if !checkpw(password.scalar.s, users[i].password) then Reply(401, "Invalid credentials")
        else Token(Show(users[i].userId))
  }

  /** A header made of any scheme word, a space and a token without spaces
      presents that token: the scheme word is never looked at. */
  lemma CredentialOfSchemeAndToken(scheme: string, token: string)
    requires ' ' !in scheme && ' ' !in token
    ensures ' ' in scheme + " " + token
    ensures Credential(scheme + " " + token) == token
  {
    var h := scheme + " " + token;
    assert h[|scheme|] == ' ';
    assert Join([scheme, token], ' ') == h by {
      assert [scheme, token][1..] == [token];
    }
    SplitJoin([scheme, token], ' ');
  }

  /** A presented credential whose claim names the user at position k,
      the first with that id, lets that user through. */
  lemma ResolvesTo(header: string, decode: string -> Decoded, users: seq<User>, claim: Doc, k: nat)
    requires ' ' in header
    requires decode(Credential(header)) == Claims(Some(claim))
    requires k < |users| && ToInt(claim) == Converted(users[k].userId)
    requires FindFirst(users, IdIs(users[k].userId)) == Some(k)
    ensures TokenRequired(Some(header), decode, users) == Proceed(users[k])
  {
    SecondPieceIffSeparator(header, ' ');
  }

  /** With distinct ids, the first user with a user's id is that user. */
  lemma FirstWithOwnId(users: seq<User>, k: nat)
    requires k < |users|
    requires forall i, j :: 0 <= i < j < |users| ==> users[i].userId != users[j].userId
    ensures FindFirst(users, IdIs(users[k].userId)) == Some(k)
  {
    var found := FindFirst(users, IdIs(users[k].userId));
    assert IdIs(users[k].userId)(users[k]);
    var i := found.value;
    assert users[i].userId == users[k].userId;
  }

  /** Login and the gate agree: a token whose claims are those login
      issued (while it has not expired) resolves, through a header with any
      scheme word, to the very user who logged in, provided user ids are
      distinct. */
  lemma IssuedTokenAuthenticates(
    body: Body, users: seq<User>, checkpw: (string, Hash) -> bool,
    scheme: string, token: string, decode: string -> Decoded)
    requires Login(body, users, checkpw).Token?
    requires ' ' !in scheme && ' ' !in token
    requires decode(token) == Claims(Some(StrDoc(Login(body, users, checkpw).userIdClaim)))
    requires forall i, j :: 0 <= i < j < |users| ==> users[i].userId != users[j].userId
    ensures FindFirst(users, EmailIs(Get(body, "email"))).Some?
    ensures TokenRequired(Some(scheme + " " + token), decode, users)
         == Proceed(users[FindFirst(users, EmailIs(Get(body, "email"))).value])
  {
    var k := FindFirst(users, EmailIs(Get(body, "email"))).value;
    var id := users[k].userId;
    assert Login(body, users, checkpw).userIdClaim == Show(id);
    CredentialOfSchemeAndToken(scheme, token);
    ToIntShow(id);
    FirstWithOwnId(users, k);
    ResolvesTo(scheme + " " + token, decode, users, StrDoc(Show(id)), k);
  }
}
