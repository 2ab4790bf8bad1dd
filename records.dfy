/**
 * The documents the handlers keep in the store's collections, the request
 * body they read, the responses they return, and the store's find-one and
 * delete-one primitives over a collection in its natural order.
 */
module Records {
  import opened Wrappers
  import opened Documents

  /** The bytes `bcrypt.hashpw` returns. */
  type Hash = seq<bv8>

  /** A document of `users`. Every field but `userId` and the password hash
      is stored exactly as the request supplied it, so each is a `Doc`. */
  datatype User = User(userId: int, username: Doc, email: Doc, password: Hash, phone: Doc, role: Doc)

  /** A document of `courses`. */
  datatype Course = Course(
    courseId: int, title: Doc, description: Doc, category: Doc, price: Doc, duration: Doc,
    instructorId: int)

  /** A document of `enrollments`. */
  datatype Enrollment = Enrollment(enrollmentId: int, userId: int, courseId: int, enrollmentDate: Doc)

  /** A document of `assessments`. */
  datatype Assessment = Assessment(assessmentId: int, courseId: int, title: Doc, kind: Doc, questions: Doc)

  /** A document of `payments`. */
  datatype Payment = Payment(paymentId: int, userId: int, courseId: int, amount: Doc, paymentDate: Doc, status: Doc)

  /** A JSON request body: an object from field names to values. */
  type Body = map<string, Doc>

  /** `data.get(key)`: an absent key reads as None. */
  function Get(body: Body, key: string): Doc
  {
    if key in body then body[key] else Nil
  }

  /** `data.get(key, default)`: the default only when the key is absent. */
  function GetOr(body: Body, key: string, default: Doc): Doc
  {
    if key in body then body[key] else default
  }

  /** The exceptions that escape a handler; Flask turns each into a 500. */
  datatype Fault = IndexError | KeyError | ValueError | TypeError | AttributeError

  /** What a request gets back. */
  datatype Response =
    | Reply(status: int, message: string)   // `jsonify({'message': ...}), status`
    | Created(id: int, message: string)     // 201 with the new document's id
    | Token(userIdClaim: string)            // login's 200: the claim the signed token carries
    | Unhandled(fault: Fault)               // an uncaught exception

  function Status(r: Response): int
  {
    match r
    case Reply(s, _) => s
    case Created(_, _) => 201
    case Token(_) => 200
    case Unhandled(_) => 500
  }

  // ---------------------------------------------------------------------
  // The filters the handlers pass to the store
  // ---------------------------------------------------------------------

  /** `{'userId': n}` on users. */
  function IdIs(n: int): User -> bool
  {
    (u: User) => u.userId == n
  }

  /** `{'email': email}` on users. */
  function EmailIs(email: Doc): User -> bool
  {
    (u: User) => u.email == email
  }

  /** `{'courseId': courseId}` on courses. */
  function CourseIdIs(courseId: int): Course -> bool
  {
    (c: Course) => c.courseId == courseId
  }

  /** `{'courseId': courseId, 'instructorId': instructorId}` on courses. */
  function CourseOwnedBy(courseId: int, instructorId: int): Course -> bool
  {
    (c: Course) => c.courseId == courseId && c.instructorId == instructorId
  }

  /** `{'enrollmentId': enrollmentId}` on enrollments. */
  function EnrollmentIdIs(enrollmentId: int): Enrollment -> bool
  {
    (e: Enrollment) => e.enrollmentId == enrollmentId
  }

  /** `{'userId': userId, 'courseId': courseId}` on enrollments. */
  function EnrollmentOf(userId: int, courseId: int): Enrollment -> bool
  {
    (e: Enrollment) => e.userId == userId && e.courseId == courseId
  }

  /** `{'assessmentId': assessmentId}` on assessments. */
  function AssessmentIdIs(assessmentId: int): Assessment -> bool
  {
    (a: Assessment) => a.assessmentId == assessmentId
  }

  /** `{'paymentId': paymentId, 'userId': userId}` on payments. */
  function PaymentOwnedBy(paymentId: int, userId: int): Payment -> bool
  {
    (p: Payment) => p.paymentId == paymentId && p.userId == userId
  }

  /** `find_one(filter)`: the position of the first document, in the
      collection's order, that the filter matches. */
  function FindFirst<T>(s: seq<T>, matches: T -> bool): (r: Option<nat>)
    ensures r.Some? ==> r.value < |s| && matches(s[r.value])
    ensures r.Some? ==> forall j :: 0 <= j < r.value ==> !matches(s[j])
    ensures r.None? <==> forall j :: 0 <= j < |s| ==> !matches(s[j])
  {
    if s == [] then None
    else if matches(s[0]) then Some(0)
    else
      match FindFirst(s[1..], matches)
      case None => None
      case Some(k) => Some(k + 1)
  }

  /** The collection with its i-th document deleted. */
  function RemoveAt<T>(s: seq<T>, i: nat): (r: seq<T>)
    requires i < |s|
    ensures |r| == |s| - 1
    ensures forall j :: 0 <= j < i ==> r[j] == s[j]
    ensures forall j :: i <= j < |r| ==> r[j] == s[j + 1]
  {
    s[..i] + s[i + 1..]
  }
}
