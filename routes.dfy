/**
 * The routes the handlers are mounted on, with the decorators each one
 * carries, and the dispatch of a request through its gates to its handler.
 * Also the round trip signup → login → gate: the account a signup creates
 * can log in, and the token login issues for it lets that user through.
 */
module Routes {
  import opened Wrappers
  import opened Text
  import opened Documents
  import opened Records
  import opened Auth
  import opened Store
  import opened Sequence

  /** A request to one of the modelled routes, with its path parameters
      and its JSON body. A `<x>` parameter is the raw string; an `<int:x>`
      one is a natural number, since the `int` converter matches only
      unsigned decimal digits. */
  datatype Request =
    | SignupReq(body: Body)                                    // POST /api/signup
    | LoginReq(body: Body)                                     // POST /api/login
    | CreateCourseReq(body: Body)                              // POST /api/courses
    | UpdateCourseReq(courseId: string, body: Body)            // PUT /api/courses/<course_id>
    | DeleteCourseReq(courseId: string)                        // DELETE /api/courses/<course_id>
    | EnrollReq(body: Body)                                    // POST /api/enrollments
    | DeleteEnrollmentReq(enrollmentId: nat)                   // DELETE /api/enrollments/<int:enrollment_id>
    | UpdateEnrollmentReq(rawEnrollmentId: string, body: Body)   // PUT /api/enrollments/<enrollment_id>
    | CreateAssessmentReq(body: Body)                          // POST /api/assessments
    | UpdateAssessmentReq(assessmentId: nat, body: Body)       // PUT /api/assessments/<int:assessment_id>
    | DeleteAssessmentReq(assessmentId: nat)                   // DELETE /api/assessments/<int:assessment_id>
    | CreatePaymentReq(body: Body)                             // POST /api/payments
    | UpdatePaymentReq(paymentId: nat, body: Body)             // PUT /api/payments/<int:payment_id>
    | DeletePaymentReq(paymentId: nat)                         // DELETE /api/payments/<int:payment_id>

  /** The decorators under `token_required` each route carries; `None` for
      the two public routes. */
  function GuardFor(req: Request): (g: Option<Guard>)
    ensures g.None? <==> req.SignupReq? || req.LoginReq?
    ensures g == Some(TokenOnly) <==> req.DeleteEnrollmentReq? || req.UpdateEnrollmentReq?
  {
    match req
    case SignupReq(_) => None
    case LoginReq(_) => None
    case CreateCourseReq(_) => Some(InstructorOnly)
    case UpdateCourseReq(_, _) => Some(InstructorOnly)
    case DeleteCourseReq(_) => Some(InstructorOnly)
    case EnrollReq(_) => Some(StudentOnly)
    case DeleteEnrollmentReq(_) => Some(TokenOnly)
    case UpdateEnrollmentReq(_, _) => Some(TokenOnly)
    case CreateAssessmentReq(_) => Some(InstructorOnly)
    case UpdateAssessmentReq(_, _) => Some(InstructorOnly)
    case DeleteAssessmentReq(_) => Some(InstructorOnly)
    case CreatePaymentReq(_) => Some(StudentOnly)
    case UpdatePaymentReq(_, _) => Some(StudentOnly)
    case DeletePaymentReq(_) => Some(StudentOnly)
  }

  /** What the handler of a protected route does when its gates let
      `user` through: the response and the store after it, given the
      collections `t` and counters `c` before it. */
  ghost predicate Handled(
    req: Request, user: User, toFloat: Doc -> FloatConv, now: int,
    t: Tables, c: map<string, int>, r: Response, t': Tables, c': map<string, int>)
    requires GuardFor(req).Some?
  {
    match req
    case CreateCourseReq(body) => CreateCourseDoes(user, body, t, c, r, t', c')
    case UpdateCourseReq(courseId, body) => UpdateCourseDoes(user, courseId, body, t, c, r, t', c')
    case DeleteCourseReq(courseId) => DeleteCourseDoes(user, courseId, t, c, r, t', c')
    case EnrollReq(body) => EnrollCourseDoes(user, body, now, t, c, r, t', c')
    case DeleteEnrollmentReq(enrollmentId) => DeleteEnrollmentDoes(user, enrollmentId, t, c, r, t', c')
    case UpdateEnrollmentReq(rawEnrollmentId, body) => UpdateEnrollmentDoes(user, rawEnrollmentId, body, t, c, r, t', c')
    case CreateAssessmentReq(body) => CreateAssessmentDoes(body, t, c, r, t', c')
    case UpdateAssessmentReq(assessmentId, body) => UpdateAssessmentDoes(assessmentId, body, t, c, r, t', c')
    case DeleteAssessmentReq(assessmentId) => DeleteAssessmentDoes(assessmentId, t, c, r, t', c')
    case CreatePaymentReq(body) => CreatePaymentDoes(user, body, toFloat, now, t, c, r, t', c')
    case UpdatePaymentReq(paymentId, body) => UpdatePaymentDoes(user, paymentId, body, toFloat, t, c, r, t', c')
    case DeletePaymentReq(paymentId) => DeletePaymentDoes(user, paymentId, t, c, r, t', c')
  }

  /** What serving a request does. The two public routes go straight to
      their handlers; a protected one goes through its gates, and either
      gets the gate's answer with nothing changed or reaches its handler
      with the user the gates resolved. */
  ghost predicate Served(
    header: Option<string>, req: Request,
    decode: string -> Decoded, hashed: Hash, checkpw: (string, Hash) -> bool,
    toFloat: Doc -> FloatConv, now: int,
    t: Tables, c: map<string, int>, r: Response, t': Tables, c': map<string, int>)
  {
    match req
    case SignupReq(body) => SignupDoes(body, hashed, t, c, r, t', c')
    case LoginReq(body) => r == Login(body, t.users, checkpw) && t' == t && c' == c
    case _ =>
      match Gate(GuardFor(req).value, header, decode, t.users)
      case Reject(response) => r == response && t' == t && c' == c
      case Proceed(user) => Handled(req, user, toFloat, now, t, c, r, t', c')
  }

  // ---------------------------------------------------------------------
  // Each protected route is handled by its own handler. One lemma per
  // route, so that a proof that knows the route needs no other route's
  // handler.
  // ---------------------------------------------------------------------

  lemma HandlesCreateCourse(user: User, body: Body, toFloat: Doc -> FloatConv, now: int,
    t: Tables, c: map<string, int>, r: Response, t': Tables, c': map<string, int>)
    requires CreateCourseDoes(user, body, t, c, r, t', c')
    ensures Handled(CreateCourseReq(body), user, toFloat, now, t, c, r, t', c')
  {
  }

  lemma HandlesUpdateCourse(user: User, courseId: string, body: Body, toFloat: Doc -> FloatConv, now: int,
    t: Tables, c: map<string, int>, r: Response, t': Tables, c': map<string, int>)
    requires UpdateCourseDoes(user, courseId, body, t, c, r, t', c')
    ensures Handled(UpdateCourseReq(courseId, body), user, toFloat, now, t, c, r, t', c')
  {
  }

  lemma HandlesDeleteCourse(user: User, courseId: string, toFloat: Doc -> FloatConv, now: int,
    t: Tables, c: map<string, int>, r: Response, t': Tables, c': map<string, int>)
    requires DeleteCourseDoes(user, courseId, t, c, r, t', c')
    ensures Handled(DeleteCourseReq(courseId), user, toFloat, now, t, c, r, t', c')
  {
  }

  lemma HandlesEnroll(user: User, body: Body, toFloat: Doc -> FloatConv, now: int,
    t: Tables, c: map<string, int>, r: Response, t': Tables, c': map<string, int>)
    requires EnrollCourseDoes(user, body, now, t, c, r, t', c')
    ensures Handled(EnrollReq(body), user, toFloat, now, t, c, r, t', c')
  {
  }

  lemma HandlesDeleteEnrollment(user: User, enrollmentId: nat, toFloat: Doc -> FloatConv, now: int,
    t: Tables, c: map<string, int>, r: Response, t': Tables, c': map<string, int>)
    requires DeleteEnrollmentDoes(user, enrollmentId, t, c, r, t', c')
    ensures Handled(DeleteEnrollmentReq(enrollmentId), user, toFloat, now, t, c, r, t', c')
  {
  }

  lemma HandlesUpdateEnrollment(user: User, rawEnrollmentId: string, body: Body, toFloat: Doc -> FloatConv, now: int,
    t: Tables, c: map<string, int>, r: Response, t': Tables, c': map<string, int>)
    requires UpdateEnrollmentDoes(user, rawEnrollmentId, body, t, c, r, t', c')
    ensures Handled(UpdateEnrollmentReq(rawEnrollmentId, body), user, toFloat, now, t, c, r, t', c')
  {
  }

  lemma HandlesCreateAssessment(user: User, body: Body, toFloat: Doc -> FloatConv, now: int,
    t: Tables, c: map<string, int>, r: Response, t': Tables, c': map<string, int>)
    requires CreateAssessmentDoes(body, t, c, r, t', c')
    ensures Handled(CreateAssessmentReq(body), user, toFloat, now, t, c, r, t', c')
  {
  }

  lemma HandlesUpdateAssessment(user: User, assessmentId: nat, body: Body, toFloat: Doc -> FloatConv, now: int,
    t: Tables, c: map<string, int>, r: Response, t': Tables, c': map<string, int>)
    requires UpdateAssessmentDoes(assessmentId, body, t, c, r, t', c')
    ensures Handled(UpdateAssessmentReq(assessmentId, body), user, toFloat, now, t, c, r, t', c')
  {
  }

  lemma HandlesDeleteAssessment(user: User, assessmentId: nat, toFloat: Doc -> FloatConv, now: int,
    t: Tables, c: map<string, int>, r: Response, t': Tables, c': map<string, int>)
    requires DeleteAssessmentDoes(assessmentId, t, c, r, t', c')
    ensures Handled(DeleteAssessmentReq(assessmentId), user, toFloat, now, t, c, r, t', c')
  {
  }

  lemma HandlesCreatePayment(user: User, body: Body, toFloat: Doc -> FloatConv, now: int,
    t: Tables, c: map<string, int>, r: Response, t': Tables, c': map<string, int>)
    requires CreatePaymentDoes(user, body, toFloat, now, t, c, r, t', c')
    ensures Handled(CreatePaymentReq(body), user, toFloat, now, t, c, r, t', c')
  {
  }

  lemma HandlesUpdatePayment(user: User, paymentId: nat, body: Body, toFloat: Doc -> FloatConv, now: int,
    t: Tables, c: map<string, int>, r: Response, t': Tables, c': map<string, int>)
    requires UpdatePaymentDoes(user, paymentId, body, toFloat, t, c, r, t', c')
    ensures Handled(UpdatePaymentReq(paymentId, body), user, toFloat, now, t, c, r, t', c')
  {
  }

  lemma HandlesDeletePayment(user: User, paymentId: nat, toFloat: Doc -> FloatConv, now: int,
    t: Tables, c: map<string, int>, r: Response, t': Tables, c': map<string, int>)
    requires DeletePaymentDoes(user, paymentId, t, c, r, t', c')
    ensures Handled(DeletePaymentReq(paymentId), user, toFloat, now, t, c, r, t', c')
  {
  }

  /** Handle one request. The environment supplies what the model does not
      compute: the token library's verdict (`decode`), bcrypt (`hashed`, the
      hash signup would store, and `checkpw`), `float` (`toFloat`) and the
      clock (`now`). */
  method Serve(
    db: Db, header: Option<string>, req: Request,
    decode: string -> Decoded, hashed: Hash, checkpw: (string, Hash) -> bool,
    toFloat: Doc -> FloatConv, now: int)
    returns (r: Response)
    requires db.Valid()
    modifies db, db.counters
    ensures db.Valid()
    ensures Served(header, req, decode, hashed, checkpw, toFloat, now,
                   old(db.View()), old(db.counters.values), r, db.View(), db.counters.values)
  {
    if req.SignupReq? {
      r := db.Signup(req.body, hashed);
      return;
    }
    if req.LoginReq? {
      return Login(req.body, db.users, checkpw);
    }
    match Gate(GuardFor(req).value, header, decode, db.users)
    case Reject(response) =>
      return response;
    case Proceed(user) =>
      r := Dispatch(db, user, req, toFloat, now);
  }

  /** Hand a protected request, once its gates let `user` through, to its
      route's handler, which runs with that user. */
  method Dispatch(db: Db, user: User, req: Request, toFloat: Doc -> FloatConv, now: int) returns (r: Response)
    requires db.Valid()
    requires GuardFor(req).Some?
    modifies db, db.counters
    ensures db.Valid()
    ensures Handled(req, user, toFloat, now, old(db.View()), old(db.counters.values), r, db.View(), db.counters.values)
  {
    match req
    case CreateCourseReq(body) =>
      r := db.CreateCourse(user, body);
      HandlesCreateCourse(user, body, toFloat, now, old(db.View()), old(db.counters.values), r, db.View(), db.counters.values);
    case UpdateCourseReq(courseId, body) =>
      r := db.UpdateCourse(user, courseId, body);
      HandlesUpdateCourse(user, courseId, body, toFloat, now, old(db.View()), old(db.counters.values), r, db.View(), db.counters.values);
    case DeleteCourseReq(courseId) =>
      r := db.DeleteCourse(user, courseId);
      HandlesDeleteCourse(user, courseId, toFloat, now, old(db.View()), old(db.counters.values), r, db.View(), db.counters.values);
    case EnrollReq(body) =>
      r := db.EnrollCourse(user, body, now);
      HandlesEnroll(user, body, toFloat, now, old(db.View()), old(db.counters.values), r, db.View(), db.counters.values);
    case DeleteEnrollmentReq(enrollmentId) =>
      r := db.DeleteEnrollment(user, enrollmentId);
      HandlesDeleteEnrollment(user, enrollmentId, toFloat, now, old(db.View()), old(db.counters.values), r, db.View(), db.counters.values);
    case UpdateEnrollmentReq(rawEnrollmentId, body) =>
      r := db.UpdateEnrollment(user, rawEnrollmentId, body);
      HandlesUpdateEnrollment(user, rawEnrollmentId, body, toFloat, now, old(db.View()), old(db.counters.values), r, db.View(), db.counters.values);
    case CreateAssessmentReq(body) =>
      r := db.CreateAssessment(user, body);
      HandlesCreateAssessment(user, body, toFloat, now, old(db.View()), old(db.counters.values), r, db.View(), db.counters.values);
    case UpdateAssessmentReq(assessmentId, body) =>
      r := db.UpdateAssessment(user, assessmentId, body);
      HandlesUpdateAssessment(user, assessmentId, body, toFloat, now, old(db.View()), old(db.counters.values), r, db.View(), db.counters.values);
    case DeleteAssessmentReq(assessmentId) =>
      r := db.DeleteAssessment(user, assessmentId);
      HandlesDeleteAssessment(user, assessmentId, toFloat, now, old(db.View()), old(db.counters.values), r, db.View(), db.counters.values);
    case CreatePaymentReq(body) =>
      r := db.CreatePayment(user, body, toFloat, now);
      HandlesCreatePayment(user, body, toFloat, now, old(db.View()), old(db.counters.values), r, db.View(), db.counters.values);
    case UpdatePaymentReq(paymentId, body) =>
      r := db.UpdatePayment(user, paymentId, body, toFloat);
      HandlesUpdatePayment(user, paymentId, body, toFloat, now, old(db.View()), old(db.counters.values), r, db.View(), db.counters.values);
    case DeletePaymentReq(paymentId) =>
      r := db.DeletePayment(user, paymentId);
      HandlesDeletePayment(user, paymentId, toFloat, now, old(db.View()), old(db.counters.values), r, db.View(), db.counters.values);
  }

  // ---------------------------------------------------------------------
  // What the handlers never do
  // ---------------------------------------------------------------------

  /** Deleting a position keeps every document that differs from the one
      there. */
  lemma RemoveKeeps<T>(s: seq<T>, i: nat, x: T)
    requires i < |s| && x in s && x != s[i]
    ensures x in RemoveAt(s, i)
  {
    var k :| 0 <= k < |s| && s[k] == x;
    if k < i {
      assert RemoveAt(s, i)[k] == x;
    } else {
      assert RemoveAt(s, i)[k - 1] == x;
    }
  }

  /** Replacing a position keeps every document that differs from the one
      there. */
  lemma ReplaceKeeps<T>(s: seq<T>, i: nat, y: T, x: T)
    requires i < |s| && x in s && x != s[i]
    ensures x in s[i := y]
  {
    var k :| 0 <= k < |s| && s[k] == x;
    assert s[i := y][k] == x;
  }

  /** No request a student makes removes or changes another user's
      enrolment: the two enrolment routes let a student touch only their
      own, and no other route touches enrolments but to add one. */
  lemma OthersEnrollmentsKept(
    req: Request, user: User, toFloat: Doc -> FloatConv, now: int,
    t: Tables, c: map<string, int>, r: Response, t': Tables, c': map<string, int>)
    requires GuardFor(req).Some?
    requires Handled(req, user, toFloat, now, t, c, r, t', c')
    requires user.role == StrDoc("student")
    ensures forall e :: e in t.enrollments && e.userId != user.userId ==> e in t'.enrollments
  {
    forall e | e in t.enrollments && e.userId != user.userId
      ensures e in t'.enrollments
    {
      match req
      case DeleteEnrollmentReq(enrollmentId) =>
        var found := FindFirst(t.enrollments, EnrollmentIdIs(enrollmentId));
        if found.Some? && MayTouch(user, t.enrollments[found.value]) {
          RemoveKeeps(t.enrollments, found.value, e);
        }
      case UpdateEnrollmentReq(rawEnrollmentId, body) =>
        if Get(body, "enrollmentDate") != Nil && ParseInt(rawEnrollmentId).Some? {
          var found := FindFirst(t.enrollments, EnrollmentIdIs(ParseInt(rawEnrollmentId).value));
          if found.Some? && MayTouch(user, t.enrollments[found.value]) {
            var e0 := t.enrollments[found.value];
            ReplaceKeeps(t.enrollments, found.value, e0.(enrollmentDate := Get(body, "enrollmentDate")), e);
          }
        }
      case _ =>
    }
  }

  /** No request removes or changes a course another instructor owns:
      updates and deletes match only the caller's own courses. */
  lemma OthersCoursesKept(
    req: Request, user: User, toFloat: Doc -> FloatConv, now: int,
    t: Tables, c: map<string, int>, r: Response, t': Tables, c': map<string, int>)
    requires GuardFor(req).Some?
    requires Handled(req, user, toFloat, now, t, c, r, t', c')
    ensures forall x :: x in t.courses && x.instructorId != user.userId ==> x in t'.courses
  {
    forall x | x in t.courses && x.instructorId != user.userId
      ensures x in t'.courses
    {
      match req
      case UpdateCourseReq(courseId, body) =>
        if Supplied(body, CourseFields) != map[] && ParseInt(courseId).Some? {
          var found := FindFirst(t.courses, CourseOwnedBy(ParseInt(courseId).value, user.userId));
          if found.Some? {
            ReplaceKeeps(t.courses, found.value, SetCourse(t.courses[found.value], Supplied(body, CourseFields)), x);
          }
        }
      case DeleteCourseReq(courseId) =>
        if ParseInt(courseId).Some? {
          var found := FindFirst(t.courses, CourseOwnedBy(ParseInt(courseId).value, user.userId));
          if found.Some? {
            RemoveKeeps(t.courses, found.value, x);
          }
        }
      case _ =>
    }
  }

  /** No request removes or changes another user's payment: updates and
      deletes match only the caller's own payments. */
  lemma OthersPaymentsKept(
    req: Request, user: User, toFloat: Doc -> FloatConv, now: int,
    t: Tables, c: map<string, int>, r: Response, t': Tables, c': map<string, int>)
    requires GuardFor(req).Some?
    requires Handled(req, user, toFloat, now, t, c, r, t', c')
    ensures forall x :: x in t.payments && x.userId != user.userId ==> x in t'.payments
  {
    forall x | x in t.payments && x.userId != user.userId
      ensures x in t'.payments
    {
      match req
      case UpdatePaymentReq(paymentId, body) =>
        if PaymentRevisable(body, toFloat) {
          var found := FindFirst(t.payments, PaymentOwnedBy(paymentId, user.userId));
          if found.Some? {
            var p := t.payments[found.value];
            var amount, status := Get(body, "amount"), Get(body, "status");
            ReplaceKeeps(t.payments, found.value, p.(
              amount := if amount != Nil then Atom(Float(toFloat(amount).r)) else p.amount,
              status := if status != Nil then status else p.status), x);
          }
        }
      case DeletePaymentReq(paymentId) =>
        var found := FindFirst(t.payments, PaymentOwnedBy(paymentId, user.userId));
        if found.Some? {
          RemoveKeeps(t.payments, found.value, x);
        }
      case _ =>
    }
  }

  /** A request answered with anything but success leaves every collection
      as it was; only a failed assessment insertion has used up an id. */
  lemma FailureChangesNothing(
    header: Option<string>, req: Request,
    decode: string -> Decoded, hashed: Hash, checkpw: (string, Hash) -> bool,
    toFloat: Doc -> FloatConv, now: int,
    t: Tables, c: map<string, int>, r: Response, t': Tables, c': map<string, int>)
    requires Served(header, req, decode, hashed, checkpw, toFloat, now, t, c, r, t', c')
    requires Status(r) != 200 && Status(r) != 201
    ensures t' == t
    ensures || c' == c
            || (&& req.CreateAssessmentReq?
                && r.Unhandled?
                && c' == c["assessment_id" := Current(c, "assessment_id") + 1])
  {
    if !req.SignupReq? && !req.LoginReq? {
      var g := Gate(GuardFor(req).value, header, decode, t.users);
      if g.Proceed? {
        HandlerFailureChangesNothing(req, g.user, toFloat, now, t, c, r, t', c');
      }
    }
  }

  /** The same, for the handlers behind the gates. */
  lemma HandlerFailureChangesNothing(
    req: Request, user: User, toFloat: Doc -> FloatConv, now: int,
    t: Tables, c: map<string, int>, r: Response, t': Tables, c': map<string, int>)
    requires GuardFor(req).Some?
    requires Handled(req, user, toFloat, now, t, c, r, t', c')
    requires Status(r) != 200 && Status(r) != 201
    ensures t' == t
    ensures || c' == c
            || (&& req.CreateAssessmentReq?
                && r.Unhandled?
                && c' == c["assessment_id" := Current(c, "assessment_id") + 1])
  {
  }

  /** Only an instructor reaches a course or assessment handler, only a
      student an enrolment-creation or payment handler. */
  lemma GuardedRoutesAdmitOnlyTheirRole(req: Request, header: Option<string>, decode: string -> Decoded, users: seq<User>)
    requires GuardFor(req).Some?
    requires Gate(GuardFor(req).value, header, decode, users).Proceed?
    ensures var role := Gate(GuardFor(req).value, header, decode, users).user.role;
      && (GuardFor(req) == Some(InstructorOnly) ==> role == StrDoc("instructor"))
      && (GuardFor(req) == Some(StudentOnly) ==> role == StrDoc("student"))
  {
  }

  // ---------------------------------------------------------------------
  // signup, then login, then the gate
  // ---------------------------------------------------------------------

  /** Appending a document that matches, to a collection where nothing
      does, makes it the one found. */
  lemma {:induction false} FindFirstAppended<T>(s: seq<T>, matches: T -> bool, x: T)
    requires forall i :: 0 <= i < |s| ==> !matches(s[i])
    requires matches(x)
    ensures FindFirst(s + [x], matches) == Some(|s|)
  {
    if s != [] {
      assert (s + [x])[1..] == s[1..] + [x];
      FindFirstAppended(s[1..], matches, x);
    }
  }

  /** The user signup inserts, with an email no one else had, can log in
      with the password it signed up with (bcrypt accepting that password
      against the hash stored), and is issued a claim naming its id. */
  lemma LoginAfterSignup(users: seq<User>, newcomer: User, body: Body, checkpw: (string, Hash) -> bool)
    requires forall i :: 0 <= i < |users| ==> users[i].email != newcomer.email
    requires Get(body, "email") == newcomer.email && Truthy(newcomer.email)
    requires IsText(Get(body, "password")) && Truthy(Get(body, "password"))
    requires checkpw(Get(body, "password").scalar.s, newcomer.password)
    ensures Login(body, users + [newcomer], checkpw) == Token(Show(newcomer.userId))
  {
    FindFirstAppended(users, EmailIs(newcomer.email), newcomer);
  }

  /** The whole round trip: a user that signup appended to a store whose
      ids were distinct, logging in, and presenting the token issued (as the
      token library decodes it before expiry) under any scheme word, is the
      user the gate resolves. */
  lemma SignupLoginAuthenticates(
    users: seq<User>, newcomer: User, body: Body, checkpw: (string, Hash) -> bool,
    scheme: string, token: string, decode: string -> Decoded)
    requires forall i :: 0 <= i < |users| ==> users[i].email != newcomer.email && users[i].userId != newcomer.userId
    requires forall i, j :: 0 <= i < j < |users| ==> users[i].userId != users[j].userId
    requires Get(body, "email") == newcomer.email && Truthy(newcomer.email)
    requires IsText(Get(body, "password")) && Truthy(Get(body, "password"))
    requires checkpw(Get(body, "password").scalar.s, newcomer.password)
    requires ' ' !in scheme && ' ' !in token
    requires decode(token) == Claims(Some(StrDoc(Show(newcomer.userId))))
    ensures TokenRequired(Some(scheme + " " + token), decode, users + [newcomer]) == Proceed(newcomer)
  {
    var all := users + [newcomer];
    LoginAfterSignup(users, newcomer, body, checkpw);
    FindFirstAppended(users, EmailIs(newcomer.email), newcomer);
    assert all[|users|] == newcomer;
    IssuedTokenAuthenticates(body, all, checkpw, scheme, token, decode);
  }
}
