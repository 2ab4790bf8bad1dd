/**
 * The backend's handlers over an in-memory document store: one class
 * holding the five collections the handlers touch and the counters the
 * sequence allocator keeps. Each handler method receives the user the
 * gates resolved (`current_user`) and the request's inputs, and states the
 * response and the new state of the store for every branch the handler
 * takes.
 *
 * The handlers keep one invariant, `Consistent`: within each collection the
 * ids are distinct and none exceeds its counter, no two users share an
 * email, and no user is enrolled twice in one course.
 */
module Store {
  import opened Wrappers
  import opened Text
  import opened Documents
  import opened Records
  import opened Sequence

  // ---------------------------------------------------------------------
  // The invariant
  // ---------------------------------------------------------------------

  datatype Tables = Tables(
    users: seq<User>, courses: seq<Course>, enrollments: seq<Enrollment>,
    assessments: seq<Assessment>, payments: seq<Payment>)

  function UserKey(u: User): int { u.userId }
  function CourseKey(c: Course): int { c.courseId }
  function EnrollmentKey(e: Enrollment): int { e.enrollmentId }
  function AssessmentKey(a: Assessment): int { a.assessmentId }
  function PaymentKey(p: Payment): int { p.paymentId }

  /** The ids in `s` are distinct and none exceeds `bound`. */
  ghost predicate Keyed<T>(s: seq<T>, key: T -> int, bound: int)
  {
    && (forall i, j :: 0 <= i < j < |s| ==> key(s[i]) != key(s[j]))
    && (forall i :: 0 <= i < |s| ==> key(s[i]) <= bound)
  }

  ghost predicate EmailsDistinct(users: seq<User>)
  {
    forall i, j :: 0 <= i < j < |users| ==> users[i].email != users[j].email
  }

  ghost predicate EnrolledOnce(enrollments: seq<Enrollment>)
  {
    forall i, j :: 0 <= i < j < |enrollments| ==>
      enrollments[i].userId != enrollments[j].userId || enrollments[i].courseId != enrollments[j].courseId
  }

  ghost predicate Consistent(t: Tables, counters: map<string, int>)
  {
    && Keyed(t.users, UserKey, Current(counters, "user_id"))
    && Keyed(t.courses, CourseKey, Current(counters, "course_id"))
    && Keyed(t.enrollments, EnrollmentKey, Current(counters, "enrollment_id"))
    && Keyed(t.assessments, AssessmentKey, Current(counters, "assessment_id"))
    && Keyed(t.payments, PaymentKey, Current(counters, "payment_id"))
    && EmailsDistinct(t.users)
    && EnrolledOnce(t.enrollments)
  }

  /** Moving a counter on keeps its collection within bound. */
  lemma KeyedRaise<T>(s: seq<T>, key: T -> int, bound: int, bound': int)
    requires Keyed(s, key, bound) && bound <= bound'
    ensures Keyed(s, key, bound')
  {
  }

  lemma KeyedRemove<T>(s: seq<T>, key: T -> int, bound: int, i: nat)
    requires Keyed(s, key, bound) && i < |s|
    ensures Keyed(RemoveAt(s, i), key, bound)
  {
    var r := RemoveAt(s, i);
    forall a, b | 0 <= a < b < |r|
      ensures key(r[a]) != key(r[b])
    {
      var a' := if a < i then a else a + 1;
      var b' := if b < i then b else b + 1;
      assert r[a] == s[a'] && r[b] == s[b'] && a' < b';
    }
  }

  lemma KeyedReplace<T>(s: seq<T>, key: T -> int, bound: int, i: nat, x: T)
    requires Keyed(s, key, bound) && i < |s| && key(x) == key(s[i])
    ensures Keyed(s[i := x], key, bound)
  {
    var r := s[i := x];
    forall a, b | 0 <= a < b < |r|
      ensures key(r[a]) != key(r[b])
    {
      assert key(r[a]) == key(s[a]) && key(r[b]) == key(s[b]);
    }
  }

  lemma EnrolledOnceRemove(s: seq<Enrollment>, i: nat)
    requires EnrolledOnce(s) && i < |s|
    ensures EnrolledOnce(RemoveAt(s, i))
  {
    var r := RemoveAt(s, i);
    forall a, b | 0 <= a < b < |r|
      ensures r[a].userId != r[b].userId || r[a].courseId != r[b].courseId
    {
      var a' := if a < i then a else a + 1;
      var b' := if b < i then b else b + 1;
      assert r[a] == s[a'] && r[b] == s[b'] && a' < b';
    }
  }

  // ---------------------------------------------------------------------
  // update_fields and $set
  // ---------------------------------------------------------------------

  /** The fields the course update may set. */
  const CourseFields: set<string> := {"title", "description", "category", "price", "duration"}

  /** The fields the assessment update may set. */
  const AssessmentFields: set<string> := {"title", "type", "questions"}

  /** The body's fields among `names` that are present and not None, with
      their values. */
  function Supplied(body: Body, names: set<string>): map<string, Doc>
  {
    map k | k in names && Get(body, k) != Nil :: Get(body, k)
  }

  /** How an `update_fields` if-chain ends: with the fields to set, or with
      an early response. */
  datatype Update = Set(fields: map<string, Doc>) | Refuse(response: Response)

  function Pick(fields: map<string, Doc>, name: string, current: Doc): Doc
  {
    if name in fields then fields[name] else current
  }

  /** `{'$set': fields}` on a course. */
  function SetCourse(c: Course, fields: map<string, Doc>): (r: Course)
    ensures r.courseId == c.courseId && r.instructorId == c.instructorId
    ensures fields == map[] ==> r == c
  {
    c.(title := Pick(fields, "title", c.title),
       description := Pick(fields, "description", c.description),
       category := Pick(fields, "category", c.category),
       price := Pick(fields, "price", c.price),
       duration := Pick(fields, "duration", c.duration))
  }

  /** `{'$set': fields}` on an assessment. */
  function SetAssessment(a: Assessment, fields: map<string, Doc>): (r: Assessment)
    ensures r.assessmentId == a.assessmentId && r.courseId == a.courseId
    ensures fields == map[] ==> r == a
  {
    a.(title := Pick(fields, "title", a.title),
       kind := Pick(fields, "type", a.kind),
       questions := Pick(fields, "questions", a.questions))
  }

  /** `{'$set': fields}` on a payment. */
  function SetPayment(p: Payment, fields: map<string, Doc>): (r: Payment)
    ensures r.paymentId == p.paymentId && r.userId == p.userId && r.courseId == p.courseId && r.paymentDate == p.paymentDate
    ensures fields == map[] ==> r == p
  {
    p.(amount := Pick(fields, "amount", p.amount),
       status := Pick(fields, "status", p.status))
  }

  predicate IsAssessmentType(d: Doc) { d == StrDoc("quiz") || d == StrDoc("test") }

  predicate IsPaymentStatus(d: Doc) { d == StrDoc("completed") || d == StrDoc("pending") }

  /** A missing amount, or one `float` converts. */
  predicate AmountAccepted(body: Body, toFloat: Doc -> FloatConv)
  {
    Get(body, "amount") == Nil || toFloat(Get(body, "amount")).FloatOk?
  }

  /** A payment update that passes every check before the store is asked. */
  predicate PaymentRevisable(body: Body, toFloat: Doc -> FloatConv)
  {
    && AmountAccepted(body, toFloat)
    && (Get(body, "status") == Nil || IsPaymentStatus(Get(body, "status")))
    && (Get(body, "amount") != Nil || Get(body, "status") != Nil)
  }

  /** The if-chain of `update_course`: every supplied, non-None field. */
  method CourseUpdate(body: Body) returns (fields: map<string, Doc>)
    ensures fields == Supplied(body, CourseFields)
  {
    fields := map[];
    if Get(body, "title") != Nil {
      fields := fields["title" := Get(body, "title")];
    }
    if Get(body, "description") != Nil {
      fields := fields["description" := Get(body, "description")];
    }
    if Get(body, "category") != Nil {
      fields := fields["category" := Get(body, "category")];
    }
    if Get(body, "price") != Nil {
      fields := fields["price" := Get(body, "price")];
    }
    if Get(body, "duration") != Nil {
      fields := fields["duration" := Get(body, "duration")];
    }
  }

  /** The if-chain of `update_assessment`: a supplied type must be `quiz`
      or `test`, otherwise 400. */
  method AssessmentUpdate(body: Body) returns (u: Update)
    ensures u.Refuse? <==> Get(body, "type") != Nil && !IsAssessmentType(Get(body, "type"))
    ensures u.Refuse? ==> u.response == Reply(400, "Invalid assessment type")
    ensures u.Set? ==> u.fields == Supplied(body, AssessmentFields)
  {
    var fields := map[];
    if Get(body, "title") != Nil {
      fields := fields["title" := Get(body, "title")];
    }
    if Get(body, "type") != Nil {
      if !IsAssessmentType(Get(body, "type")) {
        return Refuse(Reply(400, "Invalid assessment type"));
      }
      fields := fields["type" := Get(body, "type")];
    }
    if Get(body, "questions") != Nil {
      fields := fields["questions" := Get(body, "questions")];
    }
    u := Set(fields);
  }


  /** The if-chain of `update_payment`: a supplied amount must convert with
      `float` (a ValueError is a 400, a TypeError escapes), a supplied
      status must be `completed` or `pending`, and at least one of the two
      must be supplied. */
  method PaymentUpdate(body: Body, toFloat: Doc -> FloatConv) returns (u: Update)
    ensures u.Set? <==> PaymentRevisable(body, toFloat)
    ensures Get(body, "amount") != Nil && toFloat(Get(body, "amount")) == FloatValueErr ==>
      u == Refuse(Reply(400, "Invalid amount format"))
    ensures Get(body, "amount") != Nil && toFloat(Get(body, "amount")) == FloatTypeErr ==>
      u == Refuse(Unhandled(TypeError))
    ensures AmountAccepted(body, toFloat) && Get(body, "status") != Nil && !IsPaymentStatus(Get(body, "status")) ==>
      u == Refuse(Reply(400, "Invalid payment status"))
    ensures Get(body, "amount") == Nil && Get(body, "status") == Nil ==>
      u == Refuse(Reply(400, "No data provided for update"))
    ensures u.Set? ==>
      var amount, status := Get(body, "amount"), Get(body, "status");
      && u.fields.Keys <= {"amount", "status"}
      && ("amount" in u.fields <==> amount != Nil)
      && (amount != Nil ==> u.fields["amount"] == Atom(Float(toFloat(amount).r)))
      && ("status" in u.fields <==> status != Nil)
      && (status != Nil ==> u.fields["status"] == status)
  {
    var amount := Get(body, "amount");
    var status := Get(body, "status");
    var fields := map[];
    if amount != Nil {
      match toFloat(amount)
      case FloatValueErr =>
        return Refuse(Reply(400, "Invalid amount format"));
      case FloatTypeErr =>
        return Refuse(Unhandled(TypeError));
      case FloatOk(x) =>
        fields := fields["amount" := Atom(Float(x))];
    }
    if status != Nil {
      if !IsPaymentStatus(status) {
        return Refuse(Reply(400, "Invalid payment status"));
      }
      fields := fields["status" := status];
    }
    assert (amount != Nil ==> "amount" in fields) && (status != Nil ==> "status" in fields);
    if fields == map[] {
      return Refuse(Reply(400, "No data provided for update"));
    }
    u := Set(fields);
  }


  /** The three fields `signup` insists on are all truthy. */
  predicate SignupComplete(body: Body)
  {
    Truthy(Get(body, "username")) && Truthy(Get(body, "email")) && Truthy(Get(body, "password"))
  }

  /** The five fields `create_course` insists on are supplied; a price only
      has to be present, so a price of 0 is accepted. */
  predicate CourseComplete(body: Body)
  {
    && Truthy(Get(body, "title")) && Truthy(Get(body, "description")) && Truthy(Get(body, "category"))
    && Get(body, "price") != Nil && Truthy(Get(body, "duration"))
  }

  /** The four fields `create_assessment` insists on are all truthy. */
  predicate AssessmentComplete(body: Body)
  {
    Truthy(Get(body, "courseId")) && Truthy(Get(body, "title")) && Truthy(Get(body, "type")) && Truthy(Get(body, "questions"))
  }

  /** A student may touch only their own enrolments; other roles any. */
  predicate MayTouch(user: User, e: Enrollment)
  {
    !(user.role == StrDoc("student") && user.userId != e.userId)
  }

  // ---------------------------------------------------------------------
  // What each handler does: its response and the store after it, given
  // the collections `t` and counters `c` before it. A refusal leaves both
  // as they were.
  // ---------------------------------------------------------------------

  ghost predicate SignupDoes(
    body: Body, hashed: Hash, t: Tables, c: map<string, int>, r: Response, t': Tables, c': map<string, int>)
  {
    && (!SignupComplete(body) ==>
          r == Reply(400, "Username, email, and password are required") && t' == t && c' == c)
    && (SignupComplete(body) && FindFirst(t.users, EmailIs(Get(body, "email"))).Some? ==>
          r == Reply(400, "User already exists") && t' == t && c' == c)
    && (SignupComplete(body) && FindFirst(t.users, EmailIs(Get(body, "email"))).None? ==>
          && (!IsText(Get(body, "password")) ==> r == Unhandled(AttributeError) && t' == t && c' == c)
          && (IsText(Get(body, "password")) ==>
                var id := Current(c, "user_id") + 1;
                && r == Created(id, "Signup successful")
                && (forall i :: 0 <= i < |t.users| ==> t.users[i].userId != id)
                && c' == c["user_id" := id]
                && t' == t.(users := t.users +
                     [User(id, Get(body, "username"), Get(body, "email"), hashed, Get(body, "phone"),
                           GetOr(body, "role", StrDoc("student")))])))
  }

  ghost predicate CreateCourseDoes(
    user: User, body: Body, t: Tables, c: map<string, int>, r: Response, t': Tables, c': map<string, int>)
  {
    && (!CourseComplete(body) ==> r == Reply(400, "All fields are required") && t' == t && c' == c)
    && (CourseComplete(body) ==>
          var id := Current(c, "course_id") + 1;
          && r == Created(id, "Course created")
          && c' == c["course_id" := id]
          && t' == t.(courses := t.courses +
               [Course(id, Get(body, "title"), Get(body, "description"), Get(body, "category"),
                       Get(body, "price"), Get(body, "duration"), user.userId)]))
  }

  ghost predicate UpdateCourseDoes(
    user: User, courseId: string, body: Body, t: Tables, c: map<string, int>, r: Response, t': Tables, c': map<string, int>)
  {
    && (Supplied(body, CourseFields) == map[] ==>
          r == Reply(400, "No data provided for update") && t' == t && c' == c)
    && (Supplied(body, CourseFields) != map[] && ParseInt(courseId).None? ==>
          r == Unhandled(ValueError) && t' == t && c' == c)
    && (Supplied(body, CourseFields) != map[] && ParseInt(courseId).Some? ==>
          var found := FindFirst(t.courses, CourseOwnedBy(ParseInt(courseId).value, user.userId));
          && (found.None? ==>
                r == Reply(404, "Course not found or you are not the instructor") && t' == t && c' == c)
          && (found.Some? ==>
                && r == Reply(200, "Course updated")
                && c' == c
                && t' == t.(courses :=
                     t.courses[found.value := SetCourse(t.courses[found.value], Supplied(body, CourseFields))])))
  }

  ghost predicate DeleteCourseDoes(
    user: User, courseId: string, t: Tables, c: map<string, int>, r: Response, t': Tables, c': map<string, int>)
  {
    && (ParseInt(courseId).None? ==> r == Unhandled(ValueError) && t' == t && c' == c)
    && (ParseInt(courseId).Some? ==>
          var found := FindFirst(t.courses, CourseOwnedBy(ParseInt(courseId).value, user.userId));
          && (found.None? ==>
                r == Reply(404, "Course not found or you are not the instructor") && t' == t && c' == c)
          && (found.Some? ==>
                && r == Reply(200, "Course deleted")
                && c' == c
                && t' == t.(courses := RemoveAt(t.courses, found.value))))
  }

  ghost predicate EnrollCourseDoes(
    user: User, body: Body, now: int, t: Tables, c: map<string, int>, r: Response, t': Tables, c': map<string, int>)
  {
    && (Get(body, "courseId") == Nil ==>
          r == Reply(400, "Course ID is required") && t' == t && c' == c)
    && (Get(body, "courseId") != Nil && ToInt(Get(body, "courseId")) == ValueErr ==>
          r == Reply(400, "Invalid course ID format") && t' == t && c' == c)
    && (Get(body, "courseId") != Nil && ToInt(Get(body, "courseId")) == TypeErr ==>
          r == Unhandled(TypeError) && t' == t && c' == c)
    && (ToInt(Get(body, "courseId")).Converted? ==>
          var cid := ToInt(Get(body, "courseId")).n;
          && (FindFirst(t.courses, CourseIdIs(cid)).None? ==>
                r == Reply(404, "Course not found") && t' == t && c' == c)
          && (FindFirst(t.courses, CourseIdIs(cid)).Some? &&
              FindFirst(t.enrollments, EnrollmentOf(user.userId, cid)).Some? ==>
                r == Reply(400, "Already enrolled in this course") && t' == t && c' == c)
          && (FindFirst(t.courses, CourseIdIs(cid)).Some? &&
              FindFirst(t.enrollments, EnrollmentOf(user.userId, cid)).None? ==>
                var id := Current(c, "enrollment_id") + 1;
                && r == Created(id, "Enrollment successful")
                && c' == c["enrollment_id" := id]
                && t' == t.(enrollments := t.enrollments + [Enrollment(id, user.userId, cid, Atom(Date(now)))])))
  }

  ghost predicate DeleteEnrollmentDoes(
    user: User, enrollmentId: int, t: Tables, c: map<string, int>, r: Response, t': Tables, c': map<string, int>)
  {
    var found := FindFirst(t.enrollments, EnrollmentIdIs(enrollmentId));
    && (found.None? ==> r == Reply(404, "Enrollment not found") && t' == t && c' == c)
    && (found.Some? && !MayTouch(user, t.enrollments[found.value]) ==>
          r == Reply(403, "Access forbidden: Cannot delete other user's enrollment") && t' == t && c' == c)
    && (found.Some? && MayTouch(user, t.enrollments[found.value]) ==>
          && r == Reply(200, "Enrollment deleted")
          && c' == c
          && t' == t.(enrollments := RemoveAt(t.enrollments, found.value)))
  }

  ghost predicate UpdateEnrollmentDoes(
    user: User, enrollmentId: string, body: Body, t: Tables, c: map<string, int>, r: Response, t': Tables, c': map<string, int>)
  {
    && (Get(body, "enrollmentDate") == Nil ==>
          r == Reply(400, "Enrollment date is required") && t' == t && c' == c)
    && (Get(body, "enrollmentDate") != Nil && ParseInt(enrollmentId).None? ==>
          r == Unhandled(ValueError) && t' == t && c' == c)
    && (Get(body, "enrollmentDate") != Nil && ParseInt(enrollmentId).Some? ==>
          var found := FindFirst(t.enrollments, EnrollmentIdIs(ParseInt(enrollmentId).value));
          && (found.None? ==> r == Reply(404, "Enrollment not found") && t' == t && c' == c)
          && (found.Some? && !MayTouch(user, t.enrollments[found.value]) ==>
                r == Reply(403, "Access forbidden: Cannot update other user's enrollment") && t' == t && c' == c)
          && (found.Some? && MayTouch(user, t.enrollments[found.value]) ==>
                && r == Reply(200, "Enrollment updated")
                && c' == c
                && t' == t.(enrollments := t.enrollments[found.value :=
                     t.enrollments[found.value].(enrollmentDate := Get(body, "enrollmentDate"))])))
  }

  ghost predicate CreateAssessmentDoes(
    body: Body, t: Tables, c: map<string, int>, r: Response, t': Tables, c': map<string, int>)
  {
    && (!AssessmentComplete(body) ==>
          r == Reply(400, "Course ID, title, type, and questions are required") && t' == t && c' == c)
    && (AssessmentComplete(body) && !IsAssessmentType(Get(body, "type")) ==>
          r == Reply(400, "Invalid assessment type") && t' == t && c' == c)
    && (AssessmentComplete(body) && IsAssessmentType(Get(body, "type")) ==>
          var id := Current(c, "assessment_id") + 1;
          var courseId := ToInt(Get(body, "courseId"));
          && c' == c["assessment_id" := id]
          && (courseId == ValueErr ==> r == Unhandled(ValueError) && t' == t)
          && (courseId == TypeErr ==> r == Unhandled(TypeError) && t' == t)
          && (courseId.Converted? ==>
                && r == Created(id, "Assessment created")
                && t' == t.(assessments := t.assessments +
                     [Assessment(id, courseId.n, Get(body, "title"), Get(body, "type"), Get(body, "questions"))])))
  }

  ghost predicate UpdateAssessmentDoes(
    assessmentId: int, body: Body, t: Tables, c: map<string, int>, r: Response, t': Tables, c': map<string, int>)
  {
    && (Get(body, "type") != Nil && !IsAssessmentType(Get(body, "type")) ==>
          r == Reply(400, "Invalid assessment type") && t' == t && c' == c)
    && (!(Get(body, "type") != Nil && !IsAssessmentType(Get(body, "type"))) ==>
          var fields := Supplied(body, AssessmentFields);
          var found := FindFirst(t.assessments, AssessmentIdIs(assessmentId));
          && (fields == map[] ==> r == Reply(400, "No data provided for update") && t' == t && c' == c)
          && (fields != map[] && found.None? ==>
                r == Reply(404, "Assessment not found or you are not the instructor") && t' == t && c' == c)
          && (fields != map[] && found.Some? ==>
                && r == Reply(200, "Assessment updated")
                && c' == c
                && t' == t.(assessments :=
                     t.assessments[found.value := SetAssessment(t.assessments[found.value], fields)])))
  }

  ghost predicate DeleteAssessmentDoes(
    assessmentId: int, t: Tables, c: map<string, int>, r: Response, t': Tables, c': map<string, int>)
  {
    var found := FindFirst(t.assessments, AssessmentIdIs(assessmentId));
    && (found.None? ==>
          r == Reply(404, "Assessment not found or you are not the instructor") && t' == t && c' == c)
    && (found.Some? ==>
          && r == Reply(200, "Assessment deleted")
          && c' == c
          && t' == t.(assessments := RemoveAt(t.assessments, found.value)))
  }

  ghost predicate CreatePaymentDoes(
    user: User, body: Body, toFloat: Doc -> FloatConv, now: int,
    t: Tables, c: map<string, int>, r: Response, t': Tables, c': map<string, int>)
  {
    && (!Truthy(Get(body, "courseId")) || Get(body, "amount") == Nil ==>
          r == Reply(400, "Course ID and amount are required") && t' == t && c' == c)
    && (Truthy(Get(body, "courseId")) && Get(body, "amount") != Nil ==>
          var courseId, amount := ToInt(Get(body, "courseId")), toFloat(Get(body, "amount"));
          && (courseId == ValueErr ==>
                r == Reply(400, "Invalid course ID or amount format") && t' == t && c' == c)
          && (courseId == TypeErr ==> r == Unhandled(TypeError) && t' == t && c' == c)
          && (courseId.Converted? && amount == FloatValueErr ==>
                r == Reply(400, "Invalid course ID or amount format") && t' == t && c' == c)
          && (courseId.Converted? && amount == FloatTypeErr ==>
                r == Unhandled(TypeError) && t' == t && c' == c)
          && (courseId.Converted? && amount.FloatOk? && FindFirst(t.courses, CourseIdIs(courseId.n)).None? ==>
                r == Reply(404, "Course not found") && t' == t && c' == c)
          && (courseId.Converted? && amount.FloatOk? && FindFirst(t.courses, CourseIdIs(courseId.n)).Some? ==>
                var id := Current(c, "payment_id") + 1;
                && r == Created(id, "Payment created")
                && c' == c["payment_id" := id]
                && t' == t.(payments := t.payments +
                     [Payment(id, user.userId, courseId.n, Atom(Float(amount.r)), Atom(Date(now)),
                              GetOr(body, "status", StrDoc("pending")))])))
  }

  ghost predicate UpdatePaymentDoes(
    user: User, paymentId: int, body: Body, toFloat: Doc -> FloatConv,
    t: Tables, c: map<string, int>, r: Response, t': Tables, c': map<string, int>)
  {
    && (Get(body, "amount") != Nil && toFloat(Get(body, "amount")) == FloatValueErr ==>
          r == Reply(400, "Invalid amount format") && t' == t && c' == c)
    && (Get(body, "amount") != Nil && toFloat(Get(body, "amount")) == FloatTypeErr ==>
          r == Unhandled(TypeError) && t' == t && c' == c)
    && (AmountAccepted(body, toFloat) && Get(body, "status") != Nil && !IsPaymentStatus(Get(body, "status")) ==>
          r == Reply(400, "Invalid payment status") && t' == t && c' == c)
    && (Get(body, "amount") == Nil && Get(body, "status") == Nil ==>
          r == Reply(400, "No data provided for update") && t' == t && c' == c)
    && (PaymentRevisable(body, toFloat) ==>
          var found := FindFirst(t.payments, PaymentOwnedBy(paymentId, user.userId));
          && (found.None? ==>
                r == Reply(404, "Payment not found or you are not authorized to update this payment") &&
                t' == t && c' == c)
          && (found.Some? ==>
                var p := t.payments[found.value];
                var amount, status := Get(body, "amount"), Get(body, "status");
                && r == Reply(200, "Payment updated")
                && c' == c
                && t' == t.(payments := t.payments[found.value := p.(
                     amount := if amount != Nil then Atom(Float(toFloat(amount).r)) else p.amount,
                     status := if status != Nil then status else p.status)])))
  }

  ghost predicate DeletePaymentDoes(
    user: User, paymentId: int, t: Tables, c: map<string, int>, r: Response, t': Tables, c': map<string, int>)
  {
    var found := FindFirst(t.payments, PaymentOwnedBy(paymentId, user.userId));
    && (found.None? ==>
          r == Reply(404, "Payment not found or you are not authorized to delete this payment") &&
          t' == t && c' == c)
    && (found.Some? ==>
          && r == Reply(200, "Payment deleted")
          && c' == c
          && t' == t.(payments := RemoveAt(t.payments, found.value)))
  }

  // ---------------------------------------------------------------------
  // The store and its handlers
  // ---------------------------------------------------------------------

  class Db {
    /** `mongo.db.counters` */
    const counters: Counters
    /** `mongo.db.users`, `.courses`, `.enrollments`, `.assessments` and
        `.payments`, each in its natural order. */
    var users: seq<User>
    var courses: seq<Course>
    var enrollments: seq<Enrollment>
    var assessments: seq<Assessment>
    var payments: seq<Payment>

    ghost function View(): Tables
      reads this
    {
      Tables(users, courses, enrollments, assessments, payments)
    }

    ghost predicate Valid()
      reads this, counters
    {
      Consistent(View(), counters.values)
    }

    constructor ()
      ensures Valid() && fresh(counters)
      ensures View() == Tables([], [], [], [], []) && counters.values == map[]
    {
      counters := new Counters();
      users, courses, enrollments, assessments, payments := [], [], [], [], [];
    }

    /** `get_next_id` on the store's counters: moving a counter on keeps
        every stored id within its bound. */
    method NextId(name: string) returns (id: int)
      requires Valid()
      modifies counters
      ensures Valid()
      ensures id == Current(old(counters.values), name) + 1
      ensures counters.values == old(counters.values)[name := id]
    {
      ghost var before := counters.values;
      id := counters.NextId(name);
      KeyedRaise(users, UserKey, Current(before, "user_id"), Current(counters.values, "user_id"));
      KeyedRaise(courses, CourseKey, Current(before, "course_id"), Current(counters.values, "course_id"));
      KeyedRaise(enrollments, EnrollmentKey, Current(before, "enrollment_id"), Current(counters.values, "enrollment_id"));
      KeyedRaise(assessments, AssessmentKey, Current(before, "assessment_id"), Current(counters.values, "assessment_id"));
      KeyedRaise(payments, PaymentKey, Current(before, "payment_id"), Current(counters.values, "payment_id"));
    }

    /** `insert_one` into `users`: the new user's id is within its bound
        and, like its email, held by no stored user. */
    method AddUser(u: User)
      requires Valid() && u.userId <= Current(counters.values, "user_id")
      requires forall i :: 0 <= i < |users| ==> users[i].userId != u.userId && users[i].email != u.email
      modifies this
      ensures Valid()
      ensures View() == old(View()).(users := old(users) + [u])
    {
      users := users + [u];
    }

    /** `insert_one` into `courses`. */
    method AddCourse(c: Course)
      requires Valid() && c.courseId <= Current(counters.values, "course_id")
      requires forall i :: 0 <= i < |courses| ==> courses[i].courseId != c.courseId
      modifies this
      ensures Valid()
      ensures View() == old(View()).(courses := old(courses) + [c])
    {
      courses := courses + [c];
    }

    /** `insert_one` into `enrollments`: the student is not yet enrolled
        in that course. */
    method AddEnrollment(e: Enrollment)
      requires Valid() && e.enrollmentId <= Current(counters.values, "enrollment_id")
      requires forall i :: 0 <= i < |enrollments| ==> enrollments[i].enrollmentId != e.enrollmentId
      requires forall i :: 0 <= i < |enrollments| ==> !EnrollmentOf(e.userId, e.courseId)(enrollments[i])
      modifies this
      ensures Valid()
      ensures View() == old(View()).(enrollments := old(enrollments) + [e])
    {
      enrollments := enrollments + [e];
    }

    /** `insert_one` into `assessments`. */
    method AddAssessment(a: Assessment)
      requires Valid() && a.assessmentId <= Current(counters.values, "assessment_id")
      requires forall i :: 0 <= i < |assessments| ==> assessments[i].assessmentId != a.assessmentId
      modifies this
      ensures Valid()
      ensures View() == old(View()).(assessments := old(assessments) + [a])
    {
      assessments := assessments + [a];
    }

    /** `insert_one` into `payments`. */
    method AddPayment(p: Payment)
      requires Valid() && p.paymentId <= Current(counters.values, "payment_id")
      requires forall i :: 0 <= i < |payments| ==> payments[i].paymentId != p.paymentId
      modifies this
      ensures Valid()
      ensures View() == old(View()).(payments := old(payments) + [p])
    {
      payments := payments + [p];
    }

    /** `update_one` on the course at position i, keeping its id. */
    method ReviseCourse(i: nat, c: Course)
      requires Valid() && i < |courses| && c.courseId == courses[i].courseId
      modifies this
      ensures Valid()
      ensures View() == old(View()).(courses := old(courses)[i := c])
    {
      KeyedReplace(courses, CourseKey, Current(counters.values, "course_id"), i, c);
      courses := courses[i := c];
    }

    /** `delete_one` on the course at position i. */
    method RemoveCourse(i: nat)
      requires Valid() && i < |courses|
      modifies this
      ensures Valid()
      ensures View() == old(View()).(courses := RemoveAt(old(courses), i))
    {
      KeyedRemove(courses, CourseKey, Current(counters.values, "course_id"), i);
      courses := RemoveAt(courses, i);
    }

    /** `update_one` on the enrolment at position i, changing its date only. */
    method ReviseEnrollment(i: nat, date: Doc)
      requires Valid() && i < |enrollments|
      modifies this
      ensures Valid()
      ensures View() == old(View()).(enrollments := old(enrollments)[i := old(enrollments)[i].(enrollmentDate := date)])
    {
      var e := enrollments[i].(enrollmentDate := date);
      KeyedReplace(enrollments, EnrollmentKey, Current(counters.values, "enrollment_id"), i, e);
      enrollments := enrollments[i := e];
    }

    /** `delete_one` on the enrolment at position i. */
    method RemoveEnrollment(i: nat)
      requires Valid() && i < |enrollments|
      modifies this
      ensures Valid()
      ensures View() == old(View()).(enrollments := RemoveAt(old(enrollments), i))
    {
      KeyedRemove(enrollments, EnrollmentKey, Current(counters.values, "enrollment_id"), i);
      EnrolledOnceRemove(enrollments, i);
      enrollments := RemoveAt(enrollments, i);
    }

    /** `update_one` on the assessment at position i, keeping its id. */
    method ReviseAssessment(i: nat, a: Assessment)
      requires Valid() && i < |assessments| && a.assessmentId == assessments[i].assessmentId
      modifies this
      ensures Valid()
      ensures View() == old(View()).(assessments := old(assessments)[i := a])
    {
      KeyedReplace(assessments, AssessmentKey, Current(counters.values, "assessment_id"), i, a);
      assessments := assessments[i := a];
    }

    /** `delete_one` on the assessment at position i. */
    method RemoveAssessment(i: nat)
      requires Valid() && i < |assessments|
      modifies this
      ensures Valid()
      ensures View() == old(View()).(assessments := RemoveAt(old(assessments), i))
    {
      KeyedRemove(assessments, AssessmentKey, Current(counters.values, "assessment_id"), i);
      assessments := RemoveAt(assessments, i);
    }

    /** `update_one` on the payment at position i, keeping its id. */
    method RevisePayment(i: nat, p: Payment)
      requires Valid() && i < |payments| && p.paymentId == payments[i].paymentId
      modifies this
      ensures Valid()
      ensures View() == old(View()).(payments := old(payments)[i := p])
    {
      KeyedReplace(payments, PaymentKey, Current(counters.values, "payment_id"), i, p);
      payments := payments[i := p];
    }

    /** `delete_one` on the payment at position i. */
    method RemovePayment(i: nat)
      requires Valid() && i < |payments|
      modifies this
      ensures Valid()
      ensures View() == old(View()).(payments := RemoveAt(old(payments), i))
    {
      KeyedRemove(payments, PaymentKey, Current(counters.values, "payment_id"), i);
      payments := RemoveAt(payments, i);
    }

    /** `signup`: the password is hashed (`hashed` is what bcrypt returned)
        and a user inserted with the next `user_id`, which no stored user
        has. The role defaults to `student` and is stored unchecked. */
    method Signup(body: Body, hashed: Hash) returns (r: Response)
      requires Valid()
      modifies this, counters
      ensures Valid()
      ensures SignupDoes(body, hashed, old(View()), old(counters.values), r, View(), counters.values)
    {
      var username := Get(body, "username");
      var email := Get(body, "email");
      var password := Get(body, "password");
      var phone := Get(body, "phone");
      var role := GetOr(body, "role", StrDoc("student"));
      if !Truthy(username) || !Truthy(email) || !Truthy(password) {
        return Reply(400, "Username, email, and password are required");
      }
      if FindFirst(users, EmailIs(email)).Some? {
        return Reply(400, "User already exists");
      }
      if !IsText(password) {
        // password.encode('utf-8') on a value that is not a string
        return Unhandled(AttributeError);
      }
      var userId := NextId("user_id");
      AddUser(User(userId, username, email, hashed, phone, role));
      r := Created(userId, "Signup successful");
    }

    /** `create_course`: a course owned by the calling instructor, with the
        next `course_id`. */
    method CreateCourse(user: User, body: Body) returns (r: Response)
      requires Valid()
      modifies this, counters
      ensures Valid()
      ensures CreateCourseDoes(user, body, old(View()), old(counters.values), r, View(), counters.values)
    {
      var title := Get(body, "title");
      var description := Get(body, "description");
      var category := Get(body, "category");
      var price := Get(body, "price");
      var duration := Get(body, "duration");
      if !Truthy(title) || !Truthy(description) || !Truthy(category) || price == Nil || !Truthy(duration) {
        return Reply(400, "All fields are required");
      }
      var courseId := NextId("course_id");
      AddCourse(Course(courseId, title, description, category, price, duration, user.userId));
      r := Created(courseId, "Course created");
    }

    /** `update_course`: set the supplied fields on the caller's own course.
        `courseId` is the raw path segment, read with `int()` only once
        there is something to set. */
    method UpdateCourse(user: User, courseId: string, body: Body) returns (r: Response)
      requires Valid()
      modifies this, counters
      ensures Valid()
      ensures UpdateCourseDoes(user, courseId, body, old(View()), old(counters.values), r, View(), counters.values)
    {
      var fields := CourseUpdate(body);
      if fields == map[] {
        return Reply(400, "No data provided for update");
      }
      match ParseInt(courseId)
      case None =>
        return Unhandled(ValueError);
      case Some(cid) =>
        match FindFirst(courses, CourseOwnedBy(cid, user.userId))
        case None =>
          return Reply(404, "Course not found or you are not the instructor");
        case Some(i) =>
          ReviseCourse(i, SetCourse(courses[i], fields));
          r := Reply(200, "Course updated");
    }

    /** `delete_course`: delete the caller's own course. */
    method DeleteCourse(user: User, courseId: string) returns (r: Response)
      requires Valid()
      modifies this, counters
      ensures Valid()
      ensures DeleteCourseDoes(user, courseId, old(View()), old(counters.values), r, View(), counters.values)
    {
      match ParseInt(courseId)
      case None =>
        return Unhandled(ValueError);
      case Some(cid) =>
        match FindFirst(courses, CourseOwnedBy(cid, user.userId))
        case None =>
          return Reply(404, "Course not found or you are not the instructor");
        case Some(i) =>
          RemoveCourse(i);
          r := Reply(200, "Course deleted");
    }

    /** `enroll_course`: enrol the calling student, once, in a course that
        exists; `now` is the clock reading stored as the enrolment date. */
    method EnrollCourse(user: User, body: Body, now: int) returns (r: Response)
      requires Valid()
      modifies this, counters
      ensures Valid()
      ensures EnrollCourseDoes(user, body, now, old(View()), old(counters.values), r, View(), counters.values)
    {
      var raw := Get(body, "courseId");
      if raw == Nil {
        return Reply(400, "Course ID is required");
      }
      var cid: int;
      match ToInt(raw)
      case ValueErr =>
        return Reply(400, "Invalid course ID format");
      case TypeErr =>
        return Unhandled(TypeError);
      case Converted(n) =>
        cid := n;
      if FindFirst(courses, CourseIdIs(cid)).None? {
        return Reply(404, "Course not found");
      }
      if FindFirst(enrollments, EnrollmentOf(user.userId, cid)).Some? {
        return Reply(400, "Already enrolled in this course");
      }
      var enrollmentId := NextId("enrollment_id");
      AddEnrollment(Enrollment(enrollmentId, user.userId, cid, Atom(Date(now))));
      r := Created(enrollmentId, "Enrollment successful");
    }

    /** `delete_enrollment`: a student may delete only their own enrolment;
        any other role may delete any. The second "not found" check of the
        handler cannot fire: the enrolment was found just before. */
    method DeleteEnrollment(user: User, enrollmentId: int) returns (r: Response)
      requires Valid()
      modifies this, counters
      ensures Valid()
      ensures DeleteEnrollmentDoes(user, enrollmentId, old(View()), old(counters.values), r, View(), counters.values)
    {
      match FindFirst(enrollments, EnrollmentIdIs(enrollmentId))
      case None =>
        return Reply(404, "Enrollment not found");
      case Some(i) =>
        if !MayTouch(user, enrollments[i]) {
          return Reply(403, "Access forbidden: Cannot delete other user's enrollment");
        }
        RemoveEnrollment(i);
        r := Reply(200, "Enrollment deleted");
    }

    /** `update_enrollment`: set the enrolment date. The date is required
        before anything is looked up; `enrollmentId` is the raw path
        segment, read with `int()`. */
    method UpdateEnrollment(user: User, enrollmentId: string, body: Body) returns (r: Response)
      requires Valid()
      modifies this, counters
      ensures Valid()
      ensures UpdateEnrollmentDoes(user, enrollmentId, body, old(View()), old(counters.values), r, View(), counters.values)
    {
      var date := Get(body, "enrollmentDate");
      if date == Nil {
        return Reply(400, "Enrollment date is required");
      }
      match ParseInt(enrollmentId)
      case None =>
        return Unhandled(ValueError);
      case Some(eid) =>
        match FindFirst(enrollments, EnrollmentIdIs(eid))
        case None =>
          return Reply(404, "Enrollment not found");
        case Some(i) =>
          if !MayTouch(user, enrollments[i]) {
            return Reply(403, "Access forbidden: Cannot update other user's enrollment");
          }
          ReviseEnrollment(i, date);
          r := Reply(200, "Enrollment updated");
    }

    /** `create_assessment`. The course id is converted with `int()` only
        while the document is built, after the `assessment_id` counter has
        moved on: a malformed course id uses up an id and inserts nothing. */
    method CreateAssessment(user: User, body: Body) returns (r: Response)
      requires Valid()
      modifies this, counters
      ensures Valid()
      ensures CreateAssessmentDoes(body, old(View()), old(counters.values), r, View(), counters.values)
    {
      var courseId := Get(body, "courseId");
      var title := Get(body, "title");
      var kind := Get(body, "type");
      var questions := Get(body, "questions");
      if !Truthy(courseId) || !Truthy(title) || !Truthy(kind) || !Truthy(questions) {
        return Reply(400, "Course ID, title, type, and questions are required");
      }
      if !IsAssessmentType(kind) {
        return Reply(400, "Invalid assessment type");
      }
      var assessmentId := NextId("assessment_id");
      match ToInt(courseId)
      case ValueErr =>
        return Unhandled(ValueError);
      case TypeErr =>
        return Unhandled(TypeError);
      case Converted(cid) =>
        AddAssessment(Assessment(assessmentId, cid, title, kind, questions));
        r := Created(assessmentId, "Assessment created");
    }

    /** `update_assessment`: set the supplied fields on the assessment with
        that id, whichever instructor created it. */
    method UpdateAssessment(user: User, assessmentId: int, body: Body) returns (r: Response)
      requires Valid()
      modifies this, counters
      ensures Valid()
      ensures UpdateAssessmentDoes(assessmentId, body, old(View()), old(counters.values), r, View(), counters.values)
    {
      var update := AssessmentUpdate(body);
      match update
      case Refuse(response) =>
        return response;
      case Set(fields) =>
        if fields == map[] {
          return Reply(400, "No data provided for update");
        }
        match FindFirst(assessments, AssessmentIdIs(assessmentId))
        case None =>
          return Reply(404, "Assessment not found or you are not the instructor");
        case Some(i) =>
          ReviseAssessment(i, SetAssessment(assessments[i], fields));
          r := Reply(200, "Assessment updated");
    }

    /** `delete_assessment`: delete the assessment with that id, whichever
        instructor created it. */
    method DeleteAssessment(user: User, assessmentId: int) returns (r: Response)
      requires Valid()
      modifies this, counters
      ensures Valid()
      ensures DeleteAssessmentDoes(assessmentId, old(View()), old(counters.values), r, View(), counters.values)
    {
      match FindFirst(assessments, AssessmentIdIs(assessmentId))
      case None =>
        return Reply(404, "Assessment not found or you are not the instructor");
      case Some(i) =>
        RemoveAssessment(i);
        r := Reply(200, "Assessment deleted");
    }

    /** `create_payment`: the status defaults to `pending` and, unlike on
        update, is stored unchecked; `now` is the clock reading stored as
        the payment date. Only ValueError is caught around the two
        conversions. */
    method CreatePayment(user: User, body: Body, toFloat: Doc -> FloatConv, now: int) returns (r: Response)
      requires Valid()
      modifies this, counters
      ensures Valid()
      ensures CreatePaymentDoes(user, body, toFloat, now, old(View()), old(counters.values), r, View(), counters.values)
    {
      var courseId := Get(body, "courseId");
      var amount := Get(body, "amount");
      var status := GetOr(body, "status", StrDoc("pending"));
      if !Truthy(courseId) || amount == Nil {
        return Reply(400, "Course ID and amount are required");
      }
      var cid: int;
      match ToInt(courseId)
      case ValueErr =>
        return Reply(400, "Invalid course ID or amount format");
      case TypeErr =>
        return Unhandled(TypeError);
      case Converted(n) =>
        cid := n;
      var value: real;
      match toFloat(amount)
      case FloatValueErr =>
        return Reply(400, "Invalid course ID or amount format");
      case FloatTypeErr =>
        return Unhandled(TypeError);
      case FloatOk(x) =>
        value := x;
      if FindFirst(courses, CourseIdIs(cid)).None? {
        return Reply(404, "Course not found");
      }
      var paymentId := NextId("payment_id");
      AddPayment(Payment(paymentId, user.userId, cid, Atom(Float(value)), Atom(Date(now)), status));
      r := Created(paymentId, "Payment created");
    }

    /** `update_payment`: set the supplied amount (converted with `float`,
        only ValueError caught) and status (`completed` or `pending`) on
        the caller's own payment. */
    method UpdatePayment(user: User, paymentId: int, body: Body, toFloat: Doc -> FloatConv) returns (r: Response)
      requires Valid()
      modifies this, counters
      ensures Valid()
      ensures UpdatePaymentDoes(user, paymentId, body, toFloat, old(View()), old(counters.values), r, View(), counters.values)
    {
      var u := PaymentUpdate(body, toFloat);
      if u.Refuse? {
        return u.response;
      }
      match FindFirst(payments, PaymentOwnedBy(paymentId, user.userId))
      case None =>
        return Reply(404, "Payment not found or you are not authorized to update this payment");
      case Some(i) =>
        var p := payments[i];
        assert SetPayment(p, u.fields) == p.(
          amount := if Get(body, "amount") != Nil then Atom(Float(toFloat(Get(body, "amount")).r)) else p.amount,
          status := if Get(body, "status") != Nil then Get(body, "status") else p.status);
        RevisePayment(i, SetPayment(p, u.fields));
        r := Reply(200, "Payment updated");
    }

    /** `delete_payment`: delete the caller's own payment. */
    method DeletePayment(user: User, paymentId: int) returns (r: Response)
      requires Valid()
      modifies this, counters
      ensures Valid()
      ensures DeletePaymentDoes(user, paymentId, old(View()), old(counters.values), r, View(), counters.values)
    {
      match FindFirst(payments, PaymentOwnedBy(paymentId, user.userId))
      case None =>
        return Reply(404, "Payment not found or you are not authorized to delete this payment");
      case Some(i) =>
        RemovePayment(i);
        r := Reply(200, "Payment deleted");
    }
  }
}
