# Course marketplace backend: a verified model of its decision logic

The system is a Flask and MongoDB backend for an online course marketplace.
Users sign up as students or instructors and log in for a signed token. With
that token, instructors manage courses and assessments, and students enrol
in courses and record payments. This project models in Dafny the part of
`app.py` that decides things:

- the id allocator `get_next_id`;
- the token gate `token_required` and the role gates `instructor_required`
  and `student_required` stacked on it;
- `serialize_document`;
- the decision logic of login, signup and the handlers that create, update
  and delete courses, enrolments, assessments and payments, run against an
  in-memory store.

Modules, one per file:

- `Wrappers` (wrappers.dfy): `Option`.
- `Text` (text.dfy): Python's `str.split(" ")`, `str(n)` and `int(s)` on
  strings. `int(s)` strips tab, line feed, vertical tab, form feed, carriage return
  and space, takes an optional sign and
  accepts single underscores between digits. The module proves that split
  and join invert each other, and that `int(str(n)) == n`.
- `Documents` (documents.dfy): JSON-like values (`Doc`): ObjectIds,
  dictionaries, lists and leaves. It gives Python truthiness, `int(x)` on
  any value with its ValueError and TypeError outcomes, and
  `serialize_document`.
- `Sequence` (sequence.dfy): the counters collection as a class
  `Counters` whose `NextId` is `get_next_id`. It also defines what a run of
  allocations returns and proves that run's properties.
- `Records` (records.dfy): the stored documents of each collection. It also
  holds the request body, the responses, the filters the handlers pass to
  the store, and `find_one` / `delete_one` over a collection in natural
  order.
- `Auth` (auth.dfy): the gates and the login decision.
- `Store` (store.dfy): a class `Db` holding the five collections and the
  counters. Each handler is a method whose contract is a predicate such as
  `DeletePaymentDoes`. The predicate gives the response and the new
  collections and counters for every branch, in terms of the old ones.
- `Routes` (routes.dfy): which decorators each route carries and how a
  request gets through its gates to its handler (`Served`, `Handled`). It
  proves the round trip signup → login → gate. It also proves three things:
  a student's request never touches another user's enrolment; no request
  touches another instructor's course or another user's payment; and a
  failed request changes no collection.

Every store method keeps one invariant, `Store.Consistent`:

- within each collection ids are distinct, and none exceeds its counter;
- no two users share an email;
- no student is enrolled twice in one course.

So a newly allocated id is always fresh, and a successful enrolment never
duplicates a (user, course) pair.

How the source's behaviours are modelled:

- **Exceptions.** An exception the source does not catch becomes the
  response `Unhandled(fault)`, which Flask answers with a 500. Examples:
  - the `IndexError` of a header that holds no space;
  - the `KeyError` of a token without `userId`;
  - `int()` on a malformed path segment;
  - the `TypeError` of `int()` or `float()` on a list.
- **Header without a space.** The model follows the code. That header
  raises `IndexError`, which `token_required` does not catch, so the answer
  is a 500, not the 401 "Invalid token!" one might expect.
- **Token scheme.** The scheme word before the token is never checked.
- **Unreachable checks.** The second "not found" checks in
  `delete_enrollment` and `update_enrollment` (app.py:316-317, 344-345)
  cannot fire in a sequential model: the same document was found just
  before. The model therefore has no such branch.
- **Collections.** Each collection is a sequence in natural order:
  - `find_one` is the first match (`Records.FindFirst`);
  - `update_one` and `delete_one` act on that same first match.
- **The environment.** What the environment provides is a parameter:
  - the verdict of `jwt.decode` on a token: expired, invalid, or claims
    with an optional `userId`;
  - the bytes `bcrypt.hashpw` returns, and the verdict of `bcrypt.checkpw`;
  - the outcome of `float(x)`;
  - the clock reading.

## Model

| member | source | states |
|---|---|---|
| `Sequence.Counters.NextId` | app.py:15-22 | returns the named counter's previous value plus one (1 for a counter never used); stores that value and leaves every other counter as it was |
| `Sequence.Counters.NextIds` | app.py:15-22 | a run of `get_next_id` calls returns exactly the values `Issued` describes, and leaves each counter moved on by the number of calls naming it |
| `Sequence.Issued` | app.py:15-22 | the values a run of allocations returns, one per call (their values are given by `IssuedAt`) |
| `Sequence.IssuedAt` | app.py:15-22 | in any run of allocations, the i-th returns its counter's starting value + 1 + the number of earlier allocations from the same counter |
| `Sequence.IssuedIncreasing` | app.py:15-22 | later allocations from one counter return strictly larger values, so no value is returned twice for a name |
| `Sequence.IssuedFromFresh` | app.py:15-22 | a counter that did not exist yields 1, 2, 3, …: its first allocation is 1 |
| `Sequence.IssuedConsecutive` | app.py:15-22 | two allocations from one counter with none from it between differ by exactly one |
| `Text.Split` | app.py:32 | `str.split` on a one-character separator: at least one piece, and no piece contains the separator |
| `Text.JoinSplit` | app.py:32 | joining the pieces with the separator gives back the string |
| `Text.SplitJoin` | app.py:32 | splitting a join of separator-free pieces gives back those pieces |
| `Text.SecondPieceIffSeparator` | app.py:32 | `split(" ")[1]` exists exactly when the header contains a space |
| `Text.Show` | app.py:110 | `str(n)`: a non-negative number is written as digits denoting it; a negative one as a minus sign followed by digits denoting its magnitude |
| `Text.ParseInt` | app.py:187 | `int(s)` on a string succeeds only when the text, with surrounding tabs, line feeds, vertical tabs, form feeds, carriage returns and spaces removed, ends in a digit and starts with a digit or a sign, and gives a negative number only after a minus sign |
| `Text.ParsePlain` | app.py:187 | `int(s)` of a run of decimal digits is the number they denote |
| `Text.ParseShow` | app.py:110 | `int(str(n)) == n` for every integer, negative ones included |
| `Text.ParseMinusMagnitude` | app.py:110 | `int` reads a minus sign followed by digits denoting `-n` as `n` |
| `Documents.Truncate` | app.py:275 | `int()` of a float truncates toward zero, on both signs |
| `Documents.Truthy` | app.py:73 | Python truthiness: a value is falsy exactly when it is `None`, `False`, `0`, `0.0`, the empty string, the empty dictionary or the empty list |
| `Documents.ToInt` | app.py:34 | `int(x)` raises TypeError exactly for values other than numbers, booleans and strings; ValueError only for a string |
| `Documents.ToIntShow` | app.py:34 | the claim `str(userId)` that login writes reads back as that userId |
| `Documents.Serialize` | app.py:477-485 | no ObjectId in the output; an ObjectId becomes its string; other leaves are kept; a dictionary stays a dictionary with the same keys in the same order, each value serialized in turn; a list stays a list of the same length, each item serialized in turn |
| `Documents.SerializeAt` | app.py:477-485 | a path of positions leads to a node of the serialized tree exactly when it leads to one of the original, and there it leads to that node serialized |
| `Documents.SerializeEverywhere` | app.py:477-485 | at every depth, an ObjectId becomes its string, every other leaf is kept, a dictionary keeps its keys in order and a list its length |
| `Documents.SerializeKeepsClean` | app.py:477-485 | a document without ObjectIds is returned unchanged |
| `Documents.SerializeIdempotent` | app.py:477-485 | serializing twice equals serializing once |
| `Records.FindFirst` | app.py:76 | `find_one`: the position of a match with no match before it, or none exactly when nothing matches |
| `Records.RemoveAt` | app.py:197 | `delete_one`: the collection minus that document, the others kept in order |
| `Auth.TokenRequired` | app.py:24-43 | missing or empty header → 403 "Token is missing!" (iff); no space → uncaught IndexError; expired → 401 "Token has expired!"; invalid, or an id no user has → 401 "Invalid token!"; no `userId` claim → KeyError; a malformed claim → ValueError/TypeError; otherwise proceeds with the first user holding that id |
| `Auth.InstructorRequired` | app.py:46-52 | passes iff the role is exactly the string `instructor`; otherwise 403 "Access forbidden: Instructors only!" |
| `Auth.StudentRequired` | app.py:55-61 | passes iff the role is exactly the string `student`; otherwise 403 "Access forbidden: Students only!" |
| `Auth.Gate` | app.py:116-118 | the token gate runs first and its rejection is final; the request proceeds iff the token resolves to a user whose role the route admits, with that user; otherwise the role gate's 403 |
| `Auth.Login` | app.py:93-114 | 400 without a truthy email and password; 401 when no user has the email; for the first user with that email: AttributeError for a non-string password, 401 when bcrypt rejects it, and otherwise a token carrying that user's id written with `str`; conversely a token or a fault arises only in those cases |
| `Auth.CredentialOfSchemeAndToken` | app.py:32 | a header of any scheme word, a space and a token presents that token: the scheme word is not checked |
| `Auth.IssuedTokenAuthenticates` | app.py:106-114 | when ids are distinct, a token carrying the claim login issued, presented under any scheme word, resolves to the very user who logged in |
| `Store.CourseUpdate` | app.py:172-182 | `update_fields` holds exactly the supplied, non-None course fields |
| `Store.AssessmentUpdate` | app.py:403-411 | refuses with 400 "Invalid assessment type" iff a type other than `quiz`/`test` is supplied; otherwise exactly the supplied, non-None fields |
| `Store.PaymentUpdate` | app.py:561-575 | refuses with the source's response for each failed check (amount `float` rejects: 400 or TypeError fault; bad status: 400; neither supplied: 400), and proceeds exactly when every check passes, with the amount as the float it converts to and the status as given, and no other field |
| `Store.SetCourse` | app.py:187 | `$set` on a course never changes its id or its owner, and an empty set of fields changes nothing |
| `Store.SetAssessment` | app.py:416 | `$set` on an assessment never changes its id or its course, and an empty set of fields changes nothing |
| `Store.SetPayment` | app.py:577 | `$set` on a payment never changes its id, payer, course or date, and an empty set of fields changes nothing |
| `Store.Db.NextId` | app.py:80 | `get_next_id` inside the store: the counter moves on and the store stays consistent |
| `Store.Db.AddUser` | app.py:82-89 | inserts a user whose id is within bound and whose id and email no one holds, keeping the store consistent |
| `Store.Db.AddCourse` | app.py:132-140 | inserts a course with a fresh id, keeping the store consistent |
| `Store.Db.AddEnrollment` | app.py:292-297 | inserts an enrolment with a fresh id for a (user, course) pair not yet enrolled, keeping the store consistent |
| `Store.Db.AddAssessment` | app.py:368-374 | inserts an assessment with a fresh id, keeping the store consistent |
| `Store.Db.AddPayment` | app.py:526-533 | inserts a payment with a fresh id, keeping the store consistent |
| `Store.Db.ReviseCourse` | app.py:187 | `update_one` on one course, keeping its id |
| `Store.Db.RemoveCourse` | app.py:197 | `delete_one` on one course |
| `Store.Db.ReviseEnrollment` | app.py:340-343 | `update_one` setting one enrolment's date only |
| `Store.Db.RemoveEnrollment` | app.py:315 | `delete_one` on one enrolment; no pair becomes duplicated |
| `Store.Db.ReviseAssessment` | app.py:416 | `update_one` on one assessment, keeping its id |
| `Store.Db.RemoveAssessment` | app.py:428 | `delete_one` on one assessment |
| `Store.Db.RevisePayment` | app.py:577 | `update_one` on one payment, keeping its id |
| `Store.Db.RemovePayment` | app.py:588 | `delete_one` on one payment |
| `Store.Db.Signup` | app.py:64-91 | a falsy username, email or password → 400, nothing touched; an existing email → 400, no counter consumed, no user inserted; a non-string password → AttributeError, nothing touched; otherwise exactly one `user_id` allocated, fresh, and one user inserted with role defaulting to `student`, any supplied role kept |
| `Store.Db.CreateCourse` | app.py:116-142 | a missing field → 400, nothing touched (a price of 0 accepted); otherwise one `course_id` allocated and a course owned by the caller inserted |
| `Store.Db.UpdateCourse` | app.py:161-191 | no supplied field → 400 before the id is read; malformed id → ValueError; no course with that id owned by the caller → 404, nothing touched; otherwise exactly that course gets the supplied fields |
| `Store.Db.DeleteCourse` | app.py:193-201 | malformed id → ValueError; no such course owned by the caller → 404, nothing touched; otherwise exactly that course is removed |
| `Store.Db.EnrollCourse` | app.py:262-299 | no `courseId` → 400; unparsable → 400; a list or object → TypeError; no such course → 404; already enrolled → 400 with no id consumed; otherwise one `enrollment_id` allocated and the enrolment appended with the clock reading |
| `Store.Db.DeleteEnrollment` | app.py:302-319 | no such enrolment → 404; a student deleting another user's → 403, nothing touched; any other caller deletes exactly that enrolment |
| `Store.Db.UpdateEnrollment` | app.py:323-347 | no date → 400 before any lookup; malformed id → ValueError; no such enrolment → 404; a student updating another user's → 403, nothing touched; otherwise only that enrolment's date changes |
| `Store.Db.CreateAssessment` | app.py:350-376 | a missing field → 400; a type other than `quiz`/`test` → 400; otherwise an `assessment_id` is consumed, and a malformed course id then faults with nothing inserted, while a good one inserts the assessment |
| `Store.Db.UpdateAssessment` | app.py:394-420 | an invalid type → 400; no supplied field → 400; no assessment with that id → 404; otherwise that assessment, whoever created it, gets the supplied fields |
| `Store.Db.DeleteAssessment` | app.py:423-431 | no assessment with that id → 404; otherwise it is removed, whoever created it |
| `Store.Db.CreatePayment` | app.py:502-535 | a falsy course id or missing amount → 400; a ValueError from either conversion → 400, a TypeError → fault; no such course → 404; otherwise one `payment_id` allocated and a payment inserted with any status, `pending` by default |
| `Store.Db.UpdatePayment` | app.py:555-581 | an amount `float` rejects → 400 (ValueError) or fault (TypeError); a status other than `completed`/`pending` → 400; nothing supplied → 400; no payment with that id owned by the caller → 404; otherwise only that payment's supplied fields change |
| `Store.Db.DeletePayment` | app.py:584-592 | no payment with that id owned by the caller → 404, nothing touched; otherwise exactly that payment is removed |
| `Routes.Serve` | app.py:24-61 | signup and login go straight to their handlers (login changing nothing); a protected request its gates reject gets the gate's response with nothing changed; one they admit gets exactly what its route's handler does, run with the user the gates resolved; the store stays consistent |
| `Routes.Dispatch` | app.py:116-592 | a protected request reaches its own route's handler, run with the given user: its response and the new store are exactly that handler's, and the store stays consistent |
| `Routes.OthersEnrollmentsKept` | app.py:302-347 | no request a student makes removes or changes another user's enrolment |
| `Routes.OthersCoursesKept` | app.py:161-201 | no request removes or changes a course another instructor owns |
| `Routes.OthersPaymentsKept` | app.py:555-592 | no request removes or changes another user's payment |
| `Routes.FailureChangesNothing` | app.py:24-592 | for request values the store can encode, a request answered with anything but 200 or 201 leaves every collection as it was and moves no counter, except that a create-assessment request answered with an unhandled fault has advanced `assessment_id` by exactly one |
| `Routes.HandlerFailureChangesNothing` | app.py:116-592 | the same for every handler behind the gates, for request values the store can encode |
| `Routes.GuardFor` | app.py:64-588 | among the modelled routes, only signup and login carry no gate, and only the two enrolment-changing routes carry the token gate without a role gate |
| `Routes.GuardedRoutesAdmitOnlyTheirRole` | app.py:116-118 | a request reaching an instructor-only handler comes from an instructor, one reaching a student-only handler from a student |
| `Routes.LoginAfterSignup` | app.py:64-114 | a user signup inserted with a new email can log in with its password and is issued its own id |
| `Routes.SignupLoginAuthenticates` | app.py:24-114 | the token login issues for a newly signed-up user resolves, through the gate, to that user |

## Left out

- HTTP plumbing: routing, request parsing, `jsonify`, `print` and `app.run`. A request arrives as a route constructor of `Routes.Request`, and a body as a map from field names to values. A body that is not a JSON object is not modelled.
- JWT signing and signature checking, and the expiry comparison made inside the token library. These arrive as the `decode` verdict.
- bcrypt hashing and verification. These arrive as the stored hash and the `checkpw` verdict. Salt randomness is not modelled.
- The clock is not modelled. It arrives as `now` and is stored as a date leaf.
- Floating-point parsing in `float(x)` is not modelled. Its outcome arrives as `toFloat`.
- The MongoDB driver, concurrency and the atomicity of `find_one_and_update` are not modelled. Requests run one at a time against the store.
- The model compares stored values by plain equality. Mongo's own matching is not modelled: numeric equality across int and float, matching against array elements, and query operators inside a supplied value (for instance an email given as an object).
- `search_courses`, the read-only GET handlers and `get_all_student_assessments` are not modelled. The first is float price-range filtering; the GET handlers are a lookup and a projection.
- `submit_assessment` is not modelled. Its score is a fixed placeholder, so there is no logic to verify.
- `read_payment` is not modelled as a working handler. It is declared without the user argument `token_required` passes, so it cannot run as written.
- Non-finite floats are not modelled: a float value is a real number. JSON bodies may carry `NaN` or `Infinity`; `int()` of `Infinity` raises OverflowError, which nothing catches (a 500 at app.py:275 and app.py:515), and `int()` of `NaN` raises ValueError.
- `Text.ParseInt` only accepts those six ASCII whitespace characters and ASCII digits. Python's `int()` also accepts the Unicode whitespace and decimal digits outside ASCII.
- `Text.ParseInt` accepts any number of digits. From Python 3.11 on, `int()` raises ValueError for more than 4300 digits, sign, whitespace and underscores not counted; for a body id such as `courseId` that is a 400 in the source where the model looks the id up. The limit depends on the interpreter version and setting, so it is left out.
- `Text.Show` writes any integer. From Python 3.11 on, `str(n)` raises ValueError above 4300 digits. The model's ids come from counters that grow by one, so such an id is not reached.
- Integers outside the 64-bit range are not modelled as faults. The BSON encoder raises OverflowError for any integer outside int64 in a filter, an inserted document or a `$set` value, and nothing catches it, so the source answers 500.
  - A lookup such as `/api/payments/99999999999999999999`, or an enrolment or payment whose `courseId` is `1e19`, is a 500 in the source; the model looks the id up and answers 404 "... not found".
  - An inserted value such as `"phone": 100000000000000000000` in signup, `price` in create_course, an integer inside `questions` in create_assessment or `status` in create_payment is a 500 in the source after `get_next_id` has moved its counter (app.py:80, app.py:130, app.py:366, app.py:524), and no record is stored; the model stores the record and answers 201.
  - Such a value in a `$set` (`title` in update_course at app.py:187, `enrollmentDate` in update_enrollment at app.py:340, `questions` in update_assessment at app.py:416) is a 500 with the store unchanged; the model applies the `$set` and answers 200.
  - `Routes.FailureChangesNothing` and `Routes.HandlerFailureChangesNothing` therefore hold for request values the store can encode; the four creates above move a counter on such a 500 as well.
- bcrypt's 72-byte password limit is not modelled. From bcrypt 5.0 on, `hashpw` raises ValueError for a password longer than 72 bytes, a 500 at app.py:79 in signup; the model hashes any password and answers 201.
- Lone surrogates are not modelled. Python's JSON decoder accepts a string such as `"\ud800"`, and `password.encode('utf-8')` then raises UnicodeEncodeError, a 500 (app.py:79, app.py:106). A Dafny string cannot hold such a character, so the model cannot represent that input.
