/**
 * The Stripe webhook reconciler of server/controllers/webhooks.js: a
 * `payment_intent.succeeded` event enrols the buyer and completes the
 * purchase, a `payment_intent.payment_failed` event fails it, and any other
 * event is only acknowledged.
 *
 * The event is one whose signature already checked out. The result of
 * `checkout.sessions.list({ payment_intent })` is an input, as the list of
 * the sessions' `purchaseId` metadata. Purchase, Course and User records are
 * held in three maps keyed by `_id`. The code appends without looking at what
 * is there and overwrites the status without looking at the old one, and so
 * does the model.
 */
module Webhooks {
  import opened UserModel

  const PAYMENT_SUCCEEDED: string := "payment_intent.succeeded"
  const PAYMENT_FAILED: string := "payment_intent.payment_failed"

  datatype PurchaseStatus = Pending | Completed | Failed

  datatype Purchase = Purchase(userId: string, courseId: string, status: PurchaseStatus)

  /** The part of a Course record the reconciler touches. */
  datatype Course = Course(enrolledStudents: seq<string>)

  /** A verified Stripe event: its `type` and the id of its payment intent. */
  datatype Event = Event(eventType: string, paymentIntentId: string)

  /** One checkout session returned for the payment intent: its `metadata.purchaseId`. */
  datatype CheckoutSession = CheckoutSession(purchaseId: string)

  datatype Db = Db(purchases: map<string, Purchase>, users: map<string, User>, courses: map<string, Course>)

  /**
   * What the request ends in: `{ recieved: true }` (spelled as the code spells
   * it), or a TypeError thrown before any write because the session list is
   * empty or names no stored purchase, which leaves the request unanswered.
   */
  datatype Answer = Received | Crashed

  datatype WebhookOutcome = WebhookOutcome(db: Db, answer: Answer)

  /** Every purchase names a user and a course that exist. */
  predicate Consistent(db: Db)
  {
    forall p :: p in db.purchases ==>
      db.purchases[p].userId in db.users && db.purchases[p].courseId in db.courses
  }

  /** The purchase an event is about: the one named by the first checkout session, if it is stored. */
  predicate Locates(db: Db, sessions: seq<CheckoutSession>)
  {
    |sessions| > 0 && sessions[0].purchaseId in db.purchases
  }

  /** `stripeWebhooks` (webhooks.js:28-69). */
  function Reconcile(db: Db, event: Event, sessions: seq<CheckoutSession>): (r: WebhookOutcome)
    requires Consistent(db)
    ensures Consistent(r.db)
    ensures r.db.purchases.Keys == db.purchases.Keys && r.db.users.Keys == db.users.Keys
    ensures r.db.courses.Keys == db.courses.Keys
    ensures r.answer == Crashed <==>
              (event.eventType == PAYMENT_SUCCEEDED || event.eventType == PAYMENT_FAILED) && !Locates(db, sessions)
    ensures r.answer == Crashed ==> r.db == db
    ensures event.eventType != PAYMENT_SUCCEEDED && event.eventType != PAYMENT_FAILED ==>
              r == WebhookOutcome(db, Received)
    ensures event.eventType == PAYMENT_FAILED && Locates(db, sessions) ==>
              var id := sessions[0].purchaseId;
              r.db == db.(purchases := db.purchases[id := db.purchases[id].(status := Failed)])
    ensures event.eventType == PAYMENT_SUCCEEDED && Locates(db, sessions) ==>
              var id := sessions[0].purchaseId;
              var p := db.purchases[id];
              && r.db.purchases == db.purchases[id := p.(status := Completed)]
              && r.db.courses == db.courses[p.courseId := Course(db.courses[p.courseId].enrolledStudents + [p.userId])]
              && r.db.users[p.userId] == db.users[p.userId].(enrolledCourses := db.users[p.userId].enrolledCourses + [p.courseId])
              && (forall u :: u in db.users && u != p.userId ==> r.db.users[u] == db.users[u])
  {
    if event.eventType == PAYMENT_SUCCEEDED then
      if !Locates(db, sessions) then WebhookOutcome(db, Crashed)
      else
        var id := sessions[0].purchaseId;
        var p := db.purchases[id];
        var course := db.courses[p.courseId];
        var user := db.users[p.userId];
        WebhookOutcome(
          Db(db.purchases[id := p.(status := Completed)],
             db.users[p.userId := user.(enrolledCourses := user.enrolledCourses + [p.courseId])],
             db.courses[p.courseId := course.(enrolledStudents := course.enrolledStudents + [p.userId])]),
          Received)
    else if event.eventType == PAYMENT_FAILED then
      if !Locates(db, sessions) then WebhookOutcome(db, Crashed)
      else
        var id := sessions[0].purchaseId;
        WebhookOutcome(db.(purchases := db.purchases[id := db.purchases[id].(status := Failed)]), Received)
    else
      WebhookOutcome(db, Received)
  }

  /** How many times `x` occurs in `s`. */
  function Occurrences(s: seq<string>, x: string): (n: nat)
    ensures n <= |s|
    ensures n == 0 <==> x !in s
  {
    if s == [] then 0 else (if s[0] == x then 1 else 0) + Occurrences(s[1..], x)
  }

  lemma {:induction false} OccurrencesAppend(s: seq<string>, y: string, x: string)
    ensures Occurrences(s + [y], x) == Occurrences(s, x) + (if y == x then 1 else 0)
  {
    if s != [] {
      assert (s + [y])[1..] == s[1..] + [y];
      OccurrencesAppend(s[1..], y, x);
    }
  }

  /**
   * No idempotency: delivering the same succeeded event a second time enrols
   * the buyer a second time, so the user appears twice among the course's
   * students and the course twice among the user's courses.
   */
  lemma RedeliveryEnrolsTwice(db: Db, event: Event, sessions: seq<CheckoutSession>)
    requires Consistent(db) && event.eventType == PAYMENT_SUCCEEDED && Locates(db, sessions)
    ensures var once := Reconcile(db, event, sessions).db;
            var twice := Reconcile(once, event, sessions).db;
            var p := db.purchases[sessions[0].purchaseId];
            && twice.courses[p.courseId].enrolledStudents == db.courses[p.courseId].enrolledStudents + [p.userId, p.userId]
            && twice.users[p.userId].enrolledCourses == db.users[p.userId].enrolledCourses + [p.courseId, p.courseId]
            && Occurrences(twice.courses[p.courseId].enrolledStudents, p.userId)
               == Occurrences(db.courses[p.courseId].enrolledStudents, p.userId) + 2
            && twice.purchases[sessions[0].purchaseId].status == Completed
  {
    var once := Reconcile(db, event, sessions).db;
    var p := db.purchases[sessions[0].purchaseId];
    assert once.purchases[sessions[0].purchaseId] == p.(status := Completed);
    var before := db.courses[p.courseId].enrolledStudents;
    assert before + [p.userId] + [p.userId] == before + [p.userId, p.userId];
    var userBefore := db.users[p.userId].enrolledCourses;
    assert userBefore + [p.courseId] + [p.courseId] == userBefore + [p.courseId, p.courseId];
    OccurrencesAppend(before, p.userId, p.userId);
    OccurrencesAppend(before + [p.userId], p.userId, p.userId);
  }

  /**
   * No terminal state: a failed event arriving after the purchase completed
   * marks it failed, while the enrolment the success made stays.
   */
  lemma FailureAfterCompletion(db: Db, succeeded: Event, failed: Event, sessions: seq<CheckoutSession>)
    requires Consistent(db) && Locates(db, sessions)
    requires succeeded.eventType == PAYMENT_SUCCEEDED && failed.eventType == PAYMENT_FAILED
    ensures var done := Reconcile(db, succeeded, sessions).db;
            var undone := Reconcile(done, failed, sessions).db;
            && undone.purchases[sessions[0].purchaseId].status == Failed
            && undone.courses == done.courses && undone.users == done.users
  {
  }

  /** Fixing the order of delivery, a success after a failure completes the purchase. */
  lemma CompletionAfterFailure(db: Db, succeeded: Event, failed: Event, sessions: seq<CheckoutSession>)
    requires Consistent(db) && Locates(db, sessions)
    requires succeeded.eventType == PAYMENT_SUCCEEDED && failed.eventType == PAYMENT_FAILED
    ensures var undone := Reconcile(db, failed, sessions).db;
            Reconcile(undone, succeeded, sessions).db.purchases[sessions[0].purchaseId].status == Completed
  {
  }

  /** The collections the reconciler reads and writes. */
  class PaymentStore {
    var purchases: map<string, Purchase>
    var users: map<string, User>
    var courses: map<string, Course>

    ghost predicate Valid()
      reads this
    {
      Consistent(Db(purchases, users, courses))
    }

    function State(): Db
      reads this
    {
      Db(purchases, users, courses)
    }

    constructor (purchases: map<string, Purchase>, users: map<string, User>, courses: map<string, Course>)
      requires Consistent(Db(purchases, users, courses))
      ensures Valid() && State() == Db(purchases, users, courses)
    {
      this.purchases := purchases;
      this.users := users;
      this.courses := courses;
    }

    /** `stripeWebhooks`: the pushes and the status write happen one `save()` at a time. */
    method HandleEvent(event: Event, sessions: seq<CheckoutSession>) returns (answer: Answer)
      requires Valid()
      modifies this
      ensures Valid()
      ensures var o := Reconcile(old(State()), event, sessions); State() == o.db && answer == o.answer
    {
      if event.eventType == PAYMENT_SUCCEEDED {
        if |sessions| == 0 || sessions[0].purchaseId !in purchases {
          return Crashed;
        }
        var purchaseId := sessions[0].purchaseId;
        var purchaseData := purchases[purchaseId];
        var userData := users[purchaseData.userId];
        var courseData := courses[purchaseData.courseId];
        courseData := courseData.(enrolledStudents := courseData.enrolledStudents + [purchaseData.userId]);
        courses := courses[purchaseData.courseId := courseData];
        userData := userData.(enrolledCourses := userData.enrolledCourses + [purchaseData.courseId]);
        users := users[purchaseData.userId := userData];
        purchaseData := purchaseData.(status := Completed);
        purchases := purchases[purchaseId := purchaseData];
      } else if event.eventType == PAYMENT_FAILED {
        if |sessions| == 0 || sessions[0].purchaseId !in purchases {
          return Crashed;
        }
        var purchaseId := sessions[0].purchaseId;
        var purchaseData := purchases[purchaseId];
        purchaseData := purchaseData.(status := Failed);
        purchases := purchases[purchaseId := purchaseData];
      }
      answer := Received;
    }
  }
}
