/**
 * The two route guards of server/middlewares/authMiddleware.js. Each decision
 * is a function of what the guard reads; `Exchange` is the request/response
 * pair the guard acts on: `req.auth`, the replies written with `res.json`, and
 * the number of times `next()` was called.
 *
 * `jwt.verify` is an input (its outcome, `TokenCheck`); `User.findById` is a
 * lookup in a map keyed by `_id`.
 */
module AuthMiddleware {
  import opened Wrappers
  import opened Http
  import opened UserModel
  import Auth

  const UNAUTHORIZED_ACCESS: string := "Unauthorized Access"
  /** The TypeError V8 throws for `req.auth.userId` when no earlier guard set `req.auth`. */
  const NO_AUTH_MESSAGE: string := "Cannot read properties of undefined (reading 'userId')"
  /** The TypeError V8 throws for `user.role` when `findById` found nothing. */
  const NO_USER_MESSAGE: string := "Cannot read properties of null (reading 'role')"

  /** A guard either lets the request through or answers it with a status and a body. */
  datatype Decision = Pass | Deny(status: int, reply: Reply)

  /**
   * `protectRoute` (authMiddleware.js:4-24): it passes a request only when its
   * token is present and verifies to claims with an id; that id is the one
   * the route then sees.
   */
  function RouteDecision(token: string, check: TokenCheck): (d: Decision)
    ensures d.Pass? <==> token != "" && check.Decoded? && check.id != ""
    ensures d.Deny? ==> d.status == 200 && !d.reply.success
    ensures token == "" ==> d == Deny(200, Reply(false, NOT_AUTHORIZED, false))
    ensures token != "" && check.Threw? ==> d == Deny(200, Reply(false, check.message, false))
    ensures token != "" && check.Decoded? && check.id == "" ==> d == Deny(200, Reply(false, NOT_AUTHORIZED, false))
  {
    if token == "" then Deny(200, Reply(false, NOT_AUTHORIZED, false))
    else match check
      case Threw(message) => Deny(200, Reply(false, message, false))
      case Decoded(id) => if id != "" then Pass else Deny(200, Reply(false, NOT_AUTHORIZED, false))
  }

  /**
   * `protectEducator` (authMiddleware.js:27-40): it passes only a request whose
   * authenticated user is on record with the role 'educator'; another role is
   * refused with 403, and a missing `req.auth` or record with 401.
   */
  function EducatorDecision(auth: Option<string>, users: map<string, User>): (d: Decision)
    ensures d.Pass? <==> auth.Some? && auth.value in users && users[auth.value].role == EDUCATOR_ROLE
    ensures auth.Some? && auth.value in users && users[auth.value].role != EDUCATOR_ROLE ==>
              d == Deny(403, Reply(false, UNAUTHORIZED_ACCESS, false))
    ensures auth.None? || auth.value !in users ==> d.Deny? && d.status == 401 && !d.reply.success
  {
    match auth
    case None => Deny(401, Reply(false, NO_AUTH_MESSAGE, false))
    case Some(userId) =>
      if userId !in users then Deny(401, Reply(false, NO_USER_MESSAGE, false))
      else if users[userId].role != EDUCATOR_ROLE then Deny(403, Reply(false, UNAUTHORIZED_ACCESS, false))
      else Pass
  }

  /** A record fresh from registration holds the default role, so the educator guard refuses it. */
  lemma NewUserIsRefusedAsEducator(id: string, name: string, email: string, password: string)
    ensures EducatorDecision(Some(id), map[id := NewUser(id, name, email, password)]) ==
            Deny(403, Reply(false, UNAUTHORIZED_ACCESS, false))
  {
    assert DEFAULT_ROLE[0] != EDUCATOR_ROLE[0];
  }

  /**
   * The educator routes run `protectRoute` then `protectEducator`: the request
   * reaches the route only when the token carries the id of an educator on record.
   */
  lemma EducatorChain(token: string, check: TokenCheck, users: map<string, User>)
    requires RouteDecision(token, check).Pass?
    ensures check.Decoded?
    ensures EducatorDecision(Some(check.id), users).Pass? <==>
              check.id in users && users[check.id].role == EDUCATOR_ROLE
  {
  }

  /**
   * `protectRoute` and the `isAuthenticated` handler behind it agree: a
   * request passes the guard exactly when the handler would answer success,
   * and a refused one gets the answer the handler would give.
   */
  lemma GuardAgreesWithIsAuthenticated(token: string, check: TokenCheck)
    ensures RouteDecision(token, check).Pass? <==> Auth.IsAuthenticated(token, check).success
    ensures RouteDecision(token, check).Deny? ==> RouteDecision(token, check).reply == Auth.IsAuthenticated(token, check)
  {
  }

  /** The request as the guards see and change it. */
  class Exchange {
    var auth: Option<string>                 // `req.auth.userId`, None while `req.auth` is unset
    var replies: seq<(int, Reply)>          // every `res.status(..).json(..)` so far
    var nextCalls: nat                      // how many times `next()` was called

    constructor ()
      ensures auth == None && replies == [] && nextCalls == 0
    {
      auth := None;
      replies := [];
      nextCalls := 0;
    }

    /** Apply a guard's decision: pass on with `next()`, or answer once. */
    method Settle(d: Decision)
      modifies this`replies, this`nextCalls
      ensures d.Pass? ==> nextCalls == old(nextCalls) + 1 && replies == old(replies)
      ensures d.Deny? ==> nextCalls == old(nextCalls) && replies == old(replies) + [(d.status, d.reply)]
    {
      match d
      case Pass => nextCalls := nextCalls + 1;
      case Deny(status, reply) => replies := replies + [(status, reply)];
    }

    /** `protectRoute`: on a pass `req.auth.userId` is set to the token's id before `next()`. */
    method ProtectRoute(token: string, check: TokenCheck)
      modifies this
      ensures var d := RouteDecision(token, check);
              && (d.Pass? ==> auth == Some(check.id) && nextCalls == old(nextCalls) + 1 && replies == old(replies))
              && (d.Deny? ==> auth == old(auth) && nextCalls == old(nextCalls) && replies == old(replies) + [(d.status, d.reply)])
    {
      var d := RouteDecision(token, check);
      if d.Pass? {
        auth := Some(check.id);
      }
      Settle(d);
    }

    /** `protectEducator`: reads `req.auth` and the user's role, writes nothing but the answer. */
    method ProtectEducator(users: map<string, User>)
      modifies this`replies, this`nextCalls
      ensures var d := EducatorDecision(auth, users);
              && (d.Pass? ==> nextCalls == old(nextCalls) + 1 && replies == old(replies))
              && (d.Deny? ==> nextCalls == old(nextCalls) && replies == old(replies) + [(d.status, d.reply)])
    {
      Settle(EducatorDecision(auth, users));
    }
  }
}
