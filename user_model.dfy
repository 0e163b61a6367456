/**
 * The User record of server/models/User.js: the fields the controllers read
 * and write, the schema's required fields and the defaults a new record gets.
 * An ObjectId is an opaque string here; `timestamps` are left out.
 */
module UserModel {
  import opened OtpCode

  const DEFAULT_ROLE: string := "student"
  const EDUCATOR_ROLE: string := "educator"

  datatype User = User(
    id: string,
    name: string,
    email: string,
    password: string,           // the stored bcrypt hash
    role: string,
    isAccountVerified: bool,
    verifyOtp: string,          // '' when no verification code is pending
    verifyOtpExpireAt: int,     // milliseconds since the epoch, 0 when none
    resetOtp: string,           // '' when no reset code is pending
    resetOtpExpireAt: int,
    enrolledCourses: seq<string>)

  /** The schema's `required: true` fields: a record lacking one is refused by `save()`. */
  predicate SatisfiesSchema(u: User)
  {
    u.name != "" && u.email != "" && u.password != ""
  }

  /** A stored code is either absent or one the controllers generate. */
  predicate WellFormedCode(code: string)
  {
    code == "" || IsOtpCode(code)
  }

  /**
   * `new User({ name, email, password })`: every field the caller does not
   * give takes the schema default, so the record is an unverified student with
   * no pending code of either kind and no enrolment.
   */
  function NewUser(id: string, name: string, email: string, password: string): (u: User)
    ensures u.id == id && u.name == name && u.email == email && u.password == password
    ensures u.role == DEFAULT_ROLE && !u.isAccountVerified
    ensures u.verifyOtp == "" && u.verifyOtpExpireAt == 0
    ensures u.resetOtp == "" && u.resetOtpExpireAt == 0
    ensures u.enrolledCourses == []
    ensures SatisfiesSchema(u) <==> name != "" && email != "" && password != ""
    ensures WellFormedCode(u.verifyOtp) && WellFormedCode(u.resetOtp)
  {
    User(id, name, email, password, DEFAULT_ROLE, false, "", 0, "", 0, [])
  }
}
