/** The account handlers: registration, code verification, and the
    forgotten-password pair. Each is a short run of early-return checks
    followed by at most one change to the `users` collection. The password
    hash, the random draw, the clock and whether the mail went out are
    parameters. */
module Account {
  import opened Wrappers
  import opened Records
  import opened Http
  import opened UserSchema
  import opened Otp
  import opened Text

  datatype Reply = Reply(status: nat, message: string)

  /** What a handler answers and the collection it leaves. */
  type Outcome = (Reply, seq<User>)

  const MethodRefused := "METHOD NOT ALLOWED"
  const AllFieldsRequired := "ALL FIELDS ARE REQUIRED"
  const AlreadyRegistered := " ALREADY REGISTERED. TRY LOGGING IN."
  const SendFailed := "FAILED TO SEND OTP. PLEASE CHECK YOUR EMAIL ADDRESS."
  const InternalError := "INTERNAL SERVER ERROR. PLEASE TRY AGAIN."
  const OtpSent := "OTP SENT! CHECK YOUR INBOX \U{1F525}"
  const EmailAndOtpRequired := "EMAIL AND OTP ARE REQUIRED"
  const NotRegistered := "USER NOT FOUND. PLEASE REGISTER AGAIN."
  const AlreadyVerified := "ACCOUNT ALREADY VERIFIED. PLEASE LOGIN."
  const WrongCode := "INVALID HEAT CODE. DOUBLE CHECK YOUR INBOX."
  const CodeExpired := "CODE EXPIRED. PLEASE REQUEST A NEW ONE."
  const Verified := "IDENTITY VERIFIED. WELCOME TO THE CREW! \U{1F525}"
  const EmailRequired := "EMAIL IS REQUIRED"
  const MaybeSent := "IF EMAIL EXISTS, OTP WILL BE SENT"
  const NotVerified := "ACCOUNT NOT VERIFIED. PLEASE REGISTER AGAIN."
  const ResetSent := "OTP SENT TO YOUR EMAIL FOR PASSWORD RESET"
  const UserNotFound := "USER NOT FOUND"
  const InvalidOtp := "INVALID OTP"
  const OtpExpired := "OTP EXPIRED. PLEASE REQUEST A NEW ONE."
  const PasswordReset := "PASSWORD RESET SUCCESSFUL! PLEASE LOGIN."

  /** ---------------------------------------------------------------------
      Registration.
      --------------------------------------------------------------------- */

  datatype RegisterBody = RegisterBody(
    name: Option<string>,
    email: Option<string>,
    phone: Option<string>,
    password: Option<string>)

  predicate Complete(body: RegisterBody) {
    Truthy(body.name) && Truthy(body.email) && Truthy(body.password) && Truthy(body.phone)
  }

  /** What `User.create` is handed: the normalised email, the hash, the
      code and its expiry, and unverified. */
  function RegisterInput(body: RegisterBody, otp: string, expires: int, hash: string -> string): UserInput
    requires Complete(body)
  {
    UserInput(body.name, Some(NormalizeEmail(body.email.value)), body.phone, Some(hash(body.password.value)),
              None, Some(false), Some(otp), Some(expires), NoAddress)
  }

  /** The registration handler: the method, the four fields, the first
      user holding the email or the phone (the phone after the schema's
      `trim` setter, which the store runs on query values), the mail, then
      the insert. */
  function Register(m: Method, body: RegisterBody, docs: seq<User>, otp: string, expires: int,
                    hash: string -> string, sent: bool, id: Id, now: int): Outcome {
    if m != POST then (Reply(405, MethodRefused), docs)
    else if !Complete(body) then (Reply(400, AllFieldsRequired), docs)
    else
      var e := NormalizeEmail(body.email.value);
      var k := IndexOfEmailOrPhone(docs, e, Trim(body.phone.value));
      if k.Some? then (Reply(400, (if docs[k.value].email == e then "EMAIL" else "PHONE") + AlreadyRegistered), docs)
      else if !sent then (Reply(500, SendFailed), docs)
      else match NewUser(RegisterInput(body, otp, expires, hash), id, now)
        case Err(_) => (Reply(500, InternalError), docs)
        case Ok(u) => if Clashes(docs, u) then (Reply(500, InternalError), docs) else (Reply(201, OtpSent), docs + [u])
  }

  /** Only a 201 changes the collection, and then by one unverified user
      holding the normalised email, the hash and the code; it needs the
      mail to have gone out first. */
  lemma RegisterOutcomes(m: Method, body: RegisterBody, docs: seq<User>, otp: string, expires: int,
                         hash: string -> string, sent: bool, id: Id, now: int)
    ensures var (reply, after) := Register(m, body, docs, otp, expires, hash, sent, id, now);
      && reply.status in {201, 400, 405, 500}
      && (reply.status == 405 <==> m != POST)
      && (reply.status != 201 ==> after == docs)
      && (reply.status == 201 ==> sent && Complete(body) && |after| == |docs| + 1 && after == docs + [after[|docs|]])
  {
  }

  /** The user a successful registration stores. */
  lemma RegisteredUser(body: RegisterBody, docs: seq<User>, otp: string, expires: int,
                       hash: string -> string, id: Id, now: int)
    requires Register(POST, body, docs, otp, expires, hash, true, id, now).0.status == 201
    ensures var u := Register(POST, body, docs, otp, expires, hash, true, id, now).1[|docs|];
      && u.email == NormalizeEmail(body.email.value) && u.password == hash(body.password.value)
      && !u.isVerified && u.otp == Some(otp) && u.otpExpires == Some(expires) && u.role == "user"
      && u.id == id && WellFormed(u)
      && forall i :: 0 <= i < |docs| ==> docs[i].email != u.email
  {
    NewUserWellFormed(RegisterInput(body, otp, expires, hash), id, now);
    NormalizeEmailIdempotent(body.email.value);
  }

  /** A taken email or phone is refused before any mail goes out, and the
      message names the phone only when the email is free. */
  lemma RegisterConflict(body: RegisterBody, docs: seq<User>, otp: string, expires: int,
                         hash: string -> string, sent: bool, id: Id, now: int, i: nat)
    requires Complete(body) && i < |docs|
    requires docs[i].email == NormalizeEmail(body.email.value) || docs[i].phone == Trim(body.phone.value)
    ensures var (reply, after) := Register(POST, body, docs, otp, expires, hash, sent, id, now);
      && reply.status == 400 && after == docs
      && (reply.message == "EMAIL" + AlreadyRegistered || reply.message == "PHONE" + AlreadyRegistered)
      && ((forall j :: 0 <= j < |docs| ==> docs[j].phone != Trim(body.phone.value)) ==> reply.message == "EMAIL" + AlreadyRegistered)
  {
  }

  /** ---------------------------------------------------------------------
      Verification.
      --------------------------------------------------------------------- */

  datatype OtpBody = OtpBody(email: Option<string>, otp: Option<string>)

  /** The verified user: the flag set and the code and its expiry gone. */
  function MarkVerified(u: User): User {
    u.(isVerified := true, otp := None, otpExpires := None)
  }

  function VerifyOtp(m: Method, body: OtpBody, docs: seq<User>, now: int): Outcome {
    if m != POST then (Reply(405, MethodRefused), docs)
    else if !Truthy(body.email) || !Truthy(body.otp) then (Reply(400, EmailAndOtpRequired), docs)
    else
      var k := IndexOfEmail(docs, NormalizeEmail(body.email.value));
      if k.None? then (Reply(404, NotRegistered), docs)
      else
        var u := docs[k.value];
        if u.isVerified then (Reply(400, AlreadyVerified), docs)
        else if u.otp != body.otp then (Reply(400, WrongCode), docs)
        else if !Live(now, u.otpExpires) then (Reply(400, CodeExpired), docs)
        else (Reply(200, Verified), docs[k.value := MarkVerified(u)])
  }

  /** Verification succeeds exactly for an unverified user presenting its
      live code; only then does the collection change, and only in that
      user's flag and code fields. */
  lemma VerifyOutcomes(m: Method, body: OtpBody, docs: seq<User>, now: int)
    ensures var (reply, after) := VerifyOtp(m, body, docs, now);
      var k := if Truthy(body.email) then IndexOfEmail(docs, NormalizeEmail(body.email.value)) else None;
      && (reply.status == 200 <==>
            m == POST && Truthy(body.otp) && k.Some? && !docs[k.value].isVerified
            && docs[k.value].otp == body.otp && Live(now, docs[k.value].otpExpires))
      && (reply.status != 200 ==> after == docs)
      && (reply.status == 200 ==> after == docs[k.value := MarkVerified(docs[k.value])])
  {
  }

  /** The checks run in order: a verified account is reported whatever
      the code, and a wrong code whatever the clock. */
  lemma VerifyCheckOrder(body: OtpBody, docs: seq<User>, now: int)
    requires Truthy(body.email) && Truthy(body.otp)
    requires IndexOfEmail(docs, NormalizeEmail(body.email.value)).Some?
    ensures var u := docs[IndexOfEmail(docs, NormalizeEmail(body.email.value)).value];
      && (u.isVerified ==> VerifyOtp(POST, body, docs, now).0 == Reply(400, AlreadyVerified))
      && (!u.isVerified && u.otp != body.otp ==> VerifyOtp(POST, body, docs, now).0 == Reply(400, WrongCode))
  {
  }

  /** A code works once: the same request again is refused as already
      verified, and nothing changes. */
  lemma VerifyOnce(body: OtpBody, docs: seq<User>, now: int, later: int)
    requires VerifyOtp(POST, body, docs, now).0.status == 200
    ensures var after := VerifyOtp(POST, body, docs, now).1;
      VerifyOtp(POST, body, after, later) == (Reply(400, AlreadyVerified), after)
  {
    var k := IndexOfEmail(docs, NormalizeEmail(body.email.value)).value;
    var after := VerifyOtp(POST, body, docs, now).1;
    IndexOfEmailUpdate(docs, k, MarkVerified(docs[k]), NormalizeEmail(body.email.value));
  }

  /** Replacing a user by one with the same email leaves every lookup by
      email where it was. */
  lemma {:induction false} IndexOfEmailUpdate(docs: seq<User>, k: nat, u: User, e: string)
    requires k < |docs| && u.email == docs[k].email
    ensures IndexOfEmail(docs[k := u], e) == IndexOfEmail(docs, e)
  {
    if |docs| > 0 && docs[0].email != e && k > 0 {
      assert docs[k := u][1..] == docs[1..][k - 1 := u];
      IndexOfEmailUpdate(docs[1..], k - 1, u, e);
    }
  }

  /** A user appended with a fresh email is the one its email finds. */
  lemma {:induction false} IndexOfEmailAppend(docs: seq<User>, u: User)
    requires forall i :: 0 <= i < |docs| ==> docs[i].email != u.email
    ensures IndexOfEmail(docs + [u], u.email) == Some(|docs|)
  {
    if |docs| > 0 {
      assert (docs + [u])[1..] == docs[1..] + [u];
      IndexOfEmailAppend(docs[1..], u);
    }
  }

  /** The account a registration creates can be verified with the code it
      mailed, at any time before the code expires. */
  lemma RegisterThenVerify(body: RegisterBody, docs: seq<User>, otp: string, expires: int,
                           hash: string -> string, id: Id, now: int, later: int)
    requires Register(POST, body, docs, otp, expires, hash, true, id, now).0.status == 201
    requires otp != "" && later < expires
    ensures var after := Register(POST, body, docs, otp, expires, hash, true, id, now).1;
      VerifyOtp(POST, OtpBody(body.email, Some(otp)), after, later).0 == Reply(200, Verified)
  {
    var after := Register(POST, body, docs, otp, expires, hash, true, id, now).1;
    var u := after[|docs|];
    RegisteredUser(body, docs, otp, expires, hash, id, now);
    RegisterOutcomes(POST, body, docs, otp, expires, hash, true, id, now);
    IndexOfEmailAppend(docs, u);
    NormalizeEmailIdempotent(body.email.value);
    VerifyFresh(OtpBody(body.email, Some(otp)), after, |docs|, later);
  }

  /** An unverified user found by the request's email and holding its
      live code is verified. */
  lemma VerifyFresh(body: OtpBody, docs: seq<User>, k: nat, now: int)
    requires Truthy(body.email) && Truthy(body.otp)
    requires IndexOfEmail(docs, NormalizeEmail(body.email.value)) == Some(k)
    requires !docs[k].isVerified && docs[k].otp == body.otp && Live(now, docs[k].otpExpires)
    ensures VerifyOtp(POST, body, docs, now).0 == Reply(200, Verified)
  {
  }

  /** ---------------------------------------------------------------------
      Forgotten password.
      --------------------------------------------------------------------- */

  /** The user with a fresh reset code. */
  function Reissue(u: User, otp: string, expires: int): User {
    u.(otp := Some(otp), otpExpires := Some(expires))
  }

  function ForgotPassword(m: Method, email: Option<string>, docs: seq<User>, otp: string, expires: int,
                          sent: bool): Outcome {
    if m != POST then (Reply(405, MethodRefused), docs)
    else if !Truthy(email) then (Reply(400, EmailRequired), docs)
    else
      var k := IndexOfEmail(docs, NormalizeEmail(email.value));
      if k.None? then (Reply(200, MaybeSent), docs)
      else if !docs[k.value].isVerified then (Reply(400, NotVerified), docs)
      else
        var after := docs[k.value := Reissue(docs[k.value], otp, expires)];
        if !sent then (Reply(500, SendFailed), after) else (Reply(200, ResetSent), after)
  }

  /** An unknown email is answered 200 and changes nothing; an unverified
      account gets no code; a verified one gets the new code, replacing
      any earlier one, and keeps it even when the mail fails. */
  lemma ForgotOutcomes(email: Option<string>, docs: seq<User>, otp: string, expires: int, sent: bool)
    requires Truthy(email)
    ensures var (reply, after) := ForgotPassword(POST, email, docs, otp, expires, sent);
      var k := IndexOfEmail(docs, NormalizeEmail(email.value));
      && (k.None? ==> reply == Reply(200, MaybeSent) && after == docs)
      && (k.Some? && !docs[k.value].isVerified ==> reply.status == 400 && after == docs)
      && (k.Some? && docs[k.value].isVerified ==>
            && after == docs[k.value := Reissue(docs[k.value], otp, expires)]
            && (reply.status == 200 <==> sent) && (!sent ==> reply.status == 500))
  {
  }

  /** The status alone does not tell an unknown email from a verified
      account whose mail went out; the wording does. */
  lemma ForgotStatusHidesAccount(unknown: string, known: string, docs: seq<User>, otp: string, expires: int)
    requires unknown != "" && IndexOfEmail(docs, NormalizeEmail(unknown)).None?
    requires known != "" && IndexOfEmail(docs, NormalizeEmail(known)).Some?
    requires docs[IndexOfEmail(docs, NormalizeEmail(known)).value].isVerified
    ensures ForgotPassword(POST, Some(unknown), docs, otp, expires, true).0.status
         == ForgotPassword(POST, Some(known), docs, otp, expires, true).0.status == 200
    ensures ForgotPassword(POST, Some(unknown), docs, otp, expires, true).0.message
         != ForgotPassword(POST, Some(known), docs, otp, expires, true).0.message
  {
  }

  /** ---------------------------------------------------------------------
      Password reset.
      --------------------------------------------------------------------- */

  datatype ResetBody = ResetBody(email: Option<string>, otp: Option<string>, newPassword: Option<string>)

  /** The user with the new hash and no code; the flag is not touched. */
  function WithPassword(u: User, hashed: string): User {
    u.(password := hashed, otp := None, otpExpires := None)
  }

  function ResetPassword(m: Method, body: ResetBody, docs: seq<User>, now: int, hash: string -> string): Outcome {
    if m != POST then (Reply(405, MethodRefused), docs)
    else if !Truthy(body.email) || !Truthy(body.otp) || !Truthy(body.newPassword) then (Reply(400, AllFieldsRequired), docs)
    else
      var k := IndexOfEmail(docs, NormalizeEmail(body.email.value));
      if k.None? then (Reply(404, UserNotFound), docs)
      else
        var u := docs[k.value];
        if u.otp != body.otp then (Reply(400, InvalidOtp), docs)
        else if !Live(now, u.otpExpires) then (Reply(400, OtpExpired), docs)
        else (Reply(200, PasswordReset), docs[k.value := WithPassword(u, hash(body.newPassword.value))])
  }

  /** A reset succeeds exactly for the live code of a known account,
      verified or not; only then does the collection change, in that
      user's password and code. */
  lemma ResetOutcomes(m: Method, body: ResetBody, docs: seq<User>, now: int, hash: string -> string)
    ensures var (reply, after) := ResetPassword(m, body, docs, now, hash);
      var k := if Truthy(body.email) then IndexOfEmail(docs, NormalizeEmail(body.email.value)) else None;
      && (reply.status == 200 <==>
            m == POST && Truthy(body.otp) && Truthy(body.newPassword) && k.Some?
            && docs[k.value].otp == body.otp && Live(now, docs[k.value].otpExpires))
      && (reply.status != 200 ==> after == docs)
      && (reply.status == 200 ==>
            && after == docs[k.value := WithPassword(docs[k.value], hash(body.newPassword.value))]
            && after[k.value].isVerified == docs[k.value].isVerified)
  {
  }

  /** The code a forgotten-password request mails resets the password
      before it expires, and then no longer works. */
  lemma ForgotThenReset(email: string, docs: seq<User>, otp: string, expires: int, sent: bool,
                        newPassword: string, hash: string -> string, later: int, again: int)
    requires email != "" && otp != "" && newPassword != "" && later < expires
    requires ForgotPassword(POST, Some(email), docs, otp, expires, sent).1 != docs
    ensures var issued := ForgotPassword(POST, Some(email), docs, otp, expires, sent).1;
      var body := ResetBody(Some(email), Some(otp), Some(newPassword));
      var (reply, after) := ResetPassword(POST, body, issued, later, hash);
      && reply.status == 200
      && ResetPassword(POST, body, after, again, hash) == (Reply(400, InvalidOtp), after)
  {
    var e := NormalizeEmail(email);
    var k := IndexOfEmail(docs, e).value;
    var issued := ForgotPassword(POST, Some(email), docs, otp, expires, sent).1;
    IndexOfEmailUpdate(docs, k, Reissue(docs[k], otp, expires), e);
    var after := issued[k := WithPassword(issued[k], hash(newPassword))];
    IndexOfEmailUpdate(issued, k, WithPassword(issued[k], hash(newPassword)), e);
  }

  /** ---------------------------------------------------------------------
      The handlers over the collection.
      --------------------------------------------------------------------- */

  method HandleRegister(m: Method, body: RegisterBody, users: UserCollection, draw: real, now: int,
                        hash: string -> string, sent: bool, id: Id)
      returns (reply: Reply)
    requires users.Valid() && 0.0 <= draw < 1.0
    modifies users
    ensures users.Valid()
    ensures (reply, users.docs) == Register(m, body, old(users.docs), OtpString(draw), OtpExpiry(now), hash, sent, id, now)
  {
    if m != POST {
      return Reply(405, MethodRefused);
    }
    if !Complete(body) {
      return Reply(400, AllFieldsRequired);
    }
    var e := NormalizeEmail(body.email.value);
    var existing := IndexOfEmailOrPhone(users.docs, e, Trim(body.phone.value));
    if existing.Some? {
      var field := if users.docs[existing.value].email == e then "EMAIL" else "PHONE";
      return Reply(400, field + AlreadyRegistered);
    }
    var otp := OtpString(draw);
    var otpExpires := OtpExpiry(now);
    if !sent {
      return Reply(500, SendFailed);
    }
    var created := users.Create(RegisterInput(body, otp, otpExpires, hash), id, now);
    if created.Err? {
      return Reply(500, InternalError);
    }
    reply := Reply(201, OtpSent);
  }

  method HandleVerifyOtp(m: Method, body: OtpBody, users: UserCollection, now: int) returns (reply: Reply)
    requires users.Valid()
    modifies users
    ensures users.Valid()
    ensures (reply, users.docs) == VerifyOtp(m, body, old(users.docs), now)
  {
    if m != POST {
      return Reply(405, MethodRefused);
    }
    if !Truthy(body.email) || !Truthy(body.otp) {
      return Reply(400, EmailAndOtpRequired);
    }
    var k := IndexOfEmail(users.docs, NormalizeEmail(body.email.value));
    if k.None? {
      return Reply(404, NotRegistered);
    }
    var user := users.docs[k.value];
    if user.isVerified {
      return Reply(400, AlreadyVerified);
    }
    if user.otp != body.otp {
      return Reply(400, WrongCode);
    }
    if !Live(now, user.otpExpires) {
      return Reply(400, CodeExpired);
    }
    users.Save(k.value, MarkVerified(user));
    reply := Reply(200, Verified);
  }

  method HandleForgotPassword(m: Method, email: Option<string>, users: UserCollection, draw: real, now: int,
                              sent: bool)
      returns (reply: Reply)
    requires users.Valid() && 0.0 <= draw < 1.0
    modifies users
    ensures users.Valid()
    ensures (reply, users.docs) == ForgotPassword(m, email, old(users.docs), OtpString(draw), OtpExpiry(now), sent)
  {
    if m != POST {
      return Reply(405, MethodRefused);
    }
    if !Truthy(email) {
      return Reply(400, EmailRequired);
    }
    var k := IndexOfEmail(users.docs, NormalizeEmail(email.value));
    if k.None? {
      return Reply(200, MaybeSent);
    }
    var user := users.docs[k.value];
    if !user.isVerified {
      return Reply(400, NotVerified);
    }
    users.Save(k.value, Reissue(user, OtpString(draw), OtpExpiry(now)));
    if !sent {
      return Reply(500, SendFailed);
    }
    reply := Reply(200, ResetSent);
  }

  method HandleResetPassword(m: Method, body: ResetBody, users: UserCollection, now: int, hash: string -> string)
      returns (reply: Reply)
    requires users.Valid()
    modifies users
    ensures users.Valid()
    ensures (reply, users.docs) == ResetPassword(m, body, old(users.docs), now, hash)
  {
    if m != POST {
      return Reply(405, MethodRefused);
    }
    if !Truthy(body.email) || !Truthy(body.otp) || !Truthy(body.newPassword) {
      return Reply(400, AllFieldsRequired);
    }
    var k := IndexOfEmail(users.docs, NormalizeEmail(body.email.value));
    if k.None? {
      return Reply(404, UserNotFound);
    }
    var user := users.docs[k.value];
    if user.otp != body.otp {
      return Reply(400, InvalidOtp);
    }
    if !Live(now, user.otpExpires) {
      return Reply(400, OtpExpired);
    }
    users.Save(k.value, WithPassword(user, hash(body.newPassword.value)));
    reply := Reply(200, PasswordReset);
  }
}
