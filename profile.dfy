/** `/api/auth/profile`: the signed-in user's own record, read without its
    secrets, and its partial update. */
module Profile {
  import opened Wrappers
  import opened Records
  import opened Http
  import opened UserSchema
  import opened Text

  datatype ProfileBody = ProfileBody(name: Option<string>, phone: Option<string>, shippingAddress: Option<Address>)

  datatype Reply =
    | Shown(user: UserView)                     // 200 on GET
    | Updated(updated: Option<UserView>)         // 200 on PUT; no user when the email matches none
    | Refused(status: nat, message: string)     // 400, 401, 404, 405

  const Unauthorized := "Unauthorized"
  const UserMissing := "User not found"
  const PhoneInUse := "Phone number already in use"
  const MethodRefused := "Method not allowed"

  /** `updateData`: only the truthy name and phone, and a supplied
      address, are written; the phone passes the schema's `trim` setter,
      which the store also runs on update values. */
  function ApplyUpdate(u: User, body: ProfileBody): (r: User)
    ensures r.name == (if Truthy(body.name) then body.name.value else u.name)
    ensures r.phone == (if Truthy(body.phone) then Trim(body.phone.value) else u.phone)
    ensures r.shippingAddress == (if body.shippingAddress.Some? then body.shippingAddress.value else u.shippingAddress)
    ensures r.(name := u.name, phone := u.phone, shippingAddress := u.shippingAddress) == u
  {
    u.(name := if Truthy(body.name) then body.name.value else u.name,
       phone := if Truthy(body.phone) then Trim(body.phone.value) else u.phone,
       shippingAddress := if body.shippingAddress.Some? then body.shippingAddress.value else u.shippingAddress)
  }

  /** The email every query of the handler filters on: the session's, after
      the schema's `lowercase` and `trim` setters, which the store applies
      to query values. */
  function SessionKey(session: Session): string
    requires SessionEmail(session).Some?
  {
    NormalizeEmail(SessionEmail(session).value)
  }

  /** The handler over the collection's `docs`. */
  function HandleProfile(m: Method, session: Session, body: ProfileBody, docs: seq<User>): (Reply, seq<User>) {
    if !Truthy(SessionEmail(session)) then (Refused(401, Unauthorized), docs)
    else
      var email := SessionKey(session);
      var k := IndexOfEmail(docs, email);
      if m == GET then
        if k.None? then (Refused(404, UserMissing), docs) else (Shown(View(docs[k.value])), docs)
      else if m == PUT then
        if Truthy(body.phone) && PhoneTakenByOther(docs, Trim(body.phone.value), email) then (Refused(400, PhoneInUse), docs)
        else if k.None? then (Updated(None), docs)
        else
          var u := ApplyUpdate(docs[k.value], body);
          (Updated(Some(View(u))), docs[k.value := u])
      else (Refused(405, MethodRefused), docs)
  }

  /** Without a signed-in email nothing is read or written; only a PUT
      changes the collection, and then only the caller's own record, in
      the supplied fields, never its email or secrets. */
  lemma ProfileOutcomes(m: Method, session: Session, body: ProfileBody, docs: seq<User>)
    ensures var (reply, after) := HandleProfile(m, session, body, docs);
      && (!Truthy(SessionEmail(session)) ==> reply == Refused(401, Unauthorized) && after == docs)
      && (m != PUT ==> after == docs)
      && (m != GET && m != PUT && Truthy(SessionEmail(session)) ==> reply == Refused(405, MethodRefused))
      && |after| == |docs|
      && forall i :: 0 <= i < |docs| && after[i] != docs[i] ==>
           && m == PUT && docs[i].email == SessionKey(session)
           && after[i] == ApplyUpdate(docs[i], body)
           && after[i].email == docs[i].email && after[i].password == docs[i].password
           && after[i].otp == docs[i].otp && after[i].role == docs[i].role
  {
    if Truthy(SessionEmail(session)) && m == PUT {
      var email := SessionKey(session);
      var k := IndexOfEmail(docs, email);
      if !(Truthy(body.phone) && PhoneTakenByOther(docs, Trim(body.phone.value), email)) && k.Some? {
        var u := ApplyUpdate(docs[k.value], body);
        assert HandleProfile(m, session, body, docs) == (Updated(Some(View(u))), docs[k.value := u]);
      }
    }
  }

  /** A phone held by another account is refused, and nothing changes. */
  lemma PhoneConflict(session: Session, body: ProfileBody, docs: seq<User>, j: nat)
    requires Truthy(SessionEmail(session)) && Truthy(body.phone) && j < |docs|
    requires docs[j].phone == Trim(body.phone.value) && docs[j].email != SessionKey(session)
    ensures HandleProfile(PUT, session, body, docs) == (Refused(400, PhoneInUse), docs)
  {
  }

  /** What GET returns is the stored record seen without its secrets: two
      records differing only there read alike. */
  lemma ProfileHidesSecrets(session: Session, docs: seq<User>, k: nat, password: string)
    requires Truthy(SessionEmail(session)) && k < |docs| && IndexOfEmail(docs, SessionKey(session)) == Some(k)
    ensures var hidden := docs[k := docs[k].(password := password, otp := None, otpExpires := None)];
      HandleProfile(GET, session, ProfileBody(None, None, None), hidden).0
        == HandleProfile(GET, session, ProfileBody(None, None, None), docs).0
  {
    var hidden := docs[k := docs[k].(password := password, otp := None, otpExpires := None)];
    IndexOfEmailSameEmails(docs, hidden, SessionKey(session));
  }

  /** Lookups by email only see the emails. */
  lemma {:induction false} IndexOfEmailSameEmails(a: seq<User>, b: seq<User>, e: string)
    requires |a| == |b| && forall i :: 0 <= i < |a| ==> a[i].email == b[i].email
    ensures IndexOfEmail(a, e) == IndexOfEmail(b, e)
  {
    if |a| > 0 {
      IndexOfEmailSameEmails(a[1..], b[1..], e);
    }
  }

  /** The handler over the `users` collection. */
  method Handle(m: Method, session: Session, body: ProfileBody, users: UserCollection) returns (reply: Reply)
    requires users.Valid()
    modifies users
    ensures users.Valid()
    ensures (reply, users.docs) == HandleProfile(m, session, body, old(users.docs))
  {
    var email := SessionEmail(session);
    if !Truthy(email) {
      return Refused(401, Unauthorized);
    }
    var k := IndexOfEmail(users.docs, SessionKey(session));
    if m == GET {
      if k.None? {
        return Refused(404, UserMissing);
      }
      return Shown(View(users.docs[k.value]));
    }
    if m != PUT {
      return Refused(405, MethodRefused);
    }
    if Truthy(body.phone) && PhoneTakenByOther(users.docs, Trim(body.phone.value), SessionKey(session)) {
      return Refused(400, PhoneInUse);
    }
    if k.None? {
      return Updated(None);
    }
    var u := ApplyUpdate(users.docs[k.value], body);
    users.Save(k.value, u);
    reply := Updated(Some(View(u)));
  }
}
