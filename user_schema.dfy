/** The User collection: unique, normalised email and phone, the role
    enum, the fields hidden from default reads, and the OTP fields the
    account handlers set and clear. */
module UserSchema {
  import opened Wrappers
  import opened Records
  import opened Http
  import opened Text

  predicate IsRole(r: string) { r == "user" || r == "admin" }

  datatype User = User(
    id: Id,
    name: string,
    email: string,
    phone: string,
    password: string,          // the stored hash
    role: string,
    isVerified: bool,
    otp: Option<string>,
    otpExpires: Option<int>,   // milliseconds since the epoch
    shippingAddress: Address,
    createdAt: int)

  /** `email.toLowerCase().trim()`, which is also what the `lowercase` and
      `trim` setters of `email` store. */
  function NormalizeEmail(e: string): string {
    Trim(ToLower(e))
  }

  /** A normalised email has no upper-case letter and no white space at
      either end. */
  lemma NormalizedShape(e: string)
    ensures var r := NormalizeEmail(e);
      && (forall i :: 0 <= i < |r| ==> !IsUpper(r[i]))
      && (|r| > 0 ==> !IsSpace(r[0]) && !IsSpace(r[|r| - 1]))
  {
    var l := ToLower(e);
    var r := Trim(l);
    TrimChars(l);
    forall i | 0 <= i < |r| ensures !IsUpper(r[i]) {
      assert r[i] in l;
      var j :| 0 <= j < |l| && l[j] == r[i];
    }
  }

  /** A normalised email is left as it is by normalising it again, so the
      setters store exactly what the handlers looked up. */
  lemma NormalizeEmailIdempotent(e: string)
    ensures NormalizeEmail(NormalizeEmail(e)) == NormalizeEmail(e)
  {
    var n := NormalizeEmail(e);
    NormalizedShape(e);
    ToLowerIdentity(n);
    TrimIdentity(n);
  }

  /** What a caller hands to `User.create`. */
  datatype UserInput = UserInput(
    name: Option<string>,
    email: Option<string>,
    phone: Option<string>,
    password: Option<string>,
    role: Option<string>,
    isVerified: Option<bool>,
    otp: Option<string>,
    otpExpires: Option<int>,
    shippingAddress: AddressInput)

  /** The schema's rules: name and password present, email and phone
      non-empty after their setters, the role one of the two. */
  predicate ValidUserInput(input: UserInput) {
    && Truthy(input.name)
    && input.email.Some? && |NormalizeEmail(input.email.value)| > 0
    && input.phone.Some? && |Trim(input.phone.value)| > 0
    && Truthy(input.password)
    && IsRole(input.role.GetOr("user"))
  }

  predicate WellFormed(u: User) {
    && |u.email| > 0 && NormalizeEmail(u.email) == u.email
    && |u.phone| > 0 && Trim(u.phone) == u.phone
    && IsRole(u.role)
  }

  /** `User.create(input)` before the unique indexes are consulted: role
      "user", unverified and country "IN" unless given. */
  function NewUser(input: UserInput, id: Id, now: int): (r: Result<User, SaveError>)
    ensures r.Ok? <==> ValidUserInput(input)
    ensures r.Err? ==> r.error == ValidationError
    ensures r.Ok? ==> r.value.id == id && r.value.createdAt == now
    ensures r.Ok? ==> r.value.email == NormalizeEmail(input.email.value)
    ensures r.Ok? ==> r.value.role == input.role.GetOr("user")
                      && r.value.isVerified == input.isVerified.GetOr(false)
                      && r.value.shippingAddress == FillAddress(input.shippingAddress, "IN")
  {
    if !ValidUserInput(input) then Err(ValidationError)
    else
      Ok(User(id, input.name.value, NormalizeEmail(input.email.value), Trim(input.phone.value), input.password.value,
              input.role.GetOr("user"), input.isVerified.GetOr(false), input.otp,
              input.otpExpires, FillAddress(input.shippingAddress, "IN"), now))
  }

  /** Every user the schema accepts is stored with a normalised email, a
      trimmed phone and a valid role. */
  lemma NewUserWellFormed(input: UserInput, id: Id, now: int)
    requires NewUser(input, id, now).Ok?
    ensures WellFormed(NewUser(input, id, now).value)
  {
    NormalizeEmailIdempotent(input.email.value);
    TrimIdentity(Trim(input.phone.value));
  }

  /** A user as a default read returns it: `password`, `otp` and
      `otpExpires` are `select: false` and are not part of the view. */
  datatype UserView = UserView(
    id: Id,
    name: string,
    email: string,
    phone: string,
    role: string,
    isVerified: bool,
    shippingAddress: Address,
    createdAt: int)

  function View(u: User): (v: UserView)
    ensures v.id == u.id && v.email == u.email && v.phone == u.phone && v.role == u.role
  {
    UserView(u.id, u.name, u.email, u.phone, u.role, u.isVerified, u.shippingAddress, u.createdAt)
  }

  /** Two users whose secrets alone differ read the same. */
  lemma ViewHidesSecrets(u: User, password: string, otp: Option<string>, otpExpires: Option<int>)
    ensures View(u.(password := password, otp := otp, otpExpires := otpExpires)) == View(u)
  {
  }

  /** No two users share an email or a phone. */
  predicate UniqueKeys(docs: seq<User>) {
    forall i, j :: 0 <= i < j < |docs| ==> docs[i].email != docs[j].email && docs[i].phone != docs[j].phone
  }

  predicate Clashes(docs: seq<User>, u: User) {
    exists i :: 0 <= i < |docs| && (docs[i].email == u.email || docs[i].phone == u.phone)
  }

  /** The index of the user with email `e`, if any. */
  function IndexOfEmail(docs: seq<User>, e: string): (r: Option<nat>)
    ensures r.Some? ==> r.value < |docs| && docs[r.value].email == e
    ensures r.None? ==> forall i :: 0 <= i < |docs| ==> docs[i].email != e
  {
    if |docs| == 0 then None
    else if docs[0].email == e then Some(0)
    else
      var rest := IndexOfEmail(docs[1..], e);
      if rest.Some? then Some(rest.value + 1) else None
  }

  /** `findOne({ $or: [{ email }, { phone }] })`: the first user that
      matches either key. */
  function IndexOfEmailOrPhone(docs: seq<User>, e: string, phone: string): (r: Option<nat>)
    ensures r.Some? ==> r.value < |docs| && (docs[r.value].email == e || docs[r.value].phone == phone)
    ensures r.None? ==> forall i :: 0 <= i < |docs| ==> docs[i].email != e && docs[i].phone != phone
  {
    if |docs| == 0 then None
    else if docs[0].email == e || docs[0].phone == phone then Some(0)
    else
      var rest := IndexOfEmailOrPhone(docs[1..], e, phone);
      if rest.Some? then Some(rest.value + 1) else None
  }

  /** `findOne({ phone, email: { $ne: email } })`: whether another user
      holds the phone. */
  predicate PhoneTakenByOther(docs: seq<User>, phone: string, email: string) {
    exists i :: 0 <= i < |docs| && docs[i].phone == phone && docs[i].email != email
  }

  /** The `users` collection. */
  class UserCollection {
    var docs: seq<User>

    ghost predicate Valid()
      reads this
    {
      UniqueKeys(docs)
    }

    constructor ()
      ensures docs == [] && Valid()
    {
      docs := [];
    }

    /** `User.create(input)`: validation, then the insert, which the unique
        indexes on email and phone refuse when either is taken. */
    method Create(input: UserInput, id: Id, now: int) returns (r: Result<User, SaveError>)
      requires Valid()
      modifies this
      ensures Valid()
      ensures NewUser(input, id, now).Err? ==> r == NewUser(input, id, now) && docs == old(docs)
      ensures NewUser(input, id, now).Ok? ==>
        var u := NewUser(input, id, now).value;
        if Clashes(old(docs), u) then r == Err(DuplicateKey) && docs == old(docs)
        else r == Ok(u) && docs == old(docs) + [u]
    {
      r := NewUser(input, id, now);
      if r.Err? {
        return;
      }
      var u := r.value;
      var found := IndexOfEmailOrPhone(docs, u.email, u.phone);
      if found.Some? {
        return Err(DuplicateKey);
      }
      docs := docs + [u];
    }

    /** `user.save()` or `findOneAndUpdate` on the user at `i`, keeping its
        email and taking a phone no other user holds: the stored document
        is replaced and no other is touched. */
    method Save(i: nat, u: User)
      requires Valid() && i < |docs|
      requires u.email == docs[i].email
      requires forall j :: 0 <= j < |docs| && j != i ==> docs[j].phone != u.phone
      modifies this
      ensures Valid()
      ensures docs == old(docs)[i := u]
    {
      docs := docs[i := u];
    }
  }
}
