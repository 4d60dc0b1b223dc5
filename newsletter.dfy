/** `POST /api/newsletter/subscribe` and the Newsletter collection it
    writes: each email at most once, stored lower-cased and trimmed. */
module Newsletter {
  import opened Wrappers
  import opened Records
  import opened Http
  import opened Text
  import UserSchema

  datatype Subscriber = Subscriber(email: string, isActive: bool)

  /** The email's `lowercase` and `trim` setters, the same normalisation
      the User collection applies. */
  function Stored(email: string): string {
    UserSchema.NormalizeEmail(email)
  }

  /** Every stored email is normalised and non-empty, and no two are equal
      (the unique index). */
  predicate ValidSubscribers(docs: seq<Subscriber>) {
    AllNormalized(docs) && Distinct(docs)
  }

  predicate AllNormalized(docs: seq<Subscriber>) {
    forall i :: 0 <= i < |docs| ==> |docs[i].email| > 0 && Stored(docs[i].email) == docs[i].email
  }

  predicate Distinct(docs: seq<Subscriber>) {
    forall i, j :: 0 <= i < j < |docs| ==> docs[i].email != docs[j].email
  }

  /** Whether `findOne({ email: key })` finds a document. */
  predicate HasEmail(docs: seq<Subscriber>, key: string) {
    exists i :: 0 <= i < |docs| && docs[i].email == key
  }

  /** `Newsletter.create({ email })`: the setters, the `required` check on
      the result, then the unique index. */
  function CreateSubscriber(docs: seq<Subscriber>, email: string): (r: Result<Subscriber, SaveError>)
    ensures r.Ok? <==> |Stored(email)| > 0 && !HasEmail(docs, Stored(email))
    ensures r.Ok? ==> r.value == Subscriber(Stored(email), true)
    ensures |Stored(email)| == 0 ==> r == Err(ValidationError)
  {
    var e := Stored(email);
    if |e| == 0 then Err(ValidationError)
    else if HasEmail(docs, e) then Err(DuplicateKey)
    else Ok(Subscriber(e, true))
  }

  /** A successful insert keeps the collection valid. */
  lemma CreateKeepsValid(docs: seq<Subscriber>, email: string)
    requires ValidSubscribers(docs) && CreateSubscriber(docs, email).Ok?
    ensures ValidSubscribers(docs + [CreateSubscriber(docs, email).value])
  {
    var s := CreateSubscriber(docs, email).value;
    UserSchema.NormalizeEmailIdempotent(email);
    AppendNormalized(docs, s);
    AppendDistinct(docs, s);
  }

  lemma AppendNormalized(docs: seq<Subscriber>, s: Subscriber)
    requires AllNormalized(docs) && |s.email| > 0 && Stored(s.email) == s.email
    ensures AllNormalized(docs + [s])
  {
    var d := docs + [s];
    forall i | 0 <= i < |d|
      ensures |d[i].email| > 0 && Stored(d[i].email) == d[i].email
    {
      if i < |docs| {
        assert d[i] == docs[i];
      }
    }
  }

  lemma AppendDistinct(docs: seq<Subscriber>, s: Subscriber)
    requires Distinct(docs) && !HasEmail(docs, s.email)
    ensures Distinct(docs + [s])
  {
    var d := docs + [s];
    forall i, j | 0 <= i < j < |d|
      ensures d[i].email != d[j].email
    {
      assert d[i] == docs[i];
      if j < |docs| {
        assert d[j] == docs[j];
      }
    }
  }

  datatype Reply = Reply(status: nat, message: string)

  const Welcome := "Welcome to the crew! You'll be first to know about new drops."
  const AlreadyListed := "You're already on the list!"

  /** What `findOne({ email: email.toLowerCase() })` compares with: the
      handler's lower-casing, then the schema's `lowercase` and `trim`
      setters, which the store also applies to query values. */
  function LookupKey(email: string): (k: string)
    ensures k == Stored(email)
  {
    var k := Stored(ToLower(email));
    ToLowerTwice(email);
    k
  }

  lemma ToLowerTwice(email: string)
    ensures Stored(ToLower(email)) == Stored(email)
  {
    ToLowerIdentity(ToLower(email));
  }

  /** The handler as a function of the request and the collection. */
  function Subscribe(m: Method, email: Option<string>, docs: seq<Subscriber>): (Reply, seq<Subscriber>) {
    if m != POST then (Reply(405, "Method not allowed"), docs)
    else if !Truthy(email) then (Reply(400, "Email is required"), docs)
    else if HasEmail(docs, LookupKey(email.value)) then (Reply(400, AlreadyListed), docs)
    else match CreateSubscriber(docs, email.value) {
      case Ok(s) => (Reply(201, Welcome), docs + [s])
      case Err(_) => (Reply(500, "Server error"), docs)
    }
  }

  /** Only a 201 adds a subscriber, exactly one, stored normalised and
      active; every other reply leaves the collection as it was; the
      collection stays valid; and the only 500 is an email of nothing but
      spaces, which the `required` check refuses once trimmed. */
  lemma SubscribeOutcomes(m: Method, email: Option<string>, docs: seq<Subscriber>)
    requires ValidSubscribers(docs)
    ensures var (reply, after) := Subscribe(m, email, docs);
      && ValidSubscribers(after)
      && (reply.status == 201 <==> after != docs)
      && (reply.status == 201 ==> email.Some? && after == docs + [Subscriber(Stored(email.value), true)])
      && (reply.status != 201 ==> after == docs)
      && (m != POST <==> reply.status == 405)
      && (reply.status == 500 <==> m == POST && Truthy(email) && Stored(email.value) == "")
  {
    if m == POST && Truthy(email) && !HasEmail(docs, LookupKey(email.value)) && CreateSubscriber(docs, email.value).Ok? {
      CreateKeepsValid(docs, email.value);
      assert |docs + [Subscriber(Stored(email.value), true)]| != |docs|;
    }
  }

  /** An email that differs from a stored one only in letter case is
      refused as already listed. */
  lemma CaseDuplicate(email: string, docs: seq<Subscriber>)
    requires ValidSubscribers(docs) && email != "" && HasEmail(docs, ToLower(email))
    ensures Subscribe(POST, Some(email), docs) == (Reply(400, AlreadyListed), docs)
  {
    var j :| 0 <= j < |docs| && docs[j].email == ToLower(email);
    ToLowerTwice(email);
    FoundByKey(docs, j, email);
    FoundRefused(email, docs);
  }

  /** A key the lookup finds is refused as already listed. */
  lemma FoundRefused(email: string, docs: seq<Subscriber>)
    requires email != "" && HasEmail(docs, LookupKey(email))
    ensures Subscribe(POST, Some(email), docs) == (Reply(400, AlreadyListed), docs)
  {
  }

  /** A stored email whose normalised form is the lookup key of `email`
      is found by the lookup. */
  lemma FoundByKey(docs: seq<Subscriber>, j: nat, email: string)
    requires ValidSubscribers(docs) && j < |docs| && Stored(email) == Stored(docs[j].email)
    ensures HasEmail(docs, LookupKey(email))
  {
    assert Stored(docs[j].email) == docs[j].email;
  }

  /** A stored email sent again with a space in front is found, because
      the lookup value is trimmed as well, and is refused as already
      listed. */
  lemma PaddedDuplicate(stored: string, docs: seq<Subscriber>)
    requires ValidSubscribers(docs) && HasEmail(docs, stored)
    ensures Subscribe(POST, Some(" " + stored), docs) == (Reply(400, AlreadyListed), docs)
  {
    var j :| 0 <= j < |docs| && docs[j].email == stored;
    var padded := " " + stored;
    PaddedStoresSame(stored);
    FoundByKey(docs, j, padded);
    assert padded != "" by {
      assert padded[0] == ' ';
    }
    FoundRefused(padded, docs);
  }

  lemma PaddedStoresSame(stored: string)
    ensures Stored(" " + stored) == Stored(stored)
  {
    var padded := " " + stored;
    assert ToLower(padded) == " " + ToLower(stored);
    assert TrimStart(" " + ToLower(stored)) == TrimStart(ToLower(stored)) by {
      assert (" " + ToLower(stored))[1..] == ToLower(stored);
    }
  }

  /** The subscribers collection. */
  class NewsletterCollection {
    var docs: seq<Subscriber>

    constructor ()
      ensures docs == []
    {
      docs := [];
    }

    /** `findOne({ email: key })`. */
    method FindOne(key: string) returns (found: bool)
      ensures found <==> HasEmail(docs, key)
    {
      found := false;
      var i := 0;
      while i < |docs|
        invariant 0 <= i <= |docs|
        invariant !found ==> forall k :: 0 <= k < i ==> docs[k].email != key
        invariant found ==> HasEmail(docs, key)
      {
        if docs[i].email == key {
          found := true;
        }
        i := i + 1;
      }
    }

    /** `Newsletter.create({ email })`. */
    method Create(email: string) returns (r: Result<Subscriber, SaveError>)
      modifies this
      ensures r == CreateSubscriber(old(docs), email)
      ensures docs == if r.Ok? then old(docs) + [r.value] else old(docs)
    {
      r := CreateSubscriber(docs, email);
      if r.Ok? {
        docs := docs + [r.value];
      }
    }

    /** The active subscribers' emails, as `find({ isActive: true })`
        returns them. */
    method ActiveEmails() returns (emails: seq<string>)
      ensures |emails| <= |docs|
      ensures forall e :: e in emails <==> exists i :: 0 <= i < |docs| && docs[i].isActive && docs[i].email == e
    {
      emails := [];
      var i := 0;
      while i < |docs|
        invariant 0 <= i <= |docs| && |emails| <= i
        invariant forall e :: e in emails <==> exists k :: 0 <= k < i && docs[k].isActive && docs[k].email == e
      {
        if docs[i].isActive {
          emails := emails + [docs[i].email];
        }
        i := i + 1;
      }
    }
  }

  /** The handler over the collection. */
  method HandleSubscribe(m: Method, email: Option<string>, subscribers: NewsletterCollection) returns (reply: Reply)
    modifies subscribers
    ensures (reply, subscribers.docs) == Subscribe(m, email, old(subscribers.docs))
  {
    if m != POST {
      return Reply(405, "Method not allowed");
    }
    if !Truthy(email) {
      return Reply(400, "Email is required");
    }
    var existing := subscribers.FindOne(LookupKey(email.value));
    if existing {
      return Reply(400, AlreadyListed);
    }
    var created := subscribers.Create(email.value);
    if created.Err? {
      return Reply(500, "Server error");
    }
    reply := Reply(201, Welcome);
  }
}
