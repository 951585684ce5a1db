/** The `submit-contact-form` edge function: a chain of guards in front of one insert
    into the `contact_messages` table. */
module ContactForm {
  import opened Wrappers
  import opened Text
  import opened Http

  const Cors: Headers := [
    ("Access-Control-Allow-Origin", "*"),
    ("Access-Control-Allow-Headers", "authorization, x-client-info, apikey, content-type"),
    ("Access-Control-Allow-Methods", "POST, OPTIONS")]

  /** The JSON body; a member is None when it is missing or null. */
  datatype FormData = FormData(name: Option<string>, email: Option<string>, subject: Option<string>, message: Option<string>)

  /** The row handed to `insert` on `contact_messages`. */
  datatype MessageRow = MessageRow(name: string, email: string, subject: string, message: string)

  /** A database error as the client library reports it. */
  datatype DbError = DbError(code: string, message: string)

  /** What `insert([row]).select()` returns: the ids of the returned rows, or an error. */
  datatype InsertResult = Inserted(ids: seq<string>) | InsertFailed(error: DbError)

  /** The success object: `{ success: true, message, id }`. */
  datatype Sent = Sent(message: string, id: Option<string>)

  /** The handler's answer and the row it handed to the insert, if it got that far. */
  datatype Outcome = Outcome(response: Response<Sent>, inserted: Option<MessageRow>)

  const AllFieldsRequired := "All fields are required"
  const InvalidEmailFormat := "Invalid email format"
  const TableNotFound := "Database table not found. Please contact support."
  const DuplicateEntry := "Duplicate entry detected."
  const PermissionError := "Database permission error. Please contact support."
  const FailedToSave := "Failed to save message"
  const MessageSent := "Message sent successfully"

  predicate AllFieldsPresent(f: FormData) {
    Truthy(f.name) && Truthy(f.email) && Truthy(f.subject) && Truthy(f.message)
  }

  // ---------------------------------------------------------------------------
  // The email pattern /^[^\s@]+@[^\s@]+\.[^\s@]+$/

  /** `[^\s@]` */
  predicate EmailChar(c: char) {
    !IsSpace(c) && c != '@'
  }

  predicate EmailChars(s: string) {
    forall i :: 0 <= i < |s| ==> EmailChar(s[i])
  }

  /** `[^\s@]+` */
  predicate EmailRun(s: string) {
    |s| > 0 && EmailChars(s)
  }

  /** s is local + '@' + host + '.' + tld with each part a `[^\s@]+` run. */
  predicate EmailShape(s: string, local: string, host: string, tld: string) {
    EmailRun(local) && EmailRun(host) && EmailRun(tld) && s == local + "@" + host + "." + tld
  }

  /** The regular expression, read as a language: some split of s fits the pattern. */
  ghost predicate MatchesEmailRegex(s: string) {
    exists local, host, tld :: EmailShape(s, local, host, tld)
  }

  /** The regular expression's test, decided by locating the first '@'. */
  function IsValidEmail(s: string): bool {
    match IndexOf(s, "@")
    case None => false
    case Some(at) =>
      var local, domain := s[..at], s[at + 1..];
      EmailRun(local) && EmailChars(domain) && |domain| >= 3 && '.' in domain[1..|domain| - 1]
  }

  /** The check the handler runs accepts exactly the strings the regular expression matches. */
  lemma EmailCheckMatchesRegex(s: string)
    ensures IsValidEmail(s) <==> MatchesEmailRegex(s)
  {
    if IsValidEmail(s) {
      ValidEmailMatches(s);
    }
    if MatchesEmailRegex(s) {
      var local, host, tld :| EmailShape(s, local, host, tld);
      MatchedEmailValid(s, local, host, tld);
    }
  }

  /** An accepted string splits at its first '@' and at a '.' inside the domain. */
  lemma ValidEmailMatches(s: string)
    requires IsValidEmail(s)
    ensures MatchesEmailRegex(s)
  {
    var at := IndexOf(s, "@").value;
    var local, domain := s[..at], s[at + 1..];
    var inner := domain[1..|domain| - 1];
    var j :| 0 <= j < |inner| && inner[j] == '.';
    var host, tld := domain[..j + 1], domain[j + 2..];
    assert domain == host + "." + tld;
    assert s[at..at + 1] == "@";
    assert s == local + "@" + domain;
    assert EmailShape(s, local, host, tld);
  }

  /** A string of the pattern's shape has its first '@' right after the local part. */
  lemma MatchedEmailValid(s: string, local: string, host: string, tld: string)
    requires EmailShape(s, local, host, tld)
    ensures IsValidEmail(s)
  {
    var at := |local|;
    assert s[at..at + 1] == "@";
    assert OccursAt(s, "@", at);
    assert forall k :: 0 <= k < at ==> !OccursAt(s, "@", k) by {
      forall k | 0 <= k < at ensures !OccursAt(s, "@", k) {
        assert s[k] == local[k];
      }
    }
    var i := IndexOf(s, "@").value;
    assert i == at;
    var domain := s[at + 1..];
    assert s[..at] == local;
    assert domain == host + "." + tld;
    assert domain[1..|domain| - 1][|host| - 1] == '.';
  }

  /** A string the pattern matches has no whitespace, so `trim` leaves it as it is. */
  lemma EmailHasNoSpace(s: string)
    requires MatchesEmailRegex(s)
    ensures NoSpace(s) && Trim(s) == s
  {
    var local, host, tld :| EmailShape(s, local, host, tld);
    forall i | 0 <= i < |s| ensures !IsSpace(s[i]) {
      if i < |local| {
        assert s[i] == local[i];
      } else if i == |local| {
      } else if i < |local| + 1 + |host| {
        assert s[i] == host[i - |local| - 1];
      } else if i == |local| + 1 + |host| {
      } else {
        assert s[i] == tld[i - |local| - 2 - |host|];
      }
    }
    TrimNoSpace(s);
  }

  /** The stored email, lower-cased, still matches the pattern. */
  lemma StoredEmailMatchesRegex(s: string)
    requires MatchesEmailRegex(s)
    ensures MatchesEmailRegex(ToLower(Trim(s)))
  {
    EmailHasNoSpace(s);
    var local, host, tld :| EmailShape(s, local, host, tld);
    ToLowerAppend(local + "@" + host + ".", tld);
    ToLowerAppend(local + "@" + host, ".");
    ToLowerAppend(local + "@", host);
    ToLowerAppend(local, "@");
    LowerEmailRun(local);
    LowerEmailRun(host);
    LowerEmailRun(tld);
    assert ToLower("@") == "@" && ToLower(".") == ".";
    assert EmailShape(ToLower(s), ToLower(local), ToLower(host), ToLower(tld));
  }

  /** Lower-casing maps `[^\s@]` characters to `[^\s@]` characters. */
  lemma LowerEmailRun(r: string)
    requires EmailRun(r)
    ensures EmailRun(ToLower(r))
  {
  }

  // ---------------------------------------------------------------------------
  // The row and the database error message

  /** The row the handler inserts: every field trimmed, the email also lower-cased. */
  function MessageRowOf(f: FormData): MessageRow
    requires AllFieldsPresent(f)
  {
    MessageRow(Trim(f.name.value), ToLower(Trim(f.email.value)), Trim(f.subject.value), Trim(f.message.value))
  }

  /** A name, subject or message made only of whitespace passes the presence check
      and is stored as the empty string. */
  lemma WhitespaceOnlyStoredEmpty(f: FormData)
    requires AllFieldsPresent(f)
    ensures AllSpace(f.name.value) ==> MessageRowOf(f).name == ""
    ensures AllSpace(f.subject.value) ==> MessageRowOf(f).subject == ""
    ensures AllSpace(f.message.value) ==> MessageRowOf(f).message == ""
  {
    if AllSpace(f.name.value) { TrimAllSpace(f.name.value); }
    if AllSpace(f.subject.value) { TrimAllSpace(f.subject.value); }
    if AllSpace(f.message.value) { TrimAllSpace(f.message.value); }
  }

  /** The user-facing message for a failed insert: the two error codes are checked
      before the text of the error, and anything else is a generic failure. */
  function DbErrorMessage(e: DbError): (m: string)
    ensures m == TableNotFound <==> e.code == "42P01"
    ensures m == DuplicateEntry <==> e.code != "42P01" && e.code == "23505"
    ensures m == PermissionError <==>
              e.code != "42P01" && e.code != "23505" && exists k :: OccursAt(e.message, "permission", k)
    ensures m == FailedToSave <==>
              e.code != "42P01" && e.code != "23505" && !exists k :: OccursAt(e.message, "permission", k)
  {
    ContainsIffOccurs(e.message, "permission");
    if e.code == "42P01" then TableNotFound
    else if e.code == "23505" then DuplicateEntry
    else if Contains(e.message, "permission") then PermissionError
    else FailedToSave
  }

  // ---------------------------------------------------------------------------
  // The handler

  /** The handler: preflight, method gate, body, required fields, email format,
      configuration, then the insert and its answer. */
  function Handle(req: Request<FormData>, env: Env, db: InsertResult): (o: Outcome)
    ensures CarriesCors(o.response, Cors)
    ensures o.response.status in {200, 400, 405, 500}
    ensures req.httpMethod == "OPTIONS" ==> o == Outcome(Response(200, Cors, NoBody), None)
    ensures req.httpMethod != "OPTIONS" && req.httpMethod != "POST" ==>
              o.response.status == 405 && o.response.body == ErrorBody(MethodNotAllowed, None) && o.inserted == None
    ensures req.httpMethod == "POST" && req.body.Failure? ==>
              o == Outcome(JsonError(Cors, 500, InternalServerError, Some(req.body.error)), None)
    ensures req.httpMethod == "POST" && req.body.Success? && !AllFieldsPresent(req.body.value) ==>
              o.response.status == 400 && o.response.body == ErrorBody(AllFieldsRequired, None)
    ensures req.httpMethod == "POST" && req.body.Success? && AllFieldsPresent(req.body.value)
              && !MatchesEmailRegex(req.body.value.email.value) ==>
              o.response.status == 400 && o.response.body == ErrorBody(InvalidEmailFormat, None)
    ensures req.httpMethod == "POST" && req.body.Success? && AllFieldsPresent(req.body.value)
              && MatchesEmailRegex(req.body.value.email.value) && !Configured(env) ==>
              o.response.status == 500 && o.response.body == ErrorBody(ServerConfigurationError, None)
    ensures o.inserted.Some? <==>
              req.httpMethod == "POST" && req.body.Success? && AllFieldsPresent(req.body.value)
              && MatchesEmailRegex(req.body.value.email.value) && Configured(env)
    ensures o.inserted.Some? ==> o == Insert(req.body.value, db)
  {
    if req.httpMethod == "OPTIONS" then Outcome(Preflight(Cors), None)
    else if req.httpMethod != "POST" then Outcome(JsonError(Cors, 405, MethodNotAllowed, None), None)
    else
      match req.body
      case Failure(msg) => Outcome(JsonError(Cors, 500, InternalServerError, Some(msg)), None)
      case Success(f) =>
        if !AllFieldsPresent(f) then Outcome(JsonError(Cors, 400, AllFieldsRequired, None), None)
        else
          EmailCheckMatchesRegex(f.email.value);
          if !IsValidEmail(f.email.value) then Outcome(JsonError(Cors, 400, InvalidEmailFormat, None), None)
          else if !Configured(env) then Outcome(JsonError(Cors, 500, ServerConfigurationError, None), None)
          else Insert(f, db)
  }

  /** The insert of a validated form and the answer to it. */
  function Insert(f: FormData, db: InsertResult): (o: Outcome)
    requires AllFieldsPresent(f) && MatchesEmailRegex(f.email.value)
    ensures CarriesCors(o.response, Cors)
    ensures o.response.status in {200, 500}
    ensures o.inserted.Some?
    ensures o.inserted.value.email == ToLower(f.email.value) && MatchesEmailRegex(o.inserted.value.email)
    ensures o.inserted.value.name == Trim(f.name.value)
    ensures o.inserted.value.subject == Trim(f.subject.value)
    ensures o.inserted.value.message == Trim(f.message.value)
    ensures db.InsertFailed? ==>
              o.response.status == 500 && o.response.body == ErrorBody(DbErrorMessage(db.error), Some(db.error.message))
    ensures db.Inserted? ==>
              o.response.status == 200
              && o.response.body == SuccessBody(Sent(MessageSent, if db.ids == [] then None else Some(db.ids[0])))
  {
    EmailHasNoSpace(f.email.value);
    StoredEmailMatchesRegex(f.email.value);
    var row := MessageRowOf(f);
    match db
    case InsertFailed(e) => Outcome(JsonError(Cors, 500, DbErrorMessage(e), Some(e.message)), Some(row))
    case Inserted(ids) =>
      Outcome(JsonOk(Cors, Sent(MessageSent, if ids == [] then None else Some(ids[0]))), Some(row))
  }

  /** Validation comes before configuration: a request that fails a field check gets
      the same 400 whatever the environment and the database would do. */
  lemma ValidationIgnoresConfiguration(req: Request<FormData>, env1: Env, env2: Env, db1: InsertResult, db2: InsertResult)
    requires req.httpMethod == "POST" && req.body.Success?
    requires !AllFieldsPresent(req.body.value) || (AllFieldsPresent(req.body.value) && !MatchesEmailRegex(req.body.value.email.value))
    ensures Handle(req, env1, db1) == Handle(req, env2, db2)
    ensures Handle(req, env1, db1).response.status == 400
  {
    if AllFieldsPresent(req.body.value) {
      EmailCheckMatchesRegex(req.body.value.email.value);
    }
  }
}
