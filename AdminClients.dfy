/**
 * The admin route that creates a client (a tenant): an admin check, three
 * field checks in order, a case-insensitive duplicate-email check and the
 * insertion. The tenant table is a map from lower-cased email to record.
 */
module AdminClients {
  import opened Text
  import opened Common

  /** A stored tenant: the password is checked but not stored. */
  datatype Tenant = Tenant(name: string, email: string)

  /** The JSON body's fields; `None` for a missing or falsy value. */
  datatype ClientBody = ClientBody(name: Option<string>, email: Option<string>, password: Option<string>)

  datatype Response = Unauthorized | BadRequest(error: string) | Conflict(error: string) | Created(client: Tenant)

  const NameRequired := "اسم العميل مطلوب"
  const EmailRequired := "البريد الإلكتروني مطلوب وصحيح"
  const PasswordRequired := "كلمة المرور مطلوبة (6 أحرف على الأقل)"
  const EmailTaken := "البريد الإلكتروني مستخدم بالفعل"
  const InvalidRequest := "Invalid request"

  /** `(body?.field || '').toString()`. */
  function Field(f: Option<string>): string {
    f.GetOr("")
  }

  /**
   * `POST`: the new table and the response. `admin` is `isAdminRequest(req)`
   * and `body` is `None` when the body is not JSON.
   */
  function PostClient(tenants: map<string, Tenant>, admin: bool, body: Option<ClientBody>): (map<string, Tenant>, Response) {
    if !admin then (tenants, Unauthorized)
    else if body.None? then (tenants, BadRequest(InvalidRequest))
    else
      var name := Field(body.value.name);
      var email := Field(body.value.email);
      var password := Field(body.value.password);
      if |name| < 2 then (tenants, BadRequest(NameRequired))
      else if '@' !in email then (tenants, BadRequest(EmailRequired))
      else if |password| < 6 then (tenants, BadRequest(PasswordRequired))
      else if Lower(email) in tenants then (tenants, Conflict(EmailTaken))
      else (tenants[Lower(email) := Tenant(name, Lower(email))], Created(Tenant(name, Lower(email))))
  }

  /** The tenant table the route writes to. */
  class TenantTable {
    var tenants: map<string, Tenant>

    constructor()
      ensures tenants == map[]
    {
      tenants := map[];
    }

    method Post(admin: bool, body: Option<ClientBody>) returns (resp: Response)
      modifies this
      ensures (tenants, resp) == PostClient(old(tenants), admin, body)
    {
      if !admin {
        return Unauthorized;
      }
      if body.None? {
        return BadRequest(InvalidRequest);
      }
      var name := Field(body.value.name);
      var email := Field(body.value.email);
      var password := Field(body.value.password);
      if |name| < 2 {
        return BadRequest(NameRequired);
      }
      if '@' !in email {
        return BadRequest(EmailRequired);
      }
      if |password| < 6 {
        return BadRequest(PasswordRequired);
      }
      var key := Lower(email);
      if key in tenants {
        return Conflict(EmailTaken);
      }
      var client := Tenant(name, key);
      tenants := tenants[key := client];
      return Created(client);
    }
  }

  // ---------------------------------------------------------------------------
  // Properties

  /** Every key is the lower-cased email of its record. */
  ghost predicate Keyed(tenants: map<string, Tenant>) {
    forall k :: k in tenants ==> tenants[k].email == k && Lower(k) == k
  }

  lemma LowerIdempotent(s: string)
    ensures Lower(Lower(s)) == Lower(s)
  {
  }

  /** A non-admin request is refused with 401 whatever its body, and nothing is stored. */
  lemma AdminFirst(tenants: map<string, Tenant>, body: Option<ClientBody>)
    ensures PostClient(tenants, false, body) == (tenants, Unauthorized)
  {
  }

  /** The checks run in order, each refusal has its own message, and a refused request stores nothing. */
  lemma ValidationOrder(tenants: map<string, Tenant>, b: ClientBody)
    ensures |Field(b.name)| < 2 ==> PostClient(tenants, true, Some(b)) == (tenants, BadRequest(NameRequired))
    ensures |Field(b.name)| >= 2 && '@' !in Field(b.email) ==>
              PostClient(tenants, true, Some(b)) == (tenants, BadRequest(EmailRequired))
    ensures |Field(b.name)| >= 2 && '@' in Field(b.email) && |Field(b.password)| < 6 ==>
              PostClient(tenants, true, Some(b)) == (tenants, BadRequest(PasswordRequired))
    ensures PostClient(tenants, true, Some(b)).1.BadRequest? <==>
              |Field(b.name)| < 2 || '@' !in Field(b.email) || |Field(b.password)| < 6
  {
  }

  /** An email already present, in any letter case, is refused with 409 and the table is unchanged. */
  lemma DuplicateEmail(tenants: map<string, Tenant>, b: ClientBody, existing: string)
    requires |Field(b.name)| >= 2 && '@' in Field(b.email) && |Field(b.password)| >= 6
    requires existing in tenants && Lower(Field(b.email)) == Lower(existing)
    requires Keyed(tenants)
    ensures PostClient(tenants, true, Some(b)) == (tenants, Conflict(EmailTaken))
  {
  }

  /** Success adds exactly one record, under the lower-cased email, and keeps every other record. */
  lemma CreatedAddsOne(tenants: map<string, Tenant>, admin: bool, body: Option<ClientBody>)
    requires PostClient(tenants, admin, body).1.Created?
    ensures var (after, resp) := PostClient(tenants, admin, body);
      var key := Lower(Field(body.value.email));
      key !in tenants && after == tenants[key := resp.client] && |after| == |tenants| + 1
      && resp.client == Tenant(Field(body.value.name), key)
  {
  }

  /** Every request keeps the table keyed by lower-cased email. */
  lemma PostKeepsKeyed(tenants: map<string, Tenant>, admin: bool, body: Option<ClientBody>)
    requires Keyed(tenants)
    ensures Keyed(PostClient(tenants, admin, body).0)
  {
    if body.Some? {
      LowerIdempotent(Field(body.value.email));
    }
  }

  /** After a client is created, the same email in another letter case is refused. */
  lemma SecondSignupConflicts(tenants: map<string, Tenant>, first: ClientBody, second: ClientBody)
    requires PostClient(tenants, true, Some(first)).1.Created?
    requires |Field(second.name)| >= 2 && '@' in Field(second.email) && |Field(second.password)| >= 6
    requires Lower(Field(second.email)) == Lower(Field(first.email))
    ensures var after := PostClient(tenants, true, Some(first)).0;
      PostClient(after, true, Some(second)) == (after, Conflict(EmailTaken))
  {
  }
}
