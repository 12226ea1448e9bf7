/** The pure decisions inside the Express handlers of server/index.js: the
    admin guard `requireAdmin`, the entries sanitiser of
    PUT /api/leaderboard/:category, the `driver` to `name` remap of
    GET /api/leaderboard/:category and the url guard of
    PUT /api/leaderboard/:category/source. */
module Server {
  import opened Wrappers
  import opened Text
  import opened Numbers
  import opened Scraper

  // ---- Request bodies ----

  /** A parsed JSON value. A missing property (`undefined`) is `None` of an
      `Option<Json>`. */
  datatype Json =
    | JNull
    | JBool(b: bool)
    | JNum(n: real)
    | JStr(s: string)
    | JArr(items: seq<Json>)
    | JObj(fields: map<string, Json>)

  /** JavaScript truthiness of a JSON value (no JSON number is NaN). */
  predicate Truthy(v: Json)
    ensures Truthy(v) <==> v != JNull && v != JBool(false) && v != JNum(0.0) && v != JStr("")
  {
    match v
    case JNull => false
    case JBool(b) => b
    case JNum(n) => n != 0.0
    case JStr(s) => s != ""
    case JArr(_) => true
    case JObj(_) => true
  }

  /** `v.key` as the handlers read it: the JSON field of an object, and
      nothing (`None`) otherwise. A missing key and a null or primitive value
      give `undefined`; on an array, a key such as `entries` reads an
      inherited method (`Array.prototype.entries`), which no handler accepts
      any more than `undefined`: `Array.isArray` is false and `typeof` is not
      `'string'`. */
  function Field(v: Json, key: string): (r: Option<Json>)
    ensures r.Some? <==> v.JObj? && key in v.fields
    ensures r.Some? ==> r.value == v.fields[key]
  {
    if v.JObj? && key in v.fields then Some(v.fields[key]) else None
  }

  /** `req.body || {}`. */
  function BodyOrEmpty(body: Json): (r: Json)
    ensures Truthy(body) ==> r == body
    ensures !Truthy(body) ==> r == JObj(map[])
    ensures Truthy(r)
  {
    if Truthy(body) then body else JObj(map[])
  }

  /** A rejected request: its status code and its `error` message. */
  datatype HttpError = HttpError(status: int, message: string)

  const MissingToken: HttpError := HttpError(401, "token puuttuu")
  const InvalidToken: HttpError := HttpError(401, "virheellinen token")
  const NotAdmin: HttpError := HttpError(403, "ei oikeuksia")
  const EntriesNotArray: HttpError := HttpError(400, "entries pitää olla taulukko")
  const BadUrl: HttpError := HttpError(400, "URL puuttuu tai on virheellinen")

  // ---- requireAdmin ----

  const BearerPrefix: string := "bearer "

  /** The token of an Authorization header: none when the header is missing,
      empty or does not start with `bearer ` in any letter case; otherwise the
      header without its first seven characters. */
  function BearerToken(auth: Option<string>): (token: Option<string>)
    ensures token.Some? <==>
      auth.Some? && |auth.value| >= |BearerPrefix| && ToLower(auth.value[..|BearerPrefix|]) == BearerPrefix
    ensures token.Some? ==> auth.value == auth.value[..|BearerPrefix|] + token.value
  {
    if auth.None? || auth.value == "" then None
    else
      var lower := ToLower(auth.value);
      if |lower| >= |BearerPrefix| && lower[..|BearerPrefix|] == BearerPrefix then
        assert ToLower(auth.value[..|BearerPrefix|]) == lower[..|BearerPrefix|];
        Some(auth.value[|BearerPrefix|..])
      else
        assert |lower| >= |BearerPrefix| ==> ToLower(auth.value[..|BearerPrefix|]) == lower[..|BearerPrefix|];
        None
  }

  /** Any spelling of `bearer ` followed by a token gives back that token. */
  lemma BearerTokenOf(prefix: string, token: string)
    requires ToLower(prefix) == BearerPrefix
    ensures BearerToken(Some(prefix + token)) == Some(token)
  {
    var auth := prefix + token;
    assert auth[..|BearerPrefix|] == prefix;
    assert auth[|BearerPrefix|..] == token;
  }

  /** What `requireAdmin` does with a request. */
  datatype Decision = Proceed | Reject(error: HttpError)

  /** The verified payload grants access: it is truthy and its `role` is the
      string `admin`. */
  predicate IsAdmin(payload: Json) {
    Truthy(payload) && Field(payload, "role") == Some(JStr("admin"))
  }

  /** `requireAdmin`, with `jwt.verify(token, JWT_SECRET)` as `verify`: `None`
      when it throws, otherwise the decoded payload. */
  function RequireAdmin(auth: Option<string>, verify: string -> Option<Json>): (d: Decision)
    // a missing or malformed header is rejected before any verification
    ensures BearerToken(auth).None? ==> d == Reject(MissingToken)
    // a token that does not verify is rejected as invalid
    ensures BearerToken(auth).Some? && verify(BearerToken(auth).value).None? ==> d == Reject(InvalidToken)
    // a verified payload that is not an admin's is forbidden
    ensures BearerToken(auth).Some? && verify(BearerToken(auth).value).Some? ==>
      (d == Proceed <==> IsAdmin(verify(BearerToken(auth).value).value)) &&
      (d != Proceed ==> d == Reject(NotAdmin))
  {
    var token := BearerToken(auth);
    if token.None? then Reject(MissingToken)
    else
      match verify(token.value)
      case None => Reject(InvalidToken)
      case Some(payload) =>
        if !Truthy(payload) || Field(payload, "role") != Some(JStr("admin")) then Reject(NotAdmin)
        else Proceed
  }

  /** Only an admin gets through: the request carries a bearer header whose
      token verifies to an admin payload. */
  lemma ProceedOnlyForAdmin(auth: Option<string>, verify: string -> Option<Json>)
    requires RequireAdmin(auth, verify) == Proceed
    ensures exists prefix, token ::
      auth == Some(prefix + token) && ToLower(prefix) == BearerPrefix &&
      verify(token).Some? && IsAdmin(verify(token).value)
  {
    var token := BearerToken(auth).value;
    var prefix := auth.value[..|BearerPrefix|];
    assert auth == Some(prefix + token);
  }

  /** The verifier is consulted on the sliced token only: two verifiers that
      agree on it give the same decision. */
  lemma DecisionDependsOnTokenOnly(auth: Option<string>, v1: string -> Option<Json>, v2: string -> Option<Json>)
    requires BearerToken(auth).Some? ==> v1(BearerToken(auth).value) == v2(BearerToken(auth).value)
    ensures RequireAdmin(auth, v1) == RequireAdmin(auth, v2)
  {
  }

  // ---- The entries sanitiser ----

  /** An entry as stored: only its `name` and its numeric `points`. */
  datatype StoredEntry = StoredEntry(name: Json, points: real)

  /** The filter `e && e.name && typeof e.points === 'number'`. */
  predicate Keeps(e: Json)
    ensures Keeps(e) <==>
      && e.JObj?
      && "name" in e.fields && Truthy(e.fields["name"])
      && "points" in e.fields && e.fields["points"].JNum?
  {
    Truthy(e) && Field(e, "name").Some? && Truthy(Field(e, "name").value) &&
    Field(e, "points").Some? && Field(e, "points").value.JNum?
  }

  /** The map `({ name: e.name, points: e.points })` on a kept entry. */
  function Project(e: Json): (s: StoredEntry)
    requires Keeps(e)
    ensures JNum(s.points) == e.fields["points"] && s.name == e.fields["name"]
  {
    StoredEntry(Field(e, "name").value, Field(e, "points").value.n)
  }

  /** `entries.filter(...).map(...)`. */
  function Sanitize(entries: seq<Json>): (out: seq<StoredEntry>)
    ensures |out| <= |entries|
  {
    if entries == [] then []
    else
      var last := entries[|entries| - 1];
      Sanitize(entries[..|entries| - 1]) + (if Keeps(last) then [Project(last)] else [])
  }

  /** The sanitiser works entry by entry, in order. */
  lemma {:induction false} SanitizeAppend(a: seq<Json>, b: seq<Json>)
    ensures Sanitize(a + b) == Sanitize(a) + Sanitize(b)
    decreases |b|
  {
    if b == [] {
      assert a + b == a;
    } else {
      var ab := a + b;
      assert ab[..|ab| - 1] == a + b[..|b| - 1] && ab[|ab| - 1] == b[|b| - 1];
      SanitizeAppend(a, b[..|b| - 1]);
    }
  }

  /** Every kept entry appears in the output. */
  lemma {:induction false} SanitizeComplete(entries: seq<Json>, j: nat)
    requires j < |entries| && Keeps(entries[j])
    ensures Project(entries[j]) in Sanitize(entries)
  {
    var init := entries[..|entries| - 1];
    if j < |init| {
      assert init[j] == entries[j];
      SanitizeComplete(init, j);
    }
  }

  /** Every output entry is the projection of a kept input entry. */
  lemma {:induction false} SanitizeSound(entries: seq<Json>, k: nat)
    requires k < |Sanitize(entries)|
    ensures exists j :: 0 <= j < |entries| && Keeps(entries[j]) && Sanitize(entries)[k] == Project(entries[j])
  {
    var init := entries[..|entries| - 1];
    if k < |Sanitize(init)| {
      SanitizeSound(init, k);
      var j :| 0 <= j < |init| && Keeps(init[j]) && Sanitize(init)[k] == Project(init[j]);
      assert entries[j] == init[j];
    } else {
      assert Keeps(entries[|entries| - 1]);
    }
  }

  /** A list whose entries all pass the filter is only projected. */
  lemma {:induction false} SanitizeAllKept(entries: seq<Json>)
    requires forall j :: 0 <= j < |entries| ==> Keeps(entries[j])
    ensures |Sanitize(entries)| == |entries|
    ensures forall k :: 0 <= k < |entries| ==> Sanitize(entries)[k] == Project(entries[k])
  {
    if entries != [] {
      var init := entries[..|entries| - 1];
      SanitizeAllKept(init);
    }
  }

  /** A stored entry written back as a JSON object. */
  function Stored(s: StoredEntry): (v: Json)
    ensures Field(v, "name") == Some(s.name) && Field(v, "points") == Some(JNum(s.points))
  {
    JObj(map["name" := s.name, "points" := JNum(s.points)])
  }

  function StoredAll(out: seq<StoredEntry>): (vs: seq<Json>)
    ensures |vs| == |out|
    ensures forall k :: 0 <= k < |out| ==> vs[k] == Stored(out[k])
  {
    seq(|out|, k requires 0 <= k < |out| => Stored(out[k]))
  }

  /** Sanitising is idempotent: a sanitised list sent back unchanged is
      stored unchanged. */
  lemma SanitizeIdempotent(entries: seq<Json>)
    ensures Sanitize(StoredAll(Sanitize(entries))) == Sanitize(entries)
  {
    var out := Sanitize(entries);
    var vs := StoredAll(out);
    forall k | 0 <= k < |out|
      ensures Keeps(vs[k]) && Project(vs[k]) == out[k]
    {
      SanitizeSound(entries, k);
    }
    SanitizeAllKept(vs);
  }

  /** The body check of PUT /api/leaderboard/:category: `entries` must be an
      array; the list to store is its sanitised form. */
  function PutEntries(body: Json): (r: Result<seq<StoredEntry>, HttpError>)
    ensures r.Failure? <==> !(Field(BodyOrEmpty(body), "entries").Some? && Field(BodyOrEmpty(body), "entries").value.JArr?)
    ensures r.Failure? ==> r.error == EntriesNotArray
    ensures r.Success? ==> r.value == Sanitize(Field(body, "entries").value.items)
    ensures r.Success? ==> |r.value| <= |Field(body, "entries").value.items|
  {
    match Field(BodyOrEmpty(body), "entries")
    case Some(JArr(items)) => Success(Sanitize(items))
    case _ => Failure(EntriesNotArray)
  }

  // ---- The remap of scraped entries ----

  /** A scraped entry as the leaderboard route returns it. */
  datatype NamedEntry = NamedEntry(name: string, points: Option<Decimal>)

  /** `entries.map(e => ({ name: e.driver, points: e.points }))`. */
  function Remap(entries: seq<Entry>): (r: seq<NamedEntry>)
    ensures |r| == |entries|
    ensures forall i :: 0 <= i < |r| ==> r[i].name == entries[i].driver && r[i].points == entries[i].points
  {
    seq(|entries|, i requires 0 <= i < |entries| => NamedEntry(entries[i].driver, entries[i].points))
  }

  /** The field renamed back. */
  function Unmap(named: seq<NamedEntry>): (r: seq<Entry>)
    ensures |r| == |named|
  {
    seq(|named|, i requires 0 <= i < |named| => Entry(named[i].name, named[i].points))
  }

  /** The remap loses nothing: renaming the field back gives the scraped list. */
  lemma RemapRoundTrip(entries: seq<Entry>)
    ensures Unmap(Remap(entries)) == entries
  {
  }

  // ---- The url guard ----

  /** The body check of PUT /api/leaderboard/:category/source: `url` must be a
      string, which is then stored as is. */
  function SourceUrl(body: Json): (r: Result<string, HttpError>)
    ensures r.Success? <==> Field(BodyOrEmpty(body), "url").Some? && Field(BodyOrEmpty(body), "url").value.JStr?
    ensures r.Success? ==> Field(body, "url") == Some(JStr(r.value))
    ensures r.Failure? ==> r.error == BadUrl
  {
    match Field(BodyOrEmpty(body), "url")
    case Some(JStr(url)) => Success(url)
    case _ => Failure(BadUrl)
  }

  /** Any string, the empty one included, is accepted as the url of a body
      that holds it. */
  lemma SourceUrlOf(url: string, rest: map<string, Json>)
    ensures SourceUrl(JObj(rest["url" := JStr(url)])) == Success(url)
  {
  }
}
