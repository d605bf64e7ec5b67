/** The backend's request handling (server.py): registration and login, the
    bearer-token check, the blood-request, donor-matching, facility and
    donation-history queries, the status update and the donation insert.
    bcrypt and JWT are given as a `Crypto` value of uninterpreted functions;
    the clock and generated ids are inputs. */
module Server {
  import opened Wrappers
  import opened Text
  import opened Documents

  /** Seven days. */
  const ACCESS_TOKEN_EXPIRE_MINUTES: int := 60 * 24 * 7

  /** The same lifetime in seconds, the unit of a JWT `exp` claim. */
  const TokenLifetime: int := ACCESS_TOKEN_EXPIRE_MINUTES * 60

  datatype HttpError = HttpError(status: int, detail: string)
  datatype Result<T> = Success(value: T) | Failure(error: HttpError)

  const InvalidLogin := HttpError(401, "Invalid email or password")

  /** A token's payload: the user id (`sub`), the email and the expiry time. */
  datatype Claims = Claims(sub: Option<string>, email: string, exp: int)

  /** What `jwt.decode` makes of a token at a given time. */
  datatype Decoded = Payload(claims: Claims) | ExpiredSignature | InvalidToken

  /** bcrypt and JWT with the server's secret key: `hash(password, salt)` is
      `hashpw` with a generated salt, `check(password, hashed)` is `checkpw`,
      `encode` and `decode(token, now)` are `jwt.encode` and `jwt.decode`. */
  datatype Crypto = Crypto(
    hash: (string, nat) -> string,
    check: (string, string) -> bool,
    encode: Claims -> string,
    decode: (string, int) -> Decoded)

  /** The one relation the handlers rely on: a password checks against its
      own hash, and a token decodes to its claims until it expires. */
  ghost predicate Sound(c: Crypto)
  {
    && (forall p: string, salt: nat :: c.check(p, c.hash(p, salt)))
    && (forall cl: Claims, now: int ::
          c.decode(c.encode(cl), now) == if now < cl.exp then Payload(cl) else ExpiredSignature)
  }

  /** The body of `POST /auth/register`. */
  datatype UserCreate = UserCreate(
    email: string,
    password: string,
    full_name: string,
    role: string,
    blood_type: Option<string>,
    phone: Option<string>,
    location: Option<string>,
    city: Option<string>,
    state: Option<string>)

  /** The body of `POST /donation-history`. */
  datatype DonationCreate = DonationCreate(
    blood_request_id: Option<string>,
    blood_type: string,
    units_donated: int,
    hospital_name: string,
    city: string)

  /** The response of register and login. */
  datatype TokenResponse = TokenResponse(access_token: string, token_type: string, user: Doc)

  /** The fields of the `User` model; the `password` field is not one of them. */
  const UserFields: set<string> :=
    {"id", "email", "full_name", "role", "blood_type", "phone", "location",
     "city", "state", "available_to_donate", "created_at"}

  function OptStr(o: Option<string>): Value
  {
    if o.Some? then Str(o.value) else Null
  }

  // -------------------------------------------------------------- auth helpers

  /** `User(**doc)`: the model keeps its own fields and ignores the rest. */
  function UserObject(doc: Doc): (u: Doc)
    ensures u.Keys == doc.Keys * UserFields
    ensures "password" !in u
    ensures forall k :: k in u ==> u[k] == doc[k]
  {
    map k | k in doc.Keys * UserFields :: doc[k]
  }

  /** The `exp` claim is exactly seven days (10080 minutes) after `now`. */
  function AccessClaims(sub: string, email: string, now: int): (cl: Claims)
    ensures cl.sub == Some(sub) && cl.email == email
    ensures cl.exp - now == 10080 * 60
  {
    Claims(Some(sub), email, now + TokenLifetime)
  }

  /** `create_access_token({"sub": sub, "email": email})` at time `now`. */
  function CreateAccessToken(c: Crypto, sub: string, email: string, now: int): string
  {
    c.encode(AccessClaims(sub, email, now))
  }

  /** `get_current_user`: decode the bearer token, read `sub`, look the user up
      by id. Every failure is a 401, each with its own message. */
  function Authenticate(c: Crypto, users: seq<Doc>, token: string, now: int): (r: Result<Doc>)
    ensures r.Failure? ==> r.error.status == 401
    ensures c.decode(token, now) == ExpiredSignature ==> r == Failure(HttpError(401, "Token has expired"))
    ensures c.decode(token, now) == InvalidToken ==> r == Failure(HttpError(401, "Could not validate credentials"))
    ensures c.decode(token, now).Payload? && c.decode(token, now).claims.sub.None? ==>
              r == Failure(HttpError(401, "Invalid authentication credentials"))
    ensures r.Success? <==>
              c.decode(token, now).Payload? && c.decode(token, now).claims.sub.Some? &&
              exists i :: 0 <= i < |users| && Get(users[i], "id") == Str(c.decode(token, now).claims.sub.value)
    ensures r.Success? ==> "password" !in r.value
    ensures r.Success? ==> Get(r.value, "id") == Str(c.decode(token, now).claims.sub.value)
    ensures r.Success? ==>
              exists i :: 0 <= i < |users| && Get(users[i], "id") == Str(c.decode(token, now).claims.sub.value) &&
                (forall j :: 0 <= j < i ==> Get(users[j], "id") != Str(c.decode(token, now).claims.sub.value)) &&
                r.value == UserObject(users[i])
  {
    match c.decode(token, now)
    case ExpiredSignature => Failure(HttpError(401, "Token has expired"))
    case InvalidToken => Failure(HttpError(401, "Could not validate credentials"))
    case Payload(cl) =>
      if cl.sub.None? then Failure(HttpError(401, "Invalid authentication credentials"))
      else
        var q := map["id" := Str(cl.sub.value)];
        assert forall i :: 0 <= i < |users| ==> (Matches(users[i], q) <==> Get(users[i], "id") == Str(cl.sub.value));
        match FindOne(users, q)
        case None => Failure(HttpError(401, "User not found"))
        case Some(doc) =>
          var i := FirstMatch(users, q).value;
          assert doc == users[i] && Matches(users[i], q);
          Success(UserObject(doc))
  }

  /** A token issued at `now` for a stored user identifies that user until
      exactly `TokenLifetime` seconds later, and is expired from then on. */
  lemma IssuedTokenLifetime(c: Crypto, users: seq<Doc>, i: nat, email: string, now: int, later: int)
    requires Sound(c)
    requires i < |users| && Get(users[i], "id").Str?
    requires forall j :: 0 <= j < i ==> Get(users[j], "id") != Get(users[i], "id")
    ensures var token := CreateAccessToken(c, Get(users[i], "id").s, email, now);
            Authenticate(c, users, token, later) ==
              if later < now + 10080 * 60 then Success(UserObject(users[i]))
              else Failure(HttpError(401, "Token has expired"))
  {
    var id := Get(users[i], "id").s;
    var cl := AccessClaims(id, email, now);
    assert c.decode(c.encode(cl), later) == if later < cl.exp then Payload(cl) else ExpiredSignature;
    if later < cl.exp {
      var q := map["id" := Str(id)];
      forall j | 0 <= j < i ensures !Matches(users[j], q) {
        assert Get(users[j], "id") != Str(id);
      }
      FirstMatchAt(users, q, i);
    }
  }

  /** The document `register` stores before adding the password: the model's
      fields with `available_to_donate` defaulting to true. */
  function NewUser(data: UserCreate, id: string, now: int): (u: Doc)
    ensures u.Keys == UserFields
    ensures u["id"] == Str(id) && u["email"] == Str(data.email)
    ensures u["available_to_donate"] == Bool(true)
  {
    map[
      "id" := Str(id), "email" := Str(data.email), "full_name" := Str(data.full_name),
      "role" := Str(data.role), "blood_type" := OptStr(data.blood_type),
      "phone" := OptStr(data.phone), "location" := OptStr(data.location),
      "city" := OptStr(data.city), "state" := OptStr(data.state),
      "available_to_donate" := Bool(true), "created_at" := Int(now)]
  }

  /** The stored user document: the user's fields plus the password hash. */
  function StoredUser(c: Crypto, data: UserCreate, salt: nat, id: string, now: int): (d: Doc)
    ensures d.Keys == UserFields + {"password"}
    ensures d["password"] == Str(c.hash(data.password, salt))
    ensures UserObject(d) == NewUser(data, id, now)
  {
    var u := NewUser(data, id, now);
    var d := u["password" := Str(c.hash(data.password, salt))];
    assert UserObject(d) == u;
    d
  }

  /** `POST /auth/login`. An unknown email and a wrong password give the same
      error; a stored user without a usable password field is a server error. */
  function Login(c: Crypto, users: seq<Doc>, email: string, password: string, now: int)
    : (r: Result<TokenResponse>)
    ensures r == Failure(InvalidLogin) <==>
              match FindOne(users, map["email" := Str(email)])
              case None => true
              case Some(d) => Get(d, "password").Str? && !c.check(password, Get(d, "password").s)
    ensures r.Success? ==> exists i :: 0 <= i < |users| && Get(users[i], "email") == Str(email) &&
                                       r.value.user == UserObject(users[i])
    ensures r.Success? ==> "password" !in r.value.user && r.value.token_type == "bearer"
    ensures r.Success? && Get(r.value.user, "id").Str? ==>
              r.value.access_token == CreateAccessToken(c, Get(r.value.user, "id").s, email, now)
    ensures match FindOne(users, map["email" := Str(email)])
            case None => true
            case Some(d) => Get(d, "password").Str? && c.check(password, Get(d, "password").s) ==>
                              r.Success? && r.value.user == UserObject(d)
  {
    match FindOne(users, map["email" := Str(email)])
    case None => Failure(InvalidLogin)
    case Some(d) =>
      if !Get(d, "password").Str? then Failure(HttpError(500, "Internal Server Error"))
      else if !c.check(password, Get(d, "password").s) then Failure(InvalidLogin)
      else
        assert Matches(d, map["email" := Str(email)]);
        var user := UserObject(d);
        var token := match Get(user, "id") case Str(id) => CreateAccessToken(c, id, email, now) case _ => c.encode(Claims(None, email, now + TokenLifetime));
        Success(TokenResponse(token, "bearer", user))
  }

  /** One optional query filter: the key is added, with the string value,
      only when the value is truthy; every other key is kept as it was. */
  function AddFilter(q: Query, key: string, v: Option<string>): (r: Query)
    ensures r.Keys == q.Keys + (if Truthy(v) then {key} else {})
    ensures Truthy(v) ==> r[key] == Str(v.value)
    ensures forall k :: k in q && k != key ==> r[k] == q[k]
    ensures !Truthy(v) ==> r == q
  {
    if Truthy(v) then q[key := Str(v.value)] else q
  }

  /** The query of `GET /blood-requests`: `status` (default "active") always,
      each other filter only when truthy. */
  function BloodRequestQuery(bloodType: Option<string>, city: Option<string>,
                             urgency: Option<string>, status: Option<string>): (q: Query)
    ensures q.Keys == {"status"} + (if Truthy(bloodType) then {"blood_type"} else {})
                                 + (if Truthy(city) then {"city"} else {})
                                 + (if Truthy(urgency) then {"urgency"} else {})
    ensures q["status"] == Str(status.GetOr("active"))
    ensures Truthy(bloodType) ==> q["blood_type"] == Str(bloodType.value)
    ensures Truthy(city) ==> q["city"] == Str(city.value)
    ensures Truthy(urgency) ==> q["urgency"] == Str(urgency.value)
  {
    var base := map["status" := Str(status.GetOr("active"))];
    AddFilter(AddFilter(AddFilter(base, "blood_type", bloodType), "city", city), "urgency", urgency)
  }

  /** The handler's `query` dict, built one filter at a time. */
  method BuildRequestQuery(bloodType: Option<string>, city: Option<string>,
                           urgency: Option<string>, status: Option<string>)
    returns (query: Query)
    ensures query == BloodRequestQuery(bloodType, city, urgency, status)
  {
    query := map["status" := Str(status.GetOr("active"))];
    ghost var base := query;
    if Truthy(bloodType) {
      query := query["blood_type" := Str(bloodType.value)];
    }
    assert query == AddFilter(base, "blood_type", bloodType);
    ghost var withType := query;
    if Truthy(city) {
      query := query["city" := Str(city.value)];
    }
    assert query == AddFilter(withType, "city", city);
    ghost var withCity := query;
    if Truthy(urgency) {
      query := query["urgency" := Str(urgency.value)];
    }
    assert query == AddFilter(withCity, "urgency", urgency);
  }

  /** The query of `GET /donors/match`: available donors of the blood type,
      plus the city and state when truthy. */
  function DonorQuery(bloodType: string, city: Option<string>, state: Option<string>): (q: Query)
    ensures q.Keys == {"role", "blood_type", "available_to_donate"}
                      + (if Truthy(city) then {"city"} else {})
                      + (if Truthy(state) then {"state"} else {})
    ensures q["role"] == Str("donor") && q["blood_type"] == Str(bloodType)
    ensures q["available_to_donate"] == Bool(true)
    ensures Truthy(city) ==> q["city"] == Str(city.value)
    ensures Truthy(state) ==> q["state"] == Str(state.value)
  {
    var base := map["role" := Str("donor"), "blood_type" := Str(bloodType), "available_to_donate" := Bool(true)];
    AddFilter(AddFilter(base, "city", city), "state", state)
  }

  /** The handler's `query` dict for donor matching, built one filter at a time. */
  method BuildDonorQuery(bloodType: string, city: Option<string>, state: Option<string>)
    returns (query: Query)
    ensures query == DonorQuery(bloodType, city, state)
  {
    query := map["role" := Str("donor"), "blood_type" := Str(bloodType), "available_to_donate" := Bool(true)];
    ghost var base := query;
    if Truthy(city) {
      query := query["city" := Str(city.value)];
    }
    assert query == AddFilter(base, "city", city);
    ghost var withCity := query;
    if Truthy(state) {
      query := query["state" := Str(state.value)];
    }
    assert query == AddFilter(withCity, "state", state);
  }

  /** The query of `GET /medical-facilities`: only the truthy filters, so it is
      empty when neither is given. */
  function FacilityQuery(city: Option<string>, facilityType: Option<string>): (q: Query)
    ensures q.Keys == (if Truthy(city) then {"city"} else {})
                      + (if Truthy(facilityType) then {"facility_type"} else {})
    ensures Truthy(city) ==> q["city"] == Str(city.value)
    ensures Truthy(facilityType) ==> q["facility_type"] == Str(facilityType.value)
    ensures !Truthy(city) && !Truthy(facilityType) ==> q == map[]
  {
    AddFilter(AddFilter(map[], "city", city), "facility_type", facilityType)
  }

  /** The handler's `query` dict for facilities, built one filter at a time. */
  method BuildFacilityQuery(city: Option<string>, facilityType: Option<string>)
    returns (query: Query)
    ensures query == FacilityQuery(city, facilityType)
  {
    query := map[];
    if Truthy(city) {
      query := query["city" := Str(city.value)];
    }
    assert query == AddFilter(map[], "city", city);
    ghost var withCity := query;
    if Truthy(facilityType) {
      query := query["facility_type" := Str(facilityType.value)];
    }
    assert query == AddFilter(withCity, "facility_type", facilityType);
  }

  class Database {
    var users: seq<Doc>
    var bloodRequests: seq<Doc>
    var facilities: seq<Doc>
    var donations: seq<Doc>

    constructor (users: seq<Doc>, bloodRequests: seq<Doc>, facilities: seq<Doc>, donations: seq<Doc>)
      ensures this.users == users && this.bloodRequests == bloodRequests
      ensures this.facilities == facilities && this.donations == donations
    {
      this.users := users;
      this.bloodRequests := bloodRequests;
      this.facilities := facilities;
      this.donations := donations;
    }

    /** `POST /auth/register`: a second registration of an email is refused
        and nothing is stored; otherwise the user is appended with the hash of
        the password, and the response carries the user without a password. */
    method Register(c: Crypto, data: UserCreate, salt: nat, newId: string, now: int)
      returns (r: Result<TokenResponse>)
      modifies this
      ensures bloodRequests == old(bloodRequests) && facilities == old(facilities)
      ensures donations == old(donations)
      ensures FindOne(old(users), map["email" := Str(data.email)]).Some? ==>
                r == Failure(HttpError(400, "Email already registered")) && users == old(users)
      ensures FindOne(old(users), map["email" := Str(data.email)]).None? ==>
                && users == old(users) + [StoredUser(c, data, salt, newId, now)]
                && r == Success(TokenResponse(CreateAccessToken(c, newId, data.email, now), "bearer",
                                              NewUser(data, newId, now)))
    {
      var existing := FindOne(users, map["email" := Str(data.email)]);
      if existing.Some? {
        return Failure(HttpError(400, "Email already registered"));
      }
      var hashed := c.hash(data.password, salt);
      var user := NewUser(data, newId, now);
      var doc := user["password" := Str(hashed)];
      users := users + [doc];
      var token := CreateAccessToken(c, newId, data.email, now);
      r := Success(TokenResponse(token, "bearer", user));
    }

    /** `GET /blood-requests`: the matching requests, newest first, at most
        1000; every one carries the requested status. */
    method GetBloodRequests(bloodType: Option<string>, city: Option<string>,
                            urgency: Option<string>, status: Option<string>)
      returns (query: Query, result: seq<Doc>)
      ensures query == BloodRequestQuery(bloodType, city, urgency, status)
      ensures result == Find(bloodRequests, query, "created_at", Descending)
      ensures forall i :: 0 <= i < |result| ==> Get(result[i], "status") == Str(status.GetOr("active"))
    {
      query := BuildRequestQuery(bloodType, city, urgency, status);
      result := Find(bloodRequests, query, "created_at", Descending);
      AllMatchField(result, query, "status");
    }

    /** `PATCH /blood-requests/{id}/status`: on the first request with that id,
        `status` is set and `fulfilled_at` is the current time exactly when
        the new status is "fulfilled" (null otherwise); an unknown id is a 404
        that changes nothing. */
    method UpdateRequestStatus(c: Crypto, token: string, now: int, requestId: string, status: string)
      returns (r: Result<string>)
      modifies this
      ensures users == old(users) && facilities == old(facilities) && donations == old(donations)
      ensures Authenticate(c, users, token, now).Failure? ==>
                r == Failure(Authenticate(c, users, token, now).error) && bloodRequests == old(bloodRequests)
      ensures Authenticate(c, users, token, now).Success? ==>
                match FirstMatch(old(bloodRequests), map["id" := Str(requestId)])
                case None =>
                  r == Failure(HttpError(404, "Blood request not found")) && bloodRequests == old(bloodRequests)
                case Some(i) =>
                  && r == Success("Status updated successfully")
                  && bloodRequests == old(bloodRequests)[i := old(bloodRequests)[i]
                       ["status" := Str(status)]
                       ["fulfilled_at" := if status == "fulfilled" then Int(now) else Null]]
    {
      var auth := Authenticate(c, users, token, now);
      if auth.Failure? {
        return Failure(auth.error);
      }
      var target := FirstMatch(bloodRequests, map["id" := Str(requestId)]);
      if target.None? {
        return Failure(HttpError(404, "Blood request not found"));
      }
      var i := target.value;
      var fulfilledAt := if status == "fulfilled" then Int(now) else Null;
      bloodRequests := bloodRequests[i := bloodRequests[i]["status" := Str(status)]["fulfilled_at" := fulfilledAt]];
      r := Success("Status updated successfully");
    }

    /** `GET /donors/match`: available donors of exactly the given blood type,
        optionally in a city and state, in collection order, at most 1000,
        without their password hashes. */
    method FindMatchingDonors(bloodType: string, city: Option<string>, state: Option<string>)
      returns (query: Query, result: seq<Doc>)
      ensures query == DonorQuery(bloodType, city, state)
      ensures result == Project(FindUnsorted(users, query), {"password"})
      ensures forall i :: 0 <= i < |result| ==>
                && "password" !in result[i]
                && Get(result[i], "role") == Str("donor")
                && Get(result[i], "blood_type") == Str(bloodType)
                && Get(result[i], "available_to_donate") == Bool(true)
    {
      query := BuildDonorQuery(bloodType, city, state);
      var found := FindUnsorted(users, query);
      result := Project(found, {"password"});
      ProjectMatchField(found, query, {"password"}, "role");
      ProjectMatchField(found, query, {"password"}, "blood_type");
      ProjectMatchField(found, query, {"password"}, "available_to_donate");
    }

    /** `GET /medical-facilities`: the facilities matching the truthy
        filters, sorted by name, at most 1000. */
    method GetMedicalFacilities(city: Option<string>, facilityType: Option<string>)
      returns (query: Query, result: seq<Doc>)
      ensures query == FacilityQuery(city, facilityType)
      ensures result == Find(facilities, query, "name", Ascending)
    {
      query := BuildFacilityQuery(city, facilityType);
      result := Find(facilities, query, "name", Ascending);
    }

    /** `POST /donation-history`: only donors may record a donation (403
        otherwise, nothing stored); the record's donor is the current user. */
    method CreateDonationHistory(c: Crypto, token: string, now: int, data: DonationCreate, newId: string)
      returns (r: Result<Doc>)
      modifies this
      ensures users == old(users) && bloodRequests == old(bloodRequests) && facilities == old(facilities)
      ensures Authenticate(c, users, token, now).Failure? ==>
                r == Failure(Authenticate(c, users, token, now).error) && donations == old(donations)
      ensures Authenticate(c, users, token, now).Success? ==>
                var user := Authenticate(c, users, token, now).value;
                if Get(user, "role") != Str("donor") then
                  r == Failure(HttpError(403, "Only donors can record donations")) && donations == old(donations)
                else
                  && r == Success(NewDonation(data, user, newId, now))
                  && donations == old(donations) + [NewDonation(data, user, newId, now)]
    {
      var auth := Authenticate(c, users, token, now);
      if auth.Failure? {
        return Failure(auth.error);
      }
      var user := auth.value;
      if Get(user, "role") != Str("donor") {
        return Failure(HttpError(403, "Only donors can record donations"));
      }
      var doc := NewDonation(data, user, newId, now);
      donations := donations + [doc];
      r := Success(doc);
    }

    /** `GET /donation-history`: the current user's own records, newest first. */
    method GetDonationHistory(c: Crypto, token: string, now: int)
      returns (query: Query, r: Result<seq<Doc>>)
      ensures Authenticate(c, users, token, now).Failure? ==>
                r == Failure(Authenticate(c, users, token, now).error)
      ensures Authenticate(c, users, token, now).Success? ==>
                var user := Authenticate(c, users, token, now).value;
                && query == map["donor_id" := Get(user, "id")]
                && r == Success(Find(donations, query, "donation_date", Descending))
      ensures r.Success? ==> forall i :: 0 <= i < |r.value| ==>
                Get(r.value[i], "donor_id") == Get(Authenticate(c, users, token, now).value, "id")
    {
      query := map[];
      var auth := Authenticate(c, users, token, now);
      if auth.Failure? {
        return query, Failure(auth.error);
      }
      query := map["donor_id" := Get(auth.value, "id")];
      var history := Find(donations, query, "donation_date", Descending);
      r := Success(history);
      forall i | 0 <= i < |history| ensures Get(history[i], "donor_id") == Get(auth.value, "id") {
        MatchedField(history[i], query, "donor_id");
      }
    }
  }

  /** With no filter every facility is listed, up to the cap. */
  lemma {:induction false} FindAll(coll: seq<Doc>, key: string, dir: Direction)
    ensures |Find(coll, map[], key, dir)| == if |coll| <= MaxResults then |coll| else MaxResults
    ensures |coll| <= MaxResults ==> multiset(Find(coll, map[], key, dir)) == multiset(coll)
  {
    FilterEmptyQuery(coll);
  }

  /** The empty query matches every document. */
  lemma {:induction false} FilterEmptyQuery(coll: seq<Doc>)
    ensures Filter(coll, map[]) == coll
  {
    if |coll| > 0 {
      FilterEmptyQuery(coll[1..]);
      assert coll == [coll[0]] + coll[1..];
    }
  }

  /** The stored donation: the request body plus the id, the current user as
      donor and the current time as the donation date. */
  function NewDonation(data: DonationCreate, user: Doc, id: string, now: int): (d: Doc)
    ensures d.Keys == {"id", "donor_id", "donor_name", "blood_request_id", "blood_type",
                       "units_donated", "donation_date", "hospital_name", "city"}
    ensures d["donor_id"] == Get(user, "id") && d["donor_name"] == Get(user, "full_name")
    ensures d["units_donated"] == Int(data.units_donated) && d["donation_date"] == Int(now)
  {
    map[
      "id" := Str(id), "donor_id" := Get(user, "id"), "donor_name" := Get(user, "full_name"),
      "blood_request_id" := OptStr(data.blood_request_id), "blood_type" := Str(data.blood_type),
      "units_donated" := Int(data.units_donated), "donation_date" := Int(now),
      "hospital_name" := Str(data.hospital_name), "city" := Str(data.city)]
  }

  /** Logging in with the registered password finds the newly stored user,
      since no earlier user has that email. */
  lemma LoginAfterStore(c: Crypto, users: seq<Doc>, data: UserCreate, salt: nat, newId: string, now: int, later: int)
    requires Sound(c)
    requires forall i :: 0 <= i < |users| ==> Get(users[i], "email") != Str(data.email)
    ensures var r := Login(c, users + [StoredUser(c, data, salt, newId, now)], data.email, data.password, later);
            r.Success? && r.value.user == NewUser(data, newId, now)
  {
    var stored := StoredUser(c, data, salt, newId, now);
    var all := users + [stored];
    var q := map["email" := Str(data.email)];
    assert Matches(stored, q);
    forall j | 0 <= j < |users| ensures !Matches(all[j], q) {
      assert all[j] == users[j];
    }
    FirstMatchAt(all, q, |users|);
    assert c.check(data.password, c.hash(data.password, salt));
  }

  /** When no earlier user has the new user's id either, the token that login
      returns identifies that user until exactly 10080 minutes after the
      login, and is expired from then on. */
  lemma LoginTokenLifetime(c: Crypto, users: seq<Doc>, data: UserCreate, salt: nat, newId: string,
                           now: int, later: int, at: int)
    requires Sound(c)
    requires forall i :: 0 <= i < |users| ==> Get(users[i], "email") != Str(data.email)
    requires forall i :: 0 <= i < |users| ==> Get(users[i], "id") != Str(newId)
    ensures var all := users + [StoredUser(c, data, salt, newId, now)];
            var r := Login(c, all, data.email, data.password, later);
            r.Success? &&
            Authenticate(c, all, r.value.access_token, at) ==
              if at < later + 10080 * 60 then Success(NewUser(data, newId, now))
              else Failure(HttpError(401, "Token has expired"))
  {
    var stored := StoredUser(c, data, salt, newId, now);
    var all := users + [stored];
    LoginAfterStore(c, users, data, salt, newId, now, later);
    var r := Login(c, all, data.email, data.password, later);
    assert Get(r.value.user, "id") == Str(newId);
    forall j | 0 <= j < |users| ensures Get(all[j], "id") != Get(all[|users|], "id") {
      assert all[j] == users[j];
    }
    IssuedTokenLifetime(c, all, |users|, data.email, later, at);
  }

  /** Registering and then logging in with the same password returns the
      registered user, without its password. */
  method RegisterThenLogin(c: Crypto, users: seq<Doc>, data: UserCreate, salt: nat, newId: string, now: int, later: int)
    returns (registered: Result<TokenResponse>, loggedIn: Result<TokenResponse>)
    requires Sound(c)
    requires forall i :: 0 <= i < |users| ==> Get(users[i], "email") != Str(data.email)
    ensures registered.Success? && loggedIn.Success?
    ensures loggedIn.value.user == registered.value.user
    ensures "password" !in loggedIn.value.user
  {
    var db := new Database(users, [], [], []);
    var q := map["email" := Str(data.email)];
    assert forall i :: 0 <= i < |users| ==> !Matches(users[i], q);
    registered := db.Register(c, data, salt, newId, now);
    LoginAfterStore(c, users, data, salt, newId, now, later);
    loggedIn := Login(c, db.users, data.email, data.password, later);
  }
}
