/**
 * The in-memory user registry and the claims side of the access tokens. Password hashing,
 * password checking and the token signature are foreign calls and appear as parameters.
 */
module Auth {
  import opened Wrappers
  import opened Externals

  /** `ACCESS_TOKEN_EXPIRE_MINUTES`: seven days. */
  const AccessTokenExpireMinutes: int := 60 * 24 * 7

  const DemoEmail := "demo@example.com"
  const DemoPassword := "demo123"

  /** A claim value: a string, an instant (seconds since the epoch) or JSON `null`. */
  datatype ClaimValue = Text(text: string) | Instant(seconds: real) | Null

  type Claims = map<string, ClaimValue>

  /** How long a token lives: the given delta unless it is missing or zero (a falsy `timedelta`). */
  function ExpiryDelta(expiresDelta: Option<real>): (d: real)
    ensures expiresDelta.Some? && expiresDelta.value != 0.0 ==> d == expiresDelta.value
    ensures expiresDelta.None? || expiresDelta.value == 0.0 ==> d == (AccessTokenExpireMinutes * 60) as real
  {
    if expiresDelta.Some? && expiresDelta.value != 0.0 then expiresDelta.value
    else (AccessTokenExpireMinutes * 60) as real
  }

  /**
   * The claims `create_access_token` signs at time `now`: a copy of the caller's claims (which
   * stay as they were) with `exp` set, replacing any `exp` the caller gave.
   */
  function AccessTokenClaims(data: Claims, expiresDelta: Option<real>, now: real): (claims: Claims)
    ensures claims.Keys == data.Keys + {"exp"}
    ensures forall k :: k in data && k != "exp" ==> claims[k] == data[k]
    ensures claims["exp"] == Instant(now + ExpiryDelta(expiresDelta))
  {
    data["exp" := Instant(now + ExpiryDelta(expiresDelta))]
  }

  /**
   * `get_user_id_from_token`: `decode` stands for `decode_token` (`None` for a token that does
   * not verify). A missing or null `sub` gives `None`; otherwise `sub` is returned as it is.
   */
  function UserIdFromToken(token: string, decode: string -> Option<Claims>): (r: Option<ClaimValue>)
    ensures r.None? <==> decode(token).None? || "sub" !in decode(token).value || decode(token).value["sub"] == Null
    ensures r.Some? ==> r.value == decode(token).value["sub"]
  {
    var payload := decode(token);
    if payload.None? then None
    else if "sub" !in payload.value || payload.value["sub"] == Null then None
    else Some(payload.value["sub"])
  }

  /** A token made for a user id gives that id back, provided decoding returns what was signed. */
  lemma TokenCarriesSubject(userId: string, expiresDelta: Option<real>, now: real, encode: Claims -> string, decode: string -> Option<Claims>)
    requires decode(encode(AccessTokenClaims(map["sub" := Text(userId)], expiresDelta, now))) ==
      Some(AccessTokenClaims(map["sub" := Text(userId)], expiresDelta, now))
    ensures UserIdFromToken(encode(AccessTokenClaims(map["sub" := Text(userId)], expiresDelta, now)), decode) == Some(Text(userId))
  {
    var claims := AccessTokenClaims(map["sub" := Text(userId)], expiresDelta, now);
    assert "sub" in claims && claims["sub"] == Text(userId);
  }

  /** The entry `create_user` stores for one user. */
  datatype UserRecord = UserRecord(email: string, passwordHash: string, createdAt: string)

  /** Every id of the insertion order is registered. */
  predicate Registered(order: seq<string>, users: map<string, UserRecord>) {
    forall i :: 0 <= i < |order| ==> order[i] in users
  }

  /** The position in insertion order of the first user with this email. */
  function FirstWithEmail(order: seq<string>, users: map<string, UserRecord>, email: string): (r: Option<nat>)
    requires Registered(order, users)
    ensures r.Some? ==> r.value < |order| && users[order[r.value]].email == email
    ensures r.Some? ==> forall j :: 0 <= j < r.value ==> users[order[j]].email != email
    ensures r.None? <==> forall j :: 0 <= j < |order| ==> users[order[j]].email != email
  {
    if order == [] then None
    else if users[order[0]].email == email then Some(0)
    else
      var rest := FirstWithEmail(order[1..], users, email);
      assert forall j :: 1 <= j < |order| ==> order[j] == order[1..][j - 1];
      if rest.Some? then Some(rest.value + 1) else None
  }

  /**
   * What `authenticate_user` answers: the first user with the email decides, by whether the
   * password verifies against that user's hash; no user with the email gives `None`.
   */
  function Authentication(
    order: seq<string>, users: map<string, UserRecord>, email: string, password: string, verify: (string, string) -> bool
  ): (r: Option<string>)
    requires Registered(order, users)
    ensures r.Some? ==> r.value in users && users[r.value].email == email && verify(password, users[r.value].passwordHash)
    ensures (forall k :: k in users ==> users[k].email != email) ==> r.None?
    ensures r.Some? <==>
      FirstWithEmail(order, users, email).Some? && verify(password, users[order[FirstWithEmail(order, users, email).value]].passwordHash)
  {
    var i := FirstWithEmail(order, users, email);
    if i.None? then None
    else if verify(password, users[order[i.value]].passwordHash) then Some(order[i.value])
    else None
  }

  /** A later user who shares an earlier user's email can never log in, whatever the password. */
  lemma ShadowedUserNeverAuthenticates(
    order: seq<string>, users: map<string, UserRecord>, email: string, password: string, verify: (string, string) -> bool, i: nat, j: nat
  )
    requires Registered(order, users)
    requires forall a, b :: 0 <= a < b < |order| ==> order[a] != order[b]
    requires i < j < |order| && users[order[i]].email == email && users[order[j]].email == email
    ensures Authentication(order, users, email, password, verify) != Some(order[j])
  {
    var k := FirstWithEmail(order, users, email);
    assert k.Some? && k.value <= i;
  }

  /** A user registered under a new email, whose password verifies against its hash, can log in. */
  lemma NewUserAuthenticates(
    order: seq<string>, users: map<string, UserRecord>, userId: string, entry: UserRecord, password: string, verify: (string, string) -> bool
  )
    requires Registered(order, users)
    requires userId !in users
    requires forall k :: k in users ==> users[k].email != entry.email
    requires verify(password, entry.passwordHash)
    ensures Registered(order + [userId], users[userId := entry])
    ensures Authentication(order + [userId], users[userId := entry], entry.email, password, verify) == Some(userId)
  {
    var order' := order + [userId];
    var users' := users[userId := entry];
    assert forall j :: 0 <= j < |order| ==> order'[j] == order[j] && order[j] in users && users'[order[j]] == users[order[j]];
    var k := FirstWithEmail(order', users', entry.email);
    assert k.Some? ==> k.value == |order|;
    assert users'[order'[|order|]].email == entry.email;
  }

  /** The module-level `_USERS` dict, with the order its keys were inserted in. */
  class UserStore {
    var users: map<string, UserRecord>
    var order: seq<string>

    /** `order` lists every registered id once, and nothing else. */
    ghost predicate Valid()
      reads this
    {
      && Registered(order, users)
      && (forall i, j :: 0 <= i < j < |order| ==> order[i] != order[j])
      && (forall k :: k in users ==> k in order)
      && |order| == |users|
    }

    constructor ()
      ensures Valid() && users == map[] && order == []
    {
      users := map[];
      order := [];
    }

    /**
     * `create_user`: one entry under the next uuid, holding the email and the password's hash;
     * nothing else changes. A new id goes to the end of the order; an id already present
     * (uuid4 does not repeat in practice) keeps its place and gets the new entry.
     */
    method CreateUser(email: string, password: string, hash: string -> string, createdAt: string, uuids: UuidSource)
      returns (userId: string)
      requires Valid()
      modifies this, uuids`drawn
      ensures Valid()
      ensures userId == uuids.ids(old(uuids.drawn)) && uuids.drawn == old(uuids.drawn) + 1
      ensures users == old(users)[userId := UserRecord(email, hash(password), createdAt)]
      ensures order == if userId in old(users) then old(order) else old(order) + [userId]
    {
      userId := uuids.Next();
      var passwordHash := hash(password);
      if userId !in users {
        order := order + [userId];
      }
      users := users[userId := UserRecord(email, passwordHash, createdAt)];
    }

    /** `authenticate_user`: the users are scanned in insertion order and the first email match decides. */
    method AuthenticateUser(email: string, password: string, verify: (string, string) -> bool) returns (r: Option<string>)
      requires Valid()
      ensures r == Authentication(order, users, email, password, verify)
    {
      var i := 0;
      while i < |order|
        invariant 0 <= i <= |order|
        invariant forall j :: 0 <= j < i ==> users[order[j]].email != email
      {
        var userId := order[i];
        var entry := users[userId];
        if entry.email == email {
          if verify(password, entry.passwordHash) {
            return Some(userId);
          } else {
            return None;
          }
        }
        i := i + 1;
      }
      r := None;
    }

    /** `get_user_by_id`: a lookup that changes nothing. */
    function UserById(userId: string): (r: Option<UserRecord>)
      reads this
      ensures r.Some? <==> userId in users
      ensures r.Some? ==> r.value == users[userId]
    {
      if userId in users then Some(users[userId]) else None
    }

    /** What importing the module does: an empty registry gets the demo user, a non-empty one is left alone. */
    method SeedDemoUser(hash: string -> string, createdAt: string, uuids: UuidSource) returns (demoId: Option<string>)
      requires Valid()
      modifies this, uuids`drawn
      ensures Valid()
      ensures old(users) == map[] ==>
        && demoId.Some? && order == [demoId.value]
        && users == map[demoId.value := UserRecord(DemoEmail, hash(DemoPassword), createdAt)]
      ensures old(users) != map[] ==>
        demoId.None? && users == old(users) && order == old(order) && uuids.drawn == old(uuids.drawn)
    {
      if users == map[] {
        var userId := CreateUser(DemoEmail, DemoPassword, hash, createdAt, uuids);
        demoId := Some(userId);
      } else {
        demoId := None;
      }
    }
  }
}
