/** Signed texts: customer order tokens (backend/tokens.go) and admin sessions
    (backend/admin_login.go). HMAC-SHA256 is an arbitrary function from key and message to bytes;
    instants are nanoseconds since the Unix epoch. */
module Tokens {
  import opened Wrappers
  import opened GoStrings
  import opened Int64
  import opened Base64Url

  type Mac = f: (string, string) -> string | forall k, m :: IsBytes(f(k, m)) witness (k, m) => ""

  const SECOND := 1_000_000_000
  const HOUR := 3600 * SECOND
  const ORDER_TOKEN_MAX_AGE := 180 * 24 * HOUR

  // time.Time.Unix: whole seconds, rounded down.
  function Unix(t: int): int {
    t / SECOND
  }

  // time.Time.Sub: the difference as a 64-bit duration, clamped at its ends.
  function Sub(t: int, u: int): int {
    var d := t - u;
    if d < INT64_MIN then INT64_MIN else if INT64_MAX < d then INT64_MAX else d
  }

  datatype TokenError =
    | NoKey | Malformed | BadPayload | BadSignature | SignatureMismatch | MalformedPayload
    | InvalidOrderId | InvalidTimestamp | Expired

  predicate HasPrefix(s: string, p: string) {
    p <= s
  }

  function TokenPayload(orderID: string, now: int): string {
    orderID + "." + FormatInt(Unix(now))
  }

  lemma AsciiNumber(n: int)
    ensures IsBytes(FormatInt(n)) && forall c | c in FormatInt(n) :: IsDigit(c) || c == '-'
  {
  }

  function MakeOrderToken(mac: Mac, secret: string, orderID: string, now: int): string
    requires IsBytes(orderID)
  {
    var payload := TokenPayload(orderID, now);
    AsciiNumber(Unix(now));
    Encode(payload) + "." + Encode(mac(secret, payload))
  }

  function ParseOrderToken(mac: Mac, secret: string, token: string, now: int): Result<string, TokenError> {
    if secret == "" then Err(NoKey) else
    var parts := SplitN(token, '.', 2);
    if |parts| != 2 then Err(Malformed) else
    var payload := Decode(parts[0]);
    if payload.None? then Err(BadPayload) else
    var sig := Decode(parts[1]);
    if sig.None? then Err(BadSignature) else
    if sig.value != mac(secret, payload.value) then Err(SignatureMismatch) else
    ReadPayload(payload.value, now)
  }

  // What an authentic payload says.
  function ReadPayload(payload: string, now: int): Result<string, TokenError> {
    var inner := SplitN(payload, '.', 2);
    if |inner| != 2 then Err(MalformedPayload) else
    var orderID := TrimSpace(inner[0]);
    if !HasPrefix(orderID, "ord_") || |orderID| > 64 then Err(InvalidOrderId) else
    var ts := ParseInt64(inner[1]);
    if ts.None? then Err(InvalidTimestamp) else
    var d := Sub(now, ts.value * SECOND);
    if d < -HOUR || d > ORDER_TOKEN_MAX_AGE then Err(Expired) else Ok(orderID)
  }

  // The ids a token can carry.
  predicate TokenSafe(id: string) {
    '.' !in id && TrimSpace(id) == id && HasPrefix(id, "ord_") && |id| <= 64
  }

  lemma {:induction false} NoDots(s: string)
    requires AllSymbols(s)
    ensures '.' !in s && ':' !in s
  {
  }

  // Reading back a token made with the same key: its payload and signature come through.
  lemma TokenParts(mac: Mac, secret: string, orderID: string, issued: int)
    requires IsBytes(orderID)
    ensures var payload := TokenPayload(orderID, issued);
            var parts := SplitN(MakeOrderToken(mac, secret, orderID, issued), '.', 2);
            && |parts| == 2 && Decode(parts[0]) == Some(payload) && Decode(parts[1]) == Some(mac(secret, payload))
  {
    var payload := TokenPayload(orderID, issued);
    AsciiNumber(Unix(issued));
    assert IsBytes(payload);
    var a, b := Encode(payload), Encode(mac(secret, payload));
    DecodeOfEncode(payload);
    DecodeOfEncode(mac(secret, payload));
    NoDots(a);
    hide Encode, Decode, SplitN;
    SplitNJoin(a, '.', b, 2);
    SplitNOnce(b, '.');
  }

  lemma PayloadParts(orderID: string, issued: int)
    ensures var inner := SplitN(TokenPayload(orderID, issued), '.', 2);
            && |inner| == 2
            && ('.' !in orderID ==> inner == [orderID, FormatInt(Unix(issued))])
            && ('.' in orderID ==> |inner[0]| < |orderID|)
  {
    var ts := FormatInt(Unix(issued));
    if '.' !in orderID {
      SplitNJoin(orderID, '.', ts, 2);
      SplitNOnce(ts, '.');
    } else {
      var i := IndexOf(orderID, '.');
      var head, tail := orderID[..i], orderID[i + 1..];
      assert TokenPayload(orderID, issued) == head + ['.'] + (tail + "." + ts);
      SplitNJoin(head, '.', tail + "." + ts, 2);
    }
  }

  /** An order token parses back to the id it was made for exactly when that id can be carried and
      the clock is between one hour before and 180 days after the second it was made in. */
  lemma OrderTokenRoundTrip(mac: Mac, secret: string, orderID: string, issued: int, now: int)
    requires secret != "" && IsBytes(orderID) && InInt64(Unix(issued))
    ensures ParseOrderToken(mac, secret, MakeOrderToken(mac, secret, orderID, issued), now) == Ok(orderID)
       <==> TokenSafe(orderID)
            && Unix(issued) * SECOND - HOUR <= now <= Unix(issued) * SECOND + ORDER_TOKEN_MAX_AGE
  {
    hide Encode, Decode, SplitN, MakeOrderToken, TokenPayload, ReadPayload, TokenSafe;
    TokenParts(mac, secret, orderID, issued);
    PayloadRoundTrip(orderID, issued, now);
  }

  lemma PayloadRoundTrip(orderID: string, issued: int, now: int)
    requires InInt64(Unix(issued))
    ensures ReadPayload(TokenPayload(orderID, issued), now) == Ok(orderID)
       <==> TokenSafe(orderID)
            && Unix(issued) * SECOND - HOUR <= now <= Unix(issued) * SECOND + ORDER_TOKEN_MAX_AGE
  {
    hide SplitN, TrimSpace, ParseInt64, FormatInt, TokenPayload, Unix;
    PayloadParts(orderID, issued);
    ParseOfFormat(Unix(issued));
  }

  // The pieces of a genuine order token: two encoded halves, the second the keyed hash of the first, which
  // says for which order and at which second it was issued.
  ghost predicate Genuine(mac: Mac, secret: string, token: string, orderID: string, issued: int,
                          head: string, sig: string, payload: string, inner: string, stamp: string) {
    && token == head + ['.'] + sig && '.' !in head
    && Decode(head) == Some(payload) && Decode(sig) == Some(mac(secret, payload))
    && payload == inner + ['.'] + stamp && '.' !in inner
    && TrimSpace(inner) == orderID && HasPrefix(orderID, "ord_") && |orderID| <= 64
    && ParseInt64(stamp) == Some(issued)
  }

  /** Only tokens whose second half is the hash of their first are accepted, for the order they name, and only
      from an hour before to 180 days after the second they name. */
  lemma AcceptedTokenIsGenuine(mac: Mac, secret: string, token: string, now: int)
    returns (issued: int, head: string, sig: string, payload: string, inner: string, stamp: string)
    requires ParseOrderToken(mac, secret, token, now).Ok?
    ensures secret != ""
    ensures Genuine(mac, secret, token, ParseOrderToken(mac, secret, token, now).value, issued,
                    head, sig, payload, inner, stamp)
    ensures issued * SECOND - HOUR <= now <= issued * SECOND + ORDER_TOKEN_MAX_AGE
  {
    hide SplitN, Decode, TrimSpace, ParseInt64;
    var parts := SplitN(token, '.', 2);
    SplitNApart(token, '.', 2);
    head, sig := parts[0], parts[1];
    SplitNOnce(token[IndexOf(token, '.') + 1..], '.');
    payload := Decode(head).value;
    var halves := SplitN(payload, '.', 2);
    SplitNApart(payload, '.', 2);
    inner, stamp := halves[0], halves[1];
    SplitNOnce(payload[IndexOf(payload, '.') + 1..], '.');
    issued := ParseInt64(stamp).value;
  }

  /** And within that time every such token is. */
  lemma GenuineTokenIsAccepted(mac: Mac, secret: string, token: string, orderID: string, issued: int, now: int,
                               head: string, sig: string, payload: string, inner: string, stamp: string)
    requires secret != "" && Genuine(mac, secret, token, orderID, issued, head, sig, payload, inner, stamp)
    ensures ParseOrderToken(mac, secret, token, now) == Ok(orderID)
       <==> issued * SECOND - HOUR <= now <= issued * SECOND + ORDER_TOKEN_MAX_AGE
  {
    hide SplitN, Decode, TrimSpace, ParseInt64;
    SplitNJoin(head, '.', sig, 2);
    SplitNOnce(sig, '.');
    SplitNJoin(inner, '.', stamp, 2);
    SplitNOnce(stamp, '.');
  }

  // ----- Admin sessions -----

  function SessionPayload(username: string, expires: int): string {
    "sessionV1" + ":" + (FormatInt(expires) + ":" + username)
  }

  function MakeSession(mac: Mac, secret: string, ttl: int, username: string, now: int): string {
    var payload := SessionPayload(username, Unix(now + ttl));
    payload + ":" + Encode(mac(secret, payload))
  }

  datatype SessionError = SessionInvalid

  function VerifySession(mac: Mac, secret: string, token: string, now: int): Result<string, SessionError> {
    if secret == "" then Err(SessionInvalid) else
    var parts := SplitN(token, ':', 4);
    if |parts| != 4 || parts[0] != "sessionV1" then Err(SessionInvalid) else
    var expires := ParseInt64(parts[1]);
    if expires.None? then Err(SessionInvalid) else
    if Unix(now) > expires.value then Err(SessionInvalid) else
    var payload := parts[0] + ":" + (parts[1] + ":" + parts[2]);
    var sig := Decode(parts[3]);
    if sig.None? then Err(SessionInvalid) else
    if mac(secret, payload) != sig.value then Err(SessionInvalid) else Ok(parts[2])
  }

  // How a session text splits: at the first colon of the user name when it has one.
  lemma SessionParts(username: string, expires: int, sig: string)
    requires ':' !in sig
    ensures var parts := SplitN(SessionPayload(username, expires) + ":" + sig, ':', 4);
            && |parts| == 4 && parts[0] == "sessionV1" && parts[1] == FormatInt(expires)
            && (':' !in username ==> parts[2] == username && parts[3] == sig)
            && (':' in username ==> ':' in parts[3])
  {
    var exp := FormatInt(expires);
    AsciiNumber(expires);
    hide SplitN, FormatInt, IndexOf;
    var rest := username + [':'] + sig;
    Assoc("sessionV1" + [':'], exp + [':'] + username, [':'] + sig);
    Assoc(exp + [':'], username, [':'] + sig);
    Assoc(username, [':'], sig);
    Assoc(SessionPayload(username, expires), [':'], sig);
    SplitNJoin("sessionV1", ':', exp + [':'] + rest, 4);
    SplitNJoin(exp, ':', rest, 3);
    LastParts(username, sig);
  }

  lemma LastParts(username: string, sig: string)
    requires ':' !in sig
    ensures var parts := SplitN(username + [':'] + sig, ':', 2);
            && |parts| == 2
            && (':' !in username ==> parts == [username, sig])
            && (':' in username ==> ':' in parts[1])
  {
    if ':' !in username {
      SplitNJoin(username, ':', sig, 2);
      SplitNOnce(sig, ':');
    } else {
      var i := IndexOf(username, ':');
      hide SplitN, IndexOf;
      var head, tail := username[..i], username[i + 1..];
      assert username == (head + [':']) + tail;
      Assoc(head + [':'], tail, [':']);
      Assoc(head + [':'], tail + [':'], sig);
      SplitNJoin(head, ':', tail + [':'] + sig, 2);
      SplitNOnce(tail + [':'] + sig, ':');
    }
  }

  /** An admin session verifies, to the user it was made for, exactly when that name has no colon
      and the clock has not passed the second it expires in. */
  lemma SessionRoundTrip(mac: Mac, secret: string, ttl: int, username: string, issued: int, now: int)
    requires secret != "" && InInt64(Unix(issued + ttl))
    ensures VerifySession(mac, secret, MakeSession(mac, secret, ttl, username, issued), now) == Ok(username)
       <==> ':' !in username && Unix(now) <= Unix(issued + ttl)
  {
    var expires := Unix(issued + ttl);
    var payload := SessionPayload(username, expires);
    var sig := Encode(mac(secret, payload));
    DecodeOfEncode(mac(secret, payload));
    NoDots(sig);
    SessionParts(username, expires, sig);
    ParseOfFormat(expires);
    if ':' in username {
      var parts := SplitN(payload + ":" + sig, ':', 4);
      var i :| 0 <= i < |parts[3]| && parts[3][i] == ':';
      ForeignByteRejected(parts[3], i);
    }
    hide Encode, Decode, SplitN, ParseInt64, FormatInt;
  }

  // The pieces of a genuine session: its name, the second it expires in, the user, and the hash of these.
  ghost predicate GenuineSession(mac: Mac, secret: string, token: string, username: string, expires: int,
                                 stamp: string, sig: string) {
    && token == "sessionV1" + [':'] + (stamp + [':'] + (username + [':'] + sig)) && ':' !in stamp && ':' !in username
    && ParseInt64(stamp) == Some(expires)
    && Decode(sig) == Some(mac(secret, "sessionV1" + ":" + (stamp + ":" + username)))
  }

  /** Only sessions that carry the hash of what they say are accepted, for the user they name, and only until
      the second they name. */
  lemma AcceptedSessionIsGenuine(mac: Mac, secret: string, token: string, now: int)
    returns (expires: int, stamp: string, sig: string)
    requires VerifySession(mac, secret, token, now).Ok?
    ensures secret != "" && Unix(now) <= expires
    ensures GenuineSession(mac, secret, token, VerifySession(mac, secret, token, now).value, expires, stamp, sig)
  {
    hide SplitN, Decode, ParseInt64, IndexOf;
    var parts := SplitN(token, ':', 4);
    SplitNApart(token, ':', 4);
    var rest := token[IndexOf(token, ':') + 1..];
    SplitNApart(rest, ':', 3);
    var last := rest[IndexOf(rest, ':') + 1..];
    SplitNApart(last, ':', 2);
    SplitNOnce(last[IndexOf(last, ':') + 1..], ':');
    stamp, sig := parts[1], parts[3];
    assert parts == [parts[0]] + parts[1..] && parts[1..] == SplitN(rest, ':', 3);
    expires := ParseInt64(stamp).value;
  }

  /** And until then every such session is. */
  lemma GenuineSessionIsAccepted(mac: Mac, secret: string, token: string, username: string, expires: int, now: int,
                                 stamp: string, sig: string)
    requires secret != "" && GenuineSession(mac, secret, token, username, expires, stamp, sig)
    ensures VerifySession(mac, secret, token, now) == Ok(username) <==> Unix(now) <= expires
  {
    hide SplitN, Decode, ParseInt64;
    SplitNJoin("sessionV1", ':', stamp + [':'] + (username + [':'] + sig), 4);
    SplitNJoin(stamp, ':', username + [':'] + sig, 3);
    SplitNJoin(username, ':', sig, 2);
    SplitNOnce(sig, ':');
  }
}
