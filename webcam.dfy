/** A client for the command API of a Reolink network camera: a session that
    logs in, keeps a time-limited token, reboots the device and asks it for
    its motion-detection state, renewing the token lazily when it is about to
    expire.

    The HTTP exchange is not modelled: every operation receives the result of
    its round trip as an `Outcome` value (a transport, read or decode error,
    or the decoded JSON array of response envelopes), and returns the requests
    it hands to the transport. Each reading of the clock is a parameter, in
    Unix seconds. */
module WebcamClient {

  // ---------------------------------------------------------------------
  // Go's `int` on a 64-bit target
  // ---------------------------------------------------------------------

  const MinInt64: int := -0x8000_0000_0000_0000
  const MaxInt64: int := 0x7fff_ffff_ffff_ffff
  const Modulus: int := 0x1_0000_0000_0000_0000

  type Int64 = x: int | MinInt64 <= x <= MaxInt64

  predicate InRange(x: int) {
    MinInt64 <= x <= MaxInt64
  }

  /** The two's-complement result Go's `int` arithmetic gives for the exact
      value `x`. */
  function Wrap(x: int): (r: Int64)
    ensures InRange(x) ==> r == x
    ensures (x - r) % Modulus == 0
  {
    if InRange(x) then x
    else
      var k := (x - MinInt64) / Modulus;
      assert x - MinInt64 == k * Modulus + (x - MinInt64) % Modulus;
      (x - MinInt64) % Modulus + MinInt64
  }

  // ---------------------------------------------------------------------
  // Response envelope and transport outcome
  // ---------------------------------------------------------------------

  datatype Option<T> = None | Some(value: T)

  datatype Result<T> = Ok(value: T) | Err(error: string)

  /** `error` object of an envelope (WebcamErrorResponse). */
  datatype ErrorResponse = ErrorResponse(detail: string, rspCode: Int64)

  /** `value.Token` of a Login envelope (WebcamResponseToken); `leaseTime` is
      a number of seconds. */
  datatype ResponseToken = ResponseToken(leaseTime: Int64, name: string)

  /** `value` of an envelope (WebcamResponseValue). */
  datatype ResponseValue = ResponseValue(token: ResponseToken, state: Int64)

  /** One decoded envelope (WebcamResponse). Fields absent from the JSON
      text hold Go's zero values: "" and 0. */
  datatype Response = Response(cmd: string, code: Int64, error: ErrorResponse, value: ResponseValue)

  /** What one HTTP round trip yields: the error of building the request,
      sending it, reading the body or decoding the JSON, returned as it is;
      or the decoded JSON array of envelopes. */
  datatype Outcome = Failed(err: string) | Decoded(responses: seq<Response>)

  /** A request the client posts to the device. */
  datatype Request = Request(url: string, body: string)

  /** The client indexes element 0 of the decoded array without checking its
      length, so a decoded empty array would panic: callers must not hand
      one in. */
  predicate Decodable(x: Outcome) {
    x.Decoded? ==> |x.responses| > 0
  }

  /** makeLoginRequest, used by every command despite its name: the
      round-trip error as it is, or the first envelope of the array. */
  function MakeLoginRequest(x: Outcome): (r: Result<Response>)
    requires Decodable(x)
    ensures r.Ok? <==> x.Decoded?
    ensures x.Failed? ==> r.error == x.err
    ensures r.Ok? ==> r.value == x.responses[0] && r.value in x.responses
  {
    match x
    case Failed(e) => Err(e)
    case Decoded(rs) => Ok(rs[0])
  }

  // ---------------------------------------------------------------------
  // Request strings and error messages
  // ---------------------------------------------------------------------

  const LoginFailed: string := "Login failed."
  const MotionFailed: string := "Motion detection Failed."
  const NotConnected: string := "Connect must be performed before rebooting the webcam."

  /** The command endpoint with the command name and the token as query
      parameters. */
  function CommandUrl(ip: string, cmd: string, token: string): string {
    "http://" + ip + "/cgi-bin/api.cgi?cmd=" + cmd + "&token=" + token
  }

  /** In a command URL the address is the host, the command is the value of
      the first parameter, and the token, inserted as it is, is the value of
      the last one. */
  lemma CommandUrlLayout(ip: string, cmd: string, token: string)
    ensures var r := CommandUrl(ip, cmd, token);
      && |r| == |ip| + |cmd| + |token| + 35
      && r[..7] == "http://" && r[7..7 + |ip|] == ip
      && r[28 + |ip|..28 + |ip| + |cmd|] == cmd
      && r[|r| - |token| - 7..|r| - |token|] == "&token="
      && r[|r| - |token|..] == token
  {
  }

  const LoginBodyPrefix: string := "[{\"cmd\":\"Login\",\"action\":0,\"param\":{\"User\":{\"userName\":\""
  const LoginBodyMiddle: string := "\",\"password\":\""
  const LoginBodySuffix: string := "\"}}}]"

  /** The login command; user name and password are inserted as they are,
      without any JSON escaping. */
  function LoginBody(user: string, password: string): string {
    LoginBodyPrefix + user + LoginBodyMiddle + password + LoginBodySuffix
  }

  /** In a login body the user name sits right after the fixed prefix and is
      closed by a double quote; the password fills the place between the
      fixed middle and the fixed suffix. */
  lemma LoginBodyLayout(user: string, password: string)
    ensures var r := LoginBody(user, password);
      && |r| == |LoginBodyPrefix| + |user| + |LoginBodyMiddle| + |password| + |LoginBodySuffix|
      && r[..|LoginBodyPrefix|] == LoginBodyPrefix
      && r[|LoginBodyPrefix|..|LoginBodyPrefix| + |user|] == user
      && r[|LoginBodyPrefix| + |user|] == '"'
      && r[|LoginBodyPrefix| + |user| + |LoginBodyMiddle|..|r| - |LoginBodySuffix|] == password
      && r[|r| - |LoginBodySuffix|..] == LoginBodySuffix
  {
  }

  const RebootBody: string := "[{\"cmd\":\"Reboot\",\"action\":0,\"param\":{}}]"

  const RebootErrorPrefix: string := "Error rebooting webcam, "

  function RebootError(detail: string): string {
    RebootErrorPrefix + detail + "."
  }

  /** The reboot error is the fixed text, the device's detail text as it
      is, and a full stop. */
  lemma RebootErrorLayout(detail: string)
    ensures var r := RebootError(detail);
      && |r| == |RebootErrorPrefix| + |detail| + 1
      && r[..|RebootErrorPrefix|] == RebootErrorPrefix
      && r[|RebootErrorPrefix|..|r| - 1] == detail
      && r[|r| - 1] == '.'
  {
  }

  /** The token is the last query parameter, so two URLs for the same device
      and command are equal exactly when they carry the same token. */
  lemma {:induction false} CommandUrlCarriesToken(ip: string, cmd: string, t1: string, t2: string)
    ensures CommandUrl(ip, cmd, t1) == CommandUrl(ip, cmd, t2) <==> t1 == t2
  {
    CommandUrlLayout(ip, cmd, t1);
    CommandUrlLayout(ip, cmd, t2);
  }

  /** The login body determines the credentials it was built from, as long
      as the user name holds no double quote. */
  lemma {:induction false} LoginBodyCarriesCredentials(u1: string, p1: string, u2: string, p2: string)
    requires '"' !in u1 && '"' !in u2
    ensures LoginBody(u1, p1) == LoginBody(u2, p2) <==> u1 == u2 && p1 == p2
  {
    LoginBodyLayout(u1, p1);
    LoginBodyLayout(u2, p2);
  }

  /** Without escaping, a double quote in the user name lets two different
      credential pairs produce the same login body. */
  lemma LoginBodyIsAmbiguous()
    ensures LoginBody("a", "b" + LoginBodyMiddle + "c") == LoginBody("a" + LoginBodyMiddle + "b", "c")
    ensures "b" + LoginBodyMiddle + "c" != "c"
  {
  }

  /** The reboot error message determines the device's detail text. */
  lemma {:induction false} RebootErrorCarriesDetail(d1: string, d2: string)
    ensures RebootError(d1) == RebootError(d2) <==> d1 == d2
  {
    RebootErrorLayout(d1);
    RebootErrorLayout(d2);
  }

  // ---------------------------------------------------------------------
  // Session state and the pure parts of the protocol
  // ---------------------------------------------------------------------

  /** The mutable part of a session: the token (empty before the first
      successful login) and its lease time, an absolute Unix second. */
  datatype Session = Session(token: string, leaseTime: Int64)

  /** expiredToken: the token counts as expired once fewer than 10 seconds of
      its lease remain; the difference is computed in Go's 64-bit `int`. */
  function Expired(leaseTime: Int64, now: Int64): (r: bool)
    ensures InRange(leaseTime - now) ==> (r <==> leaseTime - now < 10)
    ensures leaseTime - now > MaxInt64 ==> r
    ensures leaseTime - now < MinInt64 ==> (r <==> leaseTime - now + Modulus < 10)
  {
    Wrap(leaseTime - now) < 10
  }

  /** The session a login reply grants at time `now`, or the error Connect
      returns. It depends on the reply and the clock only, never on the
      current session. */
  function Login(now: Int64, x: Outcome): (r: Result<Session>)
    requires Decodable(x)
    ensures r.Ok? <==> x.Decoded? && x.responses[0].code == 0
    ensures x.Failed? ==> r == Err(x.err)
    ensures x.Decoded? && x.responses[0].code != 0 ==> r == Err(LoginFailed)
    ensures r.Ok? ==> r.value.token == x.responses[0].value.token.name
    ensures r.Ok? ==> (r.value.leaseTime - now - x.responses[0].value.token.leaseTime) % Modulus == 0
  {
    match MakeLoginRequest(x)
    case Err(e) => Err(e)
    case Ok(resp) =>
      if resp.code != 0 then Err(LoginFailed)
      else Ok(Session(resp.value.token.name, Wrap(now + resp.value.token.leaseTime)))
  }

  /** A lease of `lease` seconds granted at `now` keeps the token usable until
      10 seconds before it runs out, and no longer. */
  lemma {:induction false} LoginLeaseWindow(now: Int64, x: Outcome, t: Int64)
    requires Decodable(x) && Login(now, x).Ok?
    requires 0 <= now <= t
    requires 0 <= x.responses[0].value.token.leaseTime
    requires now + x.responses[0].value.token.leaseTime <= MaxInt64
    ensures Login(now, x).value.leaseTime == now + x.responses[0].value.token.leaseTime
    ensures !Expired(Login(now, x).value.leaseTime, t) <==> t + 10 <= now + x.responses[0].value.token.leaseTime
  {
  }

  /** Right after a successful login, the expiry check sees exactly the
      granted lease: the token counts as expired at the login time if and
      only if fewer than 10 seconds were granted. This holds on every input,
      because the wrap-around of `now + lease` is undone by the wrap-around
      of `leaseTime - now`. */
  lemma FreshLeaseSeenExactly(now: Int64, x: Outcome)
    requires Decodable(x) && Login(now, x).Ok?
    ensures Expired(Login(now, x).value.leaseTime, now) <==> x.responses[0].value.token.leaseTime < 10
  {
  }

  /** A session that was never logged in (lease time 0) is expired at every
      non-negative time, so the first motion query logs in. */
  lemma PristineSessionExpired(now: Int64)
    requires 0 <= now
    ensures Expired(0, now)
  {
  }

  /** While no overflow intervenes, an expired token stays expired as time
      goes on: a failed renewal is retried by every later motion query. */
  lemma ExpiredStaysExpired(leaseTime: Int64, now: Int64, later: Int64)
    requires now <= later
    requires InRange(leaseTime - now) && InRange(leaseTime - later)
    requires Expired(leaseTime, now)
    ensures Expired(leaseTime, later)
  {
  }

  /** The answer of a motion query: motion is reported only by a successful
      envelope whose state is non-zero; the boolean is false on every error. */
  function MotionReply(x: Outcome): (r: (bool, Option<string>))
    requires Decodable(x)
    ensures r.1 == None <==> x.Decoded? && x.responses[0].code == 0
    ensures r.0 <==> r.1 == None && x.responses[0].value.state != 0
    ensures x.Failed? ==> r.1 == Some(x.err)
    ensures x.Decoded? && x.responses[0].code != 0 ==> r.1 == Some(MotionFailed)
  {
    match MakeLoginRequest(x)
    case Err(e) => (false, Some(e))
    case Ok(resp) =>
      if resp.code != 0 then (false, Some(MotionFailed))
      else (resp.value.state != 0, None)
  }

  /** What a call of the client does: the requests it builds and hands to
      the transport, in order (a request whose construction fails is
      attempted but never reaches the device), and what it returns. */
  datatype Call<T> = Call(attempted: seq<Request>, result: T)

  // ---------------------------------------------------------------------
  // The session object
  // ---------------------------------------------------------------------

  class Webcam {
    const IP: string
    const User: string
    const Password: string
    var token: string
    var leaseTime: Int64

    /** A struct literal: Go leaves omitted fields at "" and 0. */
    constructor (ip: string, user: string, password: string, token: string, leaseTime: Int64)
      ensures IP == ip && User == user && Password == password
      ensures this.token == token && this.leaseTime == leaseTime
    {
      IP, User, Password := ip, user, password;
      this.token, this.leaseTime := token, leaseTime;
    }

    function GetToken(): string
      reads this
    {
      token
    }

    /** Logs in at time `now`, the clock read after the round trip. The
        request depends on the address and credentials only; the token and
        lease are replaced on success and kept otherwise. */
    method Connect(now: Int64, x: Outcome) returns (c: Call<Option<string>>)
      requires Decodable(x)
      modifies this
      ensures c.attempted == [Request(CommandUrl(IP, "Login", "null"), LoginBody(User, Password))]
      ensures Login(now, x).Ok? ==> c.result == None && token == Login(now, x).value.token && leaseTime == Login(now, x).value.leaseTime
      ensures Login(now, x).Err? ==> c.result == Some(Login(now, x).error) && token == old(token) && leaseTime == old(leaseTime)
    {
      var req := Request(CommandUrl(IP, "Login", "null"), LoginBody(User, Password));
      match Login(now, x)
      case Err(e) =>
        c := Call([req], Some(e));
      case Ok(s) =>
        token := s.token;
        leaseTime := s.leaseTime;
        c := Call([req], None);
    }

    /** Asks for the motion state. The expiry check reads the clock as `now`.
        An expired token is renewed first with the reply `login`, and that
        login reads the clock again, as `loginNow`, after its round trip. The
        result of the login is ignored, and the query goes out with whatever
        token the session holds afterwards. */
    method MotionDetected(now: Int64, loginNow: Int64, login: Outcome, query: Outcome) returns (c: Call<(bool, Option<string>)>)
      requires Expired(leaseTime, now) ==> Decodable(login)
      requires Decodable(query)
      modifies this
      ensures var renewed := Expired(old(leaseTime), now) && Login(loginNow, login).Ok?;
        if renewed then token == Login(loginNow, login).value.token && leaseTime == Login(loginNow, login).value.leaseTime
        else token == old(token) && leaseTime == old(leaseTime)
      ensures c.attempted ==
        (if Expired(old(leaseTime), now) then [Request(CommandUrl(IP, "Login", "null"), LoginBody(User, Password))] else [])
        + [Request(CommandUrl(IP, "GetMdState", token), "")]
      ensures c.result == MotionReply(query)
    {
      var relogin: seq<Request> := [];
      if Expired(leaseTime, now) {
        var ignored := Connect(loginNow, login);
        relogin := ignored.attempted;
      }
      c := Call(relogin + [Request(CommandUrl(IP, "GetMdState", token), "")], MotionReply(query));
    }

    /** Reboots the device. A session without a token attempts nothing; the
        session itself is never changed (the receiver is a copy). */
    function Reboot(x: Outcome): (r: Call<Option<string>>)
      reads this
      requires token != "" ==> Decodable(x)
      ensures token == "" ==> r == Call([], Some(NotConnected))
      ensures token != "" ==> r.attempted == [Request(CommandUrl(IP, "Reboot", token), RebootBody)]
      ensures r.result == None <==> token != "" && x.Decoded? && x.responses[0].code == 0
      ensures token != "" && x.Failed? ==> r.result == Some(x.err)
      ensures token != "" && x.Decoded? && x.responses[0].code != 0 ==> r.result == Some(RebootError(x.responses[0].error.detail))
    {
      if GetToken() == "" then Call([], Some(NotConnected))
      else
        var attempted := [Request(CommandUrl(IP, "Reboot", token), RebootBody)];
        match MakeLoginRequest(x)
        case Err(e) => Call(attempted, Some(e))
        case Ok(resp) =>
          if resp.code != 0 then Call(attempted, Some(RebootError(resp.error.detail)))
          else Call(attempted, None)
    }
  }
}
