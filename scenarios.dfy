/** The device replies used by the client's own test suite, replayed against
    the model. Each JSON payload becomes a decoded `Outcome`; fields the
    payload omits hold Go's zero values. */
module WebcamScenarios {
  import opened WebcamClient

  const NoError: ErrorResponse := ErrorResponse("", 0)
  const NoToken: ResponseToken := ResponseToken(0, "")

  const IP: string := "10.10.0.1"
  const LoginToken: string := "fef39ed8155f884"

  /** `{"cmd":"Login","code":1,"error":{"detail":"login failed","rspCode":-7}}` */
  const LoginRefused: Outcome :=
    Decoded([Response("Login", 1, ErrorResponse("login failed", -7), ResponseValue(NoToken, 0))])

  /** `{"cmd":"Login","code":0,"value":{"Token":{"leaseTime":3600,"name":"fef39ed8155f884"}}}` */
  const LoginGranted: Outcome :=
    Decoded([Response("Login", 0, NoError, ResponseValue(ResponseToken(3600, LoginToken), 0))])

  /** `{"cmd":"Reboot","code":1,"error":{"detail":"please login first","rspCode":-6}}` */
  const RebootRefused: Outcome :=
    Decoded([Response("Reboot", 1, ErrorResponse("please login first", -6), ResponseValue(NoToken, 0))])

  /** `{"cmd":"Reboot","code":0,"value":{"rspCode":200}}`; `rspCode` is not a
      field of the value object, so decoding drops it. */
  const RebootAccepted: Outcome :=
    Decoded([Response("Reboot", 0, NoError, ResponseValue(NoToken, 0))])

  /** `{"cmd":"GetMdState","code":<code>,"value":{"state":<state>}}` */
  function MdState(code: Int64, state: Int64): Outcome {
    Decoded([Response("GetMdState", code, NoError, ResponseValue(NoToken, state))])
  }

  /** The login request of the test webcam. */
  const TestLogin: Request := Request(CommandUrl(IP, "Login", "null"), LoginBody("user", "pass"))

  /** The motion-state query of the test webcam with the given token. */
  function TestQuery(token: string): Request {
    Request(CommandUrl(IP, "GetMdState", token), "")
  }

  /** The exact text of the login request the test webcam sends. */
  lemma TestLoginRequest()
    ensures CommandUrl(IP, "Login", "null") == "http://10.10.0.1/cgi-bin/api.cgi?cmd=Login&token=null"
    ensures LoginBody("user", "pass") == "[{\"cmd\":\"Login\",\"action\":0,\"param\":{\"User\":{\"userName\":\"user\",\"password\":\"pass\"}}}]"
  {
    UrlText("Login", "null");
    assert LoginBodyPrefix + "user" == "[{\"cmd\":\"Login\",\"action\":0,\"param\":{\"User\":{\"userName\":\"user";
    assert LoginBodyPrefix + "user" + LoginBodyMiddle == "[{\"cmd\":\"Login\",\"action\":0,\"param\":{\"User\":{\"userName\":\"user\",\"password\":\"";
    assert LoginBodyPrefix + "user" + LoginBodyMiddle + "pass" == "[{\"cmd\":\"Login\",\"action\":0,\"param\":{\"User\":{\"userName\":\"user\",\"password\":\"pass";
  }

  /** The exact text of the reboot and motion-state URLs for the token of
      the test webcam. */
  lemma TestCommandUrls()
    ensures CommandUrl(IP, "Reboot", "testtoken") == "http://10.10.0.1/cgi-bin/api.cgi?cmd=Reboot&token=testtoken"
    ensures CommandUrl(IP, "GetMdState", "testtoken") == "http://10.10.0.1/cgi-bin/api.cgi?cmd=GetMdState&token=testtoken"
  {
    UrlText("Reboot", "testtoken");
    UrlText("GetMdState", "testtoken");
  }

  /** Spells a command URL of the test webcam out one piece at a time. */
  lemma UrlText(cmd: string, token: string)
    ensures CommandUrl(IP, cmd, token) == "http://10.10.0.1/cgi-bin/api.cgi?cmd=" + cmd + "&token=" + token
  {
  }

  /** A login whose reply is refused leaves the session without a token. */
  method ConnectFailed(now: Int64) returns (err: Option<string>, token: string)
    ensures err == Some("Login failed.") && token == ""
  {
    var w := new Webcam(IP, "user", "pass", "", 0);
    var c := w.Connect(now, LoginRefused);
    err, token := c.result, w.GetToken();
  }

  /** A body that is not JSON fails to decode: Connect returns the decoder's
      error and keeps the session as it was. */
  method ConnectFailedBadJson(now: Int64, decodeError: string) returns (err: Option<string>, token: string)
    ensures err == Some(decodeError) && token == ""
  {
    var w := new Webcam(IP, "user", "pass", "", 0);
    var c := w.Connect(now, Failed(decodeError));
    err, token := c.result, w.GetToken();
  }

  /** A granted login stores the token and a lease that is not expired at
      the time of the login; the only request is the Login command. */
  method ConnectSucceeded(now: Int64) returns (c: Call<Option<string>>, token: string, expired: bool)
    ensures c == Call([TestLogin], None)
    ensures token == LoginToken && !expired
  {
    var w := new Webcam(IP, "user", "pass", "", 0);
    c := w.Connect(now, LoginGranted);
    token := w.GetToken();
    expired := Expired(w.leaseTime, now);
    FreshLeaseSeenExactly(now, LoginGranted);
  }

  /** Reboot without a token fails before any request is attempted. */
  method RebootWithoutToken() returns (call: Call<Option<string>>)
    ensures call.attempted == [] && call.result == Some("Connect must be performed before rebooting the webcam.")
  {
    var w := new Webcam(IP, "user", "pass", "", 0);
    call := w.Reboot(RebootRefused);
  }

  /** A refused reboot reports the device's detail text. */
  method RebootFailedToken() returns (call: Call<Option<string>>)
    ensures call.result == Some("Error rebooting webcam, please login first.")
    ensures call.attempted == [Request(CommandUrl(IP, "Reboot", "testtoken"), RebootBody)]
  {
    var w := new Webcam(IP, "user", "pass", "testtoken", 0);
    call := w.Reboot(RebootRefused);
    RefusedRebootText();
  }

  /** Spells the reboot error for the detail text of the test reply out. */
  lemma RefusedRebootText()
    ensures RebootError("please login first") == "Error rebooting webcam, please login first."
  {
    assert RebootErrorPrefix + "please login first" == "Error rebooting webcam, please login first";
  }

  method Reboot() returns (call: Call<Option<string>>)
    ensures call.result == None && |call.attempted| == 1
  {
    var w := new Webcam(IP, "user", "pass", "testtoken", 0);
    call := w.Reboot(RebootAccepted);
  }

  /** A lease 500 seconds ahead is not expired; one 500 seconds behind is. */
  lemma NonExpiredAndExpiredToken(now: Int64)
    requires MinInt64 + 500 <= now <= MaxInt64 - 500
    ensures !Expired(now + 500, now)
    ensures Expired(now - 500, now)
  {
  }

  /** With 10 seconds of lease left the token is still usable; with 9 it is
      not. */
  lemma ExpiryBoundary(now: Int64)
    requires now <= MaxInt64 - 10
    ensures !Expired(now + 10, now)
    ensures Expired(now + 9, now)
  {
  }

  /** A valid token and a reply with a non-zero state report motion; no
      login is attempted. */
  method MotionSensorDetection(now: Int64, loginNow: Int64) returns (c: Call<(bool, Option<string>)>)
    requires 0 <= now <= MaxInt64 - 500
    ensures c == Call([TestQuery("testtoken")], (true, None))
  {
    var w := new Webcam(IP, "user", "pass", "testtoken", now + 500);
    c := w.MotionDetected(now, loginNow, LoginRefused, MdState(0, 1));
  }

  method MotionSensorNoDetection(now: Int64, loginNow: Int64) returns (c: Call<(bool, Option<string>)>)
    requires 0 <= now <= MaxInt64 - 500
    ensures c.result == (false, None)
  {
    var w := new Webcam(IP, "user", "pass", "testtoken", now + 500);
    c := w.MotionDetected(now, loginNow, LoginRefused, MdState(0, 0));
  }

  method MotionSensorErrorCode(now: Int64, loginNow: Int64) returns (c: Call<(bool, Option<string>)>)
    requires 0 <= now <= MaxInt64 - 500
    ensures c.result == (false, Some("Motion detection Failed."))
  {
    var w := new Webcam(IP, "user", "pass", "testtoken", now + 500);
    c := w.MotionDetected(now, loginNow, LoginRefused, MdState(1, 0));
  }

  /** An expired token is renewed before the query, which then carries the
      new token; the renewed lease is not expired at the time of the login. */
  method MotionSensorReLogin(now: Int64, loginNow: Int64) returns (c: Call<(bool, Option<string>)>, token: string, expired: bool)
    requires 500 <= now
    ensures c == Call([TestLogin, TestQuery(LoginToken)], (false, None))
    ensures token == LoginToken && !expired
  {
    var w := new Webcam(IP, "user", "pass", "testtoken", now - 500);
    c := w.MotionDetected(now, loginNow, LoginGranted, MdState(0, 0));
    token := w.GetToken();
    expired := Expired(w.leaseTime, loginNow);
    FreshLeaseSeenExactly(loginNow, LoginGranted);
  }

  /** When the renewal of an expired token is refused, its error is dropped:
      the query still goes out with the stale token and its own reply
      decides the result. */
  method MotionSensorReLoginRefused(now: Int64, loginNow: Int64) returns (c: Call<(bool, Option<string>)>, token: string)
    requires 500 <= now
    ensures c == Call([TestLogin, TestQuery("testtoken")], (true, None))
    ensures token == "testtoken"
  {
    var w := new Webcam(IP, "user", "pass", "testtoken", now - 500);
    c := w.MotionDetected(now, loginNow, LoginRefused, MdState(0, 1));
    token := w.GetToken();
  }
}
