# Reolink webcam session client, modelled in Dafny

The Go package `webcam` is a client for the command API of a Reolink
network camera. A `Webcam` value holds the device address, the credentials,
a session token and the token's lease time (an absolute Unix second). It can
log in (`Connect`), reboot the camera (`Reboot`) and ask for the state of its
motion sensor (`MotionDetected`). The motion query renews an expired token
first. Every command is a POST to `http://<IP>/cgi-bin/api.cgi?cmd=<name>&token=<token>`.
The device answers with a JSON array of one envelope (`cmd`, `code`,
`error.detail`, `value.Token`, `value.state`), and the client reads element 0.

This model keeps that session-token state machine and abstracts the network:

- `webcam.dfy`, module `WebcamClient`, models `webcam/webcam.go`.
  - The envelope types are datatypes.
  - The result of one HTTP round trip is an `Outcome`: either an error string (building the request, sending it, reading the body or decoding the JSON) or the decoded array of envelopes.
  - `Webcam` is a class with the constant fields `IP`, `User` and `Password` and the mutable fields `token` and `leaseTime`.
  - `Connect` and `MotionDetected` are methods that change those fields; `Reboot`, which has a value receiver in Go, is a function of the object.
  - Every operation returns a `Call`: the requests it attempts, in order, and what it returns. This lets the contracts say "no request is attempted" and "the query carries the renewed token". An attempted request reaches the device only if `http.NewRequest` succeeds. When it fails, the round trip's `Failed` outcome carries that error.
  - Each reading of the clock is a parameter in Unix seconds. `MotionDetected` reads the clock twice: `now` for the expiry check and `loginNow` inside the renewal.
  - The model assumes a 64-bit target, where Go's `int` is 64 bits wide. `now + leaseTime` and `leaseTime - now` use two's-complement wrap-around (`Wrap`), and the contracts say what happens on overflow.
- `scenarios.dfy`, module `WebcamScenarios`, replays the JSON replies of `webcam/webcam_test.go` against the model. Each test is either a client method that builds a `Webcam` and calls it, or a lemma.

Two behaviours of the Go code are kept as written, although a reader might expect otherwise:

- A failed renewal inside `MotionDetected` is not propagated. The error of `Connect` is discarded, and the motion query is still attempted, with the token the session holds afterwards (the old one).
- A decoded empty JSON array is not reported as a decode error. The code indexes element 0 unchecked, which panics. The model states this as the precondition `Decodable` on every operation that reads a reply.

## Model

| member | source | states |
|---|---|---|
| `WebcamClient.Wrap` | webcam/webcam.go:109 | The result is the 64-bit value congruent to the exact sum or difference modulo 2^64, and equals it when no overflow occurs. |
| `WebcamClient.MakeLoginRequest` | webcam/webcam.go:59-89 | A round-trip error is returned as it is. Otherwise the result is the first decoded envelope. The array must not be empty (Go panics on it). |
| `WebcamClient.Expired` | webcam/webcam.go:116-125 | Without overflow, the token is expired exactly when `leaseTime - now < 10`. A lease that overflows past the maximum counts as expired; an underflowing difference is expired only if it stays below 10 after wrapping. |
| `WebcamClient.Login` | webcam/webcam.go:97-112 | Login succeeds exactly when the reply decodes with `code == 0`. It then grants `value.Token.name` with lease `now + value.Token.leaseTime` (mod 2^64). A round-trip error is returned as it is, and `code != 0` gives "Login failed.". The result never depends on the current session. |
| `WebcamClient.LoginLeaseWindow` | webcam/webcam.go:104-124 | After a successful login at `now` with a lease of L seconds, the stored lease is `now + L`. The token is unexpired at time t exactly when `t + 10 <= now + L`. This holds when `0 <= now <= t`, `0 <= L` and `now + L` does not overflow. |
| `WebcamClient.FreshLeaseSeenExactly` | webcam/webcam.go:104-124 | For every login time and every granted lease L, overflow included, the token is expired at the login time exactly when `L < 10`. The wrap-around in `now + L` is undone by the one in `leaseTime - now`. |
| `WebcamClient.PristineSessionExpired` | webcam/webcam.go:116-125 | A session never logged in (lease time 0) is expired at every non-negative time, so its first motion query logs in. |
| `WebcamClient.ExpiredStaysExpired` | webcam/webcam.go:121-133 | Without overflow, an expired token stays expired later on, so every later motion query retries a failed renewal. |
| `WebcamClient.MotionReply` | webcam/webcam.go:135-145 | Motion is reported exactly when the reply decodes with `code == 0` and a non-zero `state`. A round-trip error is returned as it is, and `code != 0` gives "Motion detection Failed."; the boolean is false on every error. |
| `WebcamClient.CommandUrlLayout` | webcam/webcam.go:156 | The shared shape of the URLs at lines 95, 134 and 156. The address is the host, the command is the value of `cmd`, and the token is the value of the last parameter `token`, inserted as it is. |
| `WebcamClient.LoginBodyLayout` | webcam/webcam.go:94 | The user name follows the fixed prefix and is closed by a double quote. The password sits between the fixed middle and the fixed suffix. Both are inserted as they are. |
| `WebcamClient.RebootErrorLayout` | webcam/webcam.go:165 | The reboot error is "Error rebooting webcam, ", then the device's detail text as it is, then a full stop. |
| `WebcamClient.CommandUrlCarriesToken` | webcam/webcam.go:156 | For a fixed address and command, two command URLs are equal if and only if their tokens are equal. |
| `WebcamClient.LoginBodyCarriesCredentials` | webcam/webcam.go:94 | If the user names contain no double quote, two login bodies are equal if and only if both user name and password are equal. |
| `WebcamClient.LoginBodyIsAmbiguous` | webcam/webcam.go:94 | Because nothing is escaped, two different credential pairs (a quote in the user name) give the same login body. |
| `WebcamClient.RebootErrorCarriesDetail` | webcam/webcam.go:164-166 | Two reboot error messages are equal if and only if the device's detail texts are equal. |
| `WebcamClient.Webcam.constructor` | webcam/webcam.go:13-19 | A struct literal: address, credentials, token and lease time as given. |
| `WebcamClient.Webcam.Connect` | webcam/webcam.go:91-113 | Connect attempts exactly one request: the Login URL (token `null`) with the Login body, built from address and credentials only. On success the token and lease become the granted ones and no error is returned. Otherwise Connect returns the login error and leaves token and lease unchanged. |
| `WebcamClient.Webcam.MotionDetected` | webcam/webcam.go:127-146 | Connect runs exactly when the token is expired at `now`, the first clock reading, and its error is ignored. Token and lease are renewed only when that login succeeds, with the lease counted from `loginNow`, the clock reading inside Connect. The motion query (`cmd=GetMdState`, empty body) is always attempted, with the token held after the login attempt. The answer is `MotionReply` of the query's reply. |
| `WebcamClient.Webcam.Reboot` | webcam/webcam.go:148-170 | An empty token gives "Connect must be performed before rebooting the webcam." and no request is attempted. Otherwise exactly one request is attempted: `cmd=Reboot&token=<token>` with the Reboot body. The result is no error iff the reply decodes with `code == 0`; a round-trip error is returned as it is; `code != 0` gives "Error rebooting webcam, <detail>.". |
| `WebcamScenarios.TestLoginRequest` | webcam/webcam.go:94-95 | For 10.10.0.1, user and pass, the URL is `http://10.10.0.1/cgi-bin/api.cgi?cmd=Login&token=null` and the body is the exact Login JSON. |
| `WebcamScenarios.TestCommandUrls` | webcam/webcam.go:134-156 | The exact reboot and motion-state URLs for token `testtoken`. |
| `WebcamScenarios.ConnectFailed` | webcam/webcam_test.go:11-39 | Reply code 1: the error is "Login failed." and the token stays empty. |
| `WebcamScenarios.ConnectFailedBadJson` | webcam/webcam_test.go:297-313 | A decode error is returned as it is and the token stays empty. |
| `WebcamScenarios.ConnectSucceeded` | webcam/webcam_test.go:41-75 | At any login time, the token becomes `fef39ed8155f884`, the lease of 3600 s is not expired at login time, and the Login request is the only one attempted. |
| `WebcamScenarios.RebootWithoutToken` | webcam/webcam_test.go:77-103 | With no token, the precondition error is returned and nothing is attempted. |
| `WebcamScenarios.RebootFailedToken` | webcam/webcam_test.go:105-132 | The error is "Error rebooting webcam, please login first.", and the reboot request carries `testtoken`. |
| `WebcamScenarios.Reboot` | webcam/webcam_test.go:134-154 | Reply code 0: no error, one request. |
| `WebcamScenarios.NonExpiredAndExpiredToken` | webcam/webcam_test.go:156-178 | A lease of now+500 is not expired; a lease of now-500 is. |
| `WebcamScenarios.ExpiryBoundary` | webcam/webcam.go:121-123 | With 10 s left the token is not expired; with 9 s left it is. |
| `WebcamScenarios.MotionSensorDetection` | webcam/webcam_test.go:180-205 | A valid token and state 1 give `(true, nil)`, and only the motion query is attempted. |
| `WebcamScenarios.MotionSensorNoDetection` | webcam/webcam_test.go:207-232 | State 0 gives `(false, nil)`. |
| `WebcamScenarios.MotionSensorErrorCode` | webcam/webcam_test.go:234-256 | Reply code 1 gives `(false, "Motion detection Failed.")`. |
| `WebcamScenarios.MotionSensorReLogin` | webcam/webcam_test.go:258-295 | An expired token: the Login request goes first and the query then carries the new token. The call succeeds, and the renewed lease is not expired at the login's clock reading. |
| `WebcamScenarios.MotionSensorReLoginRefused` | webcam/webcam.go:131-134 | An expired token whose renewal is refused: the login error is dropped, the query goes out with the stale token, and its reply decides the result. |

## Left out

- The HTTP machinery of `makeLoginRequest` is not modelled: `http.NewRequest`, the `User-Agent` and `Content-Type` headers, `client.Do` and `ioutil.ReadAll`. These are calls into the standard library. Their result is the `Outcome` parameter, and the requests are returned as `Request` values.
- JSON decoding by `json.Unmarshal` is a library call; only its contract is modelled. It yields either an error or the array of envelopes, with omitted fields at Go's zero values and integers within 64 bits.
- MakeLoginRequest: requires a non-empty array whenever decoding succeeded (`Decodable`), and so do `Login`, `MotionReply`, `Webcam.Connect`, `Webcam.MotionDetected` and `Webcam.Reboot` for the replies they read. The Go code panics on an empty array, and a panic has no counterpart in the model.
- `time.Now()` is not called. Each reading of the current Unix second is a parameter (`now`, and `loginNow` for the second reading in `MotionDetected`). The model does not require the readings to be ordered.
- 32-bit targets are not modelled. There Go's `int` is 32 bits wide, and `now + leaseTime` and `leaseTime - now` would wrap at 2^32 instead of 2^64.
- `IP`, `User` and `Password` are exported, assignable fields of the Go struct. In the model they are constants set by the constructor, so callers cannot reassign them between calls. Every operation reads them afresh, so a reassignment would only change the address and credentials of later requests.
- `WebcamMotionResponse` and `WebcamMotionResponseValue` are not modelled. They are declared but never used; every reply is decoded as `WebcamResponse`.
- `getToken` is the accessor `Webcam.GetToken`, with no contract of its own.
- The login body is not escaped or checked as JSON. It is modelled as plain concatenation; `LoginBodyIsAmbiguous` shows what that allows.
- Concurrent use of one `Webcam` is not modelled; the package does no locking.
