/**
 * Token provisioning records, `src/endpoints/configuration.rs`: the request
 * a client sends to obtain an API key, validated on construction.
 */
module Configuration {
  import opened Wrappers
  import Urls

  /** Number of bytes UTF-8 uses for one Unicode scalar value. */
  function Utf8Width(c: char): (w: nat)
    ensures 1 <= w <= 4
    ensures w == 1 <==> (c as int) < 0x80
  {
    if (c as int) < 0x80 then 1
    else if (c as int) < 0x800 then 2
    else if (c as int) < 0x1_0000 then 3
    else 4
  }

  /** `String::len`: the length of the UTF-8 encoding, not the number of characters. */
  function Utf8Len(s: string): (n: nat)
    ensures |s| <= n <= 4 * |s|
  {
    if s == [] then 0 else Utf8Width(s[0]) + Utf8Len(s[1..])
  }

  predicate IsAscii(s: string) { forall i :: 0 <= i < |s| ==> (s[i] as int) < 0x80 }

  /** Byte length and character count agree exactly on ASCII text. */
  lemma {:induction false} AsciiLen(s: string)
    ensures Utf8Len(s) == |s| <==> IsAscii(s)
  {
    if s != [] {
      AsciiLen(s[1..]);
      assert IsAscii(s) <==> (s[0] as int) < 0x80 && IsAscii(s[1..]) by {
        if IsAscii(s[1..]) && (s[0] as int) < 0x80 {
          forall i | 0 <= i < |s| ensures (s[i] as int) < 0x80 {
            if i > 0 { assert s[i] == s[1..][i - 1]; }
          }
        }
        if IsAscii(s) {
          forall i | 0 <= i < |s[1..]| ensures (s[1..][i] as int) < 0x80 {
            assert s[1..][i] == s[i + 1];
          }
        }
      }
    }
  }

  datatype TokenRequest = TokenRequest(username: Option<string>, devicetype: string)

  datatype TokenError =
    | InvalidUsernameLength(len: nat)    // "expected 10 <= len <= 40"
    | InvalidDevicetypeLength(len: nat)  // "expected len <= 40"

  const MinUsernameLen := 10
  const MaxUsernameLen := 40
  const MaxDevicetypeLen := 40

  /**
   * `TokenRequest::new`: a requested username, when given, must be 10 to 40
   * bytes long, and the device type at most 40 bytes. The username is
   * checked first.
   */
  function NewTokenRequest(devicetype: string, username: Option<string>): (r: Result<TokenRequest, TokenError>)
    ensures r.Ok? <==>
      (username.None? || MinUsernameLen <= Utf8Len(username.value) <= MaxUsernameLen) &&
      Utf8Len(devicetype) <= MaxDevicetypeLen
    ensures r.Ok? ==> r.value.username == username && r.value.devicetype == devicetype
    ensures username.Some? && !(MinUsernameLen <= Utf8Len(username.value) <= MaxUsernameLen)
      ==> r == Err(InvalidUsernameLength(Utf8Len(username.value)))
    ensures r.Err? && r.error.InvalidDevicetypeLength?
      ==> r.error.len == Utf8Len(devicetype) && MaxDevicetypeLen < r.error.len
    ensures (username.None? || MinUsernameLen <= Utf8Len(username.value) <= MaxUsernameLen) &&
            MaxDevicetypeLen < Utf8Len(devicetype)
      ==> r == Err(InvalidDevicetypeLength(Utf8Len(devicetype)))
  {
    match username
    case Some(u) =>
      if Utf8Len(u) < MinUsernameLen || Utf8Len(u) > MaxUsernameLen then Err(InvalidUsernameLength(Utf8Len(u)))
      else CheckDevicetype(devicetype, username)
    case None => CheckDevicetype(devicetype, username)
  }

  /** The device-type half of `TokenRequest::new`: at most 40 bytes, reported with its length otherwise. */
  function CheckDevicetype(devicetype: string, username: Option<string>): (r: Result<TokenRequest, TokenError>)
    ensures r.Ok? <==> Utf8Len(devicetype) <= MaxDevicetypeLen
    ensures r.Ok? ==> r.value.username == username && r.value.devicetype == devicetype
    ensures r.Err? ==> r.error == InvalidDevicetypeLength(Utf8Len(devicetype)) && MaxDevicetypeLen < r.error.len
  {
    if Utf8Len(devicetype) > MaxDevicetypeLen then Err(InvalidDevicetypeLength(Utf8Len(devicetype)))
    else Ok(TokenRequest(username, devicetype))
  }

  /** Usernames of 10 and 40 ASCII characters pass, 9 and 41 fail; device types of 40 pass, 41 fail. */
  lemma AsciiBoundaries(devicetype: string, username: string)
    requires IsAscii(devicetype) && IsAscii(username)
    ensures |username| == 9 || |username| == 41 ==> NewTokenRequest(devicetype, Some(username)).Err?
    ensures |username| == 10 || |username| == 40 ==>
      (NewTokenRequest(devicetype, Some(username)).Ok? <==> |devicetype| <= 40)
    ensures |devicetype| == 40 ==> NewTokenRequest(devicetype, None).Ok?
    ensures |devicetype| == 41 ==> NewTokenRequest(devicetype, None) == Err(InvalidDevicetypeLength(41))
  {
    AsciiLen(devicetype);
    AsciiLen(username);
  }

  /** Lengths are bytes: five two-byte characters make a 10-byte username, which passes. */
  lemma BytesNotCharacters()
    ensures Utf8Len("\U{e9}\U{e9}\U{e9}\U{e9}\U{e9}") == 10
    ensures NewTokenRequest("", Some("\U{e9}\U{e9}\U{e9}\U{e9}\U{e9}")).Ok?
  {
    var s := "\U{e9}\U{e9}\U{e9}\U{e9}\U{e9}";
    assert s[1..][1..][1..][1..][1..] == "";
    assert Utf8Len(s) == 10;
  }

  /** An empty device type with no username is a valid request. */
  lemma EmptyDevicetypeAccepted()
    ensures NewTokenRequest("", None) == Ok(TokenRequest(None, ""))
  {
  }

  /** A username of 5 characters is refused before anything else is looked at. */
  lemma ShortUsernameRefused(devicetype: string, username: string)
    requires IsAscii(username) && |username| == 5
    ensures NewTokenRequest(devicetype, Some(username)) == Err(InvalidUsernameLength(5))
  {
    AsciiLen(username);
  }

  /**
   * The gateway's answer on success: the username that becomes the API key.
   * It is taken to be a plain path segment, the only kind of key whose use
   * in a URL the model resolves.
   */
  datatype ApiToken = ApiToken(username: Urls.Segment)
}
