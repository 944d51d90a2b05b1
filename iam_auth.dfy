/**
 * The request elements of an AWS STS GetCallerIdentity call, from
 * aws/iam_auth.go: the `X-Amz-Date` timestamp, the fixed header map and
 * the signed request. The clock, the shared-credentials provider and the
 * Signature Version 4 signer are inputs.
 */
module IamAuth {
  import opened Wrappers

  const Host: string := "sts.amazonaws.com"
  // STS is global, but Signature Version 4 needs a region in the string to sign.
  const Region: string := "us-east-1"
  const Service: string := "sts"
  const RequestMethod: string := "POST"
  const RequestBody: string := "Action=GetCallerIdentity&Version=2011-06-15"

  /** The keys of the request header map before signing. */
  const HeaderKeys: set<string> :=
    {"Accept-Encoding", "Content-Type", "Host", "X-Amz-Date", "Content-Length"}

  // ---------------------------------------------------------------------
  // Character removal (strings.Replace with a one-character pattern and
  // an empty replacement, unlimited count)
  // ---------------------------------------------------------------------

  /** `s` with every occurrence of `c` removed, the other characters kept in order. */
  function RemoveAll(s: string, c: char): (r: string)
    ensures c !in r
    ensures |r| <= |s|
    ensures forall x :: x in r ==> x in s
  {
    if s == [] then []
    else (if s[0] == c then [] else [s[0]]) + RemoveAll(s[1..], c)
  }

  lemma {:induction false} RemoveAllConcat(a: string, b: string, c: char)
    ensures RemoveAll(a + b, c) == RemoveAll(a, c) + RemoveAll(b, c)
  {
    if a == [] {
      assert a + b == b;
    } else {
      assert (a + b)[0] == a[0];
      assert (a + b)[1..] == a[1..] + b;
      RemoveAllConcat(a[1..], b, c);
    }
  }

  lemma {:induction false} RemoveAllAbsent(s: string, c: char)
    requires c !in s
    ensures RemoveAll(s, c) == s
  {
    if s != [] {
      RemoveAllAbsent(s[1..], c);
    }
  }

  /** Removing a character twice changes nothing more. */
  lemma RemoveAllIdempotent(s: string, c: char)
    ensures RemoveAll(RemoveAll(s, c), c) == RemoveAll(s, c)
  {
    RemoveAllAbsent(RemoveAll(s, c), c);
  }

  // ---------------------------------------------------------------------
  // nowAsISO8601
  // ---------------------------------------------------------------------

  /**
   * The `X-Amz-Date` value: the first 19 characters of an RFC 3339
   * date-time (section 5.6 of RFC 3339), a `Z`, and every `-` and `:`
   * removed. Go's slice `[:19]` needs at least 19 characters; the
   * formatter that feeds it always produces at least 20.
   */
  function NowAsIso8601(rfc3339: string): (r: string)
    requires |rfc3339| >= 19
    ensures '-' !in r && ':' !in r
    ensures 1 <= |r| <= 20 && r[|r| - 1] == 'Z'
  {
    var stamp := rfc3339[..19] + "Z";
    RemoveAllConcat(stamp[..19], "Z", '-');
    RemoveAllAbsent("Z", '-');
    RemoveAllConcat(RemoveAll(stamp[..19], '-'), "Z", ':');
    RemoveAllAbsent("Z", ':');
    assert stamp == stamp[..19] + "Z";
    RemoveAll(RemoveAll(stamp, '-'), ':')
  }

  /** A UTC instant, as Go's time.Time formats it (no fractional seconds). */
  datatype UtcTime = UtcTime(year: nat, month: nat, day: nat, hour: nat, minute: nat, second: nat)
  {
    predicate Valid() {
      year <= 9999 && 1 <= month <= 12 && 1 <= day <= 31 &&
      hour <= 23 && minute <= 59 && second <= 59
    }
  }

  predicate AllDigits(s: string) {
    forall i :: 0 <= i < |s| ==> '0' <= s[i] <= '9'
  }

  function Digit(d: nat): (c: char)
    requires d < 10
    ensures '0' <= c <= '9' && c as int - '0' as int == d
  {
    ('0' as int + d) as char
  }

  function Pad2(n: nat): (s: string)
    requires n < 100
    ensures |s| == 2 && AllDigits(s)
  {
    [Digit(n / 10), Digit(n % 10)]
  }

  function Pad4(n: nat): (s: string)
    requires n < 10000
    ensures |s| == 4 && AllDigits(s)
  {
    Pad2(n / 100) + Pad2(n % 100)
  }

  /** The date part of an RFC 3339 date-time: `YYYY-MM-DD`. */
  function FullDate(t: UtcTime): string
    requires t.Valid()
  {
    Pad4(t.year) + "-" + Pad2(t.month) + "-" + Pad2(t.day)
  }

  /** The time part of an RFC 3339 date-time, without fraction: `HH:MM:SS`. */
  function PartialTime(t: UtcTime): string
    requires t.Valid()
  {
    Pad2(t.hour) + ":" + Pad2(t.minute) + ":" + Pad2(t.second)
  }

  /** Go's time.RFC3339 layout for a UTC instant: `YYYY-MM-DDTHH:MM:SSZ`. */
  function FormatRfc3339(t: UtcTime): (s: string)
    requires t.Valid()
    ensures |s| == 20
  {
    FullDate(t) + "T" + PartialTime(t) + "Z"
  }

  /** The ISO 8601 basic form used by Signature Version 4: `YYYYMMDDTHHMMSSZ`. */
  function AmzDate(t: UtcTime): (s: string)
    requires t.Valid()
  {
    Pad4(t.year) + Pad2(t.month) + Pad2(t.day) + "T" +
    Pad2(t.hour) + Pad2(t.minute) + Pad2(t.second) + "Z"
  }

  lemma RemoveAllDigits(s: string, c: char)
    requires AllDigits(s)
    requires c == '-' || c == ':'
    ensures RemoveAll(s, c) == s
  {
    RemoveAllAbsent(s, c);
  }

  lemma RemoveAllSingle(x: char, c: char)
    ensures RemoveAll([x], c) == if x == c then [] else [x]
  {
    assert [x][1..] == [];
  }

  /** Appending a run of digits to a string whose removal is known. */
  lemma AppendDigits(a: string, ra: string, b: string, c: char)
    requires RemoveAll(a, c) == ra
    requires AllDigits(b) && (c == '-' || c == ':')
    ensures RemoveAll(a + b, c) == ra + b
  {
    RemoveAllConcat(a, b, c);
    RemoveAllDigits(b, c);
  }

  /** Appending one character to a string whose removal is known. */
  lemma AppendChar(a: string, ra: string, x: char, c: char)
    requires RemoveAll(a, c) == ra
    ensures RemoveAll(a + [x], c) == if x == c then ra else ra + [x]
  {
    RemoveAllConcat(a, [x], c);
    RemoveAllSingle(x, c);
  }

  /** Digits `a`, separator `x`, digits `b`, separator `x`, digits `e`, with `c` removed. */
  lemma RemoveFromTriple(a: string, b: string, e: string, x: char, c: char)
    requires AllDigits(a) && AllDigits(b) && AllDigits(e)
    requires c == '-' || c == ':'
    ensures RemoveAll(a + [x] + b + [x] + e, c)
         == if x == c then a + b + e else a + [x] + b + [x] + e
  {
    RemoveAllDigits(a, c);
    var r1 := if x == c then a else a + [x];
    AppendChar(a, a, x, c);
    AppendDigits(a + [x], r1, b, c);
    var r3 := if x == c then r1 + b else r1 + b + [x];
    AppendChar(a + [x] + b, r1 + b, x, c);
    AppendDigits(a + [x] + b + [x], r3, e, c);
  }

  lemma {:induction false} AllDigitsConcat(a: string, b: string)
    requires AllDigits(a) && AllDigits(b)
    ensures AllDigits(a + b)
  {
    assert forall i :: 0 <= i < |a + b| ==> (a + b)[i] == if i < |a| then a[i] else b[i - |a|];
  }

  /** Removing `-` from `Y-M-DTtimeZ` touches only the date part. */
  lemma RemoveDashes(y: string, mo: string, d: string, h: string, mi: string, s: string)
    requires AllDigits(y) && AllDigits(mo) && AllDigits(d)
    requires AllDigits(h) && AllDigits(mi) && AllDigits(s)
    ensures var time := h + ":" + mi + ":" + s;
      RemoveAll(y + "-" + mo + "-" + d + "T" + time + "Z", '-') == y + mo + d + "T" + time + "Z"
  {
    var date, time := y + "-" + mo + "-" + d, h + ":" + mi + ":" + s;
    RemoveFromTriple(y, mo, d, '-', '-');
    AppendChar(date, y + mo + d, 'T', '-');
    RemoveFromTriple(h, mi, s, ':', '-');
    RemoveAllConcat(date + "T", time, '-');
    AppendChar(date + "T" + time, y + mo + d + "T" + time, 'Z', '-');
  }

  /** Removing `:` from `YMDTH:M:SZ` touches only the time part. */
  lemma RemoveColons(ymd: string, h: string, mi: string, s: string)
    requires AllDigits(ymd) && AllDigits(h) && AllDigits(mi) && AllDigits(s)
    ensures var time := h + ":" + mi + ":" + s;
      RemoveAll(ymd + "T" + time + "Z", ':') == ymd + "T" + h + mi + s + "Z"
  {
    var time := h + ":" + mi + ":" + s;
    RemoveAllDigits(ymd, ':');
    AppendChar(ymd, ymd, 'T', ':');
    RemoveFromTriple(h, mi, s, ':', ':');
    RemoveAllConcat(ymd + "T", time, ':');
    AppendChar(ymd + "T" + time, ymd + "T" + h + mi + s, 'Z', ':');
  }

  /**
   * For a well-formed UTC date-time the timestamp is the 16-character
   * basic form: the separators go, the digits, `T` and `Z` stay in place.
   */
  lemma NowAsIso8601OfRfc3339(t: UtcTime)
    requires t.Valid()
    ensures NowAsIso8601(FormatRfc3339(t)) == AmzDate(t)
    ensures |AmzDate(t)| == 16
  {
    var y, mo, d := Pad4(t.year), Pad2(t.month), Pad2(t.day);
    var h, mi, s := Pad2(t.hour), Pad2(t.minute), Pad2(t.second);
    var f := FormatRfc3339(t);
    assert f[..19] + "Z" == f;
    RemoveDashes(y, mo, d, h, mi, s);
    AllDigitsConcat(y, mo);
    AllDigitsConcat(y + mo, d);
    RemoveColons(y + mo + d, h, mi, s);
  }

  // ---------------------------------------------------------------------
  // Decimal rendering (fmt.Sprintf("%d", n) for a length)
  // ---------------------------------------------------------------------

  /** The decimal digits of `n`, without leading zeros. */
  function DecimalString(n: nat): (s: string)
    ensures |s| >= 1 && AllDigits(s)
    ensures s[0] == '0' ==> n == 0
  {
    if n < 10 then [Digit(n)] else DecimalString(n / 10) + [Digit(n % 10)]
  }

  /** The number a run of decimal digits denotes. */
  function DecimalValue(s: string): nat
    requires AllDigits(s)
  {
    if s == [] then 0
    else DecimalValue(s[..|s| - 1]) * 10 + (s[|s| - 1] as int - '0' as int)
  }

  lemma {:induction false} DecimalRoundTrip(n: nat)
    ensures DecimalValue(DecimalString(n)) == n
  {
    if n >= 10 {
      var s := DecimalString(n);
      assert s[..|s| - 1] == DecimalString(n / 10);
      DecimalRoundTrip(n / 10);
    }
  }

  // ---------------------------------------------------------------------
  // makeSTSGetCallerIdentityRequestHeaders and GetIAMAuthElements
  // ---------------------------------------------------------------------

  /**
   * The headers of the unsigned request, for the current time given as
   * an RFC 3339 date-time: the four fixed entries and `X-Amz-Date`, then
   * `Content-Length` added as the decimal length of the body.
   */
  function StsRequestHeaders(rfc3339Now: string): (h: map<string, string>)
    requires |rfc3339Now| >= 19
    ensures h.Keys == HeaderKeys
    ensures h["Accept-Encoding"] == "identity"
    ensures h["Content-Type"] == "application/x-www-form-urlencoded"
    ensures h["Host"] == Host
    ensures h["X-Amz-Date"] == NowAsIso8601(rfc3339Now)
    ensures AllDigits(h["Content-Length"]) && DecimalValue(h["Content-Length"]) == |RequestBody|
    ensures h["Content-Length"] == "43"
  {
    var h := map[
      "Accept-Encoding" := "identity",
      "Content-Type" := "application/x-www-form-urlencoded",
      "Host" := Host,
      "X-Amz-Date" := NowAsIso8601(rfc3339Now)
    ];
    DecimalRoundTrip(|RequestBody|);
    h["Content-Length" := DecimalString(|RequestBody|)]
  }

  /** The endpoint, `https://` + Host + `/`. */
  const RequestUrl: string := "https://" + Host + "/"

  /** Credentials from the shared-credentials provider. */
  datatype AwsCredentials = AwsCredentials(accessKeyId: string, secretAccessKey: string)

  /** What the Signature Version 4 signer receives. */
  datatype SigningParams = SigningParams(
    service: string, region: string, httpMethod: string, url: string,
    headers: map<string, string>, body: string,
    accessKeyId: string, secretKey: string)

  /** The request a login method sends to prove an IAM identity. */
  datatype IamAuthElements = IamAuthElements(
    httpMethod: string, url: string, body: string, headers: map<string, string>)

  /** The parameters handed to the signer for the given time and credentials. */
  function SigningParamsFor(rfc3339Now: string, creds: AwsCredentials): SigningParams
    requires |rfc3339Now| >= 19
  {
    SigningParams(Service, Region, RequestMethod, RequestUrl,
      StsRequestHeaders(rfc3339Now), RequestBody,
      creds.accessKeyId, creds.secretAccessKey)
  }

  /**
   * Builds the signed GetCallerIdentity request. `creds` is what the
   * credentials provider returned and `sign` is the Authorization-header
   * signer; an error from either is returned as is.
   */
  method GetIamAuthElements(
    rfc3339Now: string,
    creds: Result<AwsCredentials, string>,
    sign: SigningParams -> Result<string, string>
  ) returns (r: Result<IamAuthElements, string>)
    requires |rfc3339Now| >= 19
    ensures creds.Failure? ==> r == Failure(creds.error)
    ensures creds.Success? && sign(SigningParamsFor(rfc3339Now, creds.value)).Failure? ==>
      r == Failure(sign(SigningParamsFor(rfc3339Now, creds.value)).error)
    ensures r.Success? <==> creds.Success? && sign(SigningParamsFor(rfc3339Now, creds.value)).Success?
    ensures r.Success? ==>
      && r.value.httpMethod == "POST"
      && r.value.url == "https://sts.amazonaws.com/"
      && r.value.body == RequestBody
      && r.value.headers.Keys == HeaderKeys + {"Authorization"}
      && r.value.headers["Authorization"] == sign(SigningParamsFor(rfc3339Now, creds.value)).value
      && forall k :: k in HeaderKeys ==> r.value.headers[k] == StsRequestHeaders(rfc3339Now)[k]
  {
    if creds.Failure? {
      return Failure(creds.error);
    }
    assert RequestUrl == "https://sts.amazonaws.com/";
    var params := SigningParamsFor(rfc3339Now, creds.value);
    var auth := sign(params);
    if auth.Failure? {
      return Failure(auth.error);
    }
    var headers := params.headers["Authorization" := auth.value];
    r := Success(IamAuthElements(RequestMethod, RequestUrl, RequestBody, headers));
  }
}
