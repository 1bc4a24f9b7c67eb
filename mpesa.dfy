/**
 * Building the M-Pesa STK push ("Lipa na M-Pesa Online") request: phone
 * number normalisation, the callback URL, the password and the payload
 * fields. The access token, the clock and the POST's answer are parameters.
 */
module Mpesa {
  import opened Wrappers
  import opened Strings
  import Base64

  /** The deployment settings the request reads; each may be unset. */
  datatype Settings = Settings(shortcode: Option<string>, passkey: Option<string>, appDomain: Option<string>)

  /** `f"{x}"` of a setting: an unset one formats as "None". */
  function PyStr(s: Option<string>): string {
    match s
    case None => "None"
    case Some(v) => v
  }

  /** A local wall-clock reading. */
  datatype Clock = Clock(year: nat, month: nat, day: nat, hour: nat, minute: nat, second: nat)

  predicate ValidClock(c: Clock) {
    1000 <= c.year <= 9999 && 1 <= c.month <= 12 && 1 <= c.day <= 31
    && c.hour < 24 && c.minute < 60 && c.second < 60
  }

  /** `strftime('%Y%m%d%H%M%S')`: each field zero-padded, run together. */
  function Timestamp(c: Clock): (r: string)
    ensures forall i :: 0 <= i < |r| ==> IsDigit(r[i])
  {
    ZeroPad(c.year, 4) + ZeroPad(c.month, 2) + ZeroPad(c.day, 2)
      + ZeroPad(c.hour, 2) + ZeroPad(c.minute, 2) + ZeroPad(c.second, 2)
  }

  /** A valid reading gives the fourteen-digit form M-Pesa expects. */
  lemma TimestampLength(c: Clock)
    requires ValidClock(c)
    ensures |Timestamp(c)| == 14
  {
    ZeroPadWidth(c.year, 4);
    ZeroPadWidth(c.month, 2);
    ZeroPadWidth(c.day, 2);
    ZeroPadWidth(c.hour, 2);
    ZeroPadWidth(c.minute, 2);
    ZeroPadWidth(c.second, 2);
  }

  /**
   * The phone number M-Pesa is given: a leading '+' is dropped, a leading
   * '0' becomes the country code 254, anything else is passed as is.
   */
  function FormatPhone(phone: string): (r: string)
    ensures StartsWith(phone, "+") ==> r == phone[1..]
    ensures !StartsWith(phone, "+") && StartsWith(phone, "0") ==> r == "254" + phone[1..]
    ensures !StartsWith(phone, "+") && !StartsWith(phone, "0") ==> r == phone
  {
    if |phone| > 0 && phone[0] == '+' then phone[1..]
    else if |phone| > 0 && phone[0] == '0' then "254" + phone[1..]
    else phone
  }

  /** The international, local and bare forms of a Kenyan number all become the same MSISDN. */
  lemma PhoneFormsAgree(subscriber: string)
    ensures FormatPhone("+254" + subscriber) == "254" + subscriber
    ensures FormatPhone("0" + subscriber) == "254" + subscriber
    ensures FormatPhone("254" + subscriber) == "254" + subscriber
  {
    assert ("+254" + subscriber)[1..] == "254" + subscriber;
    assert ("0" + subscriber)[1..] == subscriber;
  }

  const CallbackPath := "/api/payments/mpesa-callback/"

  /**
   * The callback URL built from the app domain; None when the domain is unset
   * or empty (the push is then not sent).
   */
  function CallbackUrl(domain: Option<string>): (r: Option<string>)
    ensures r.None? <==> domain.None? || domain.value == ""
    ensures r.Some? && StartsWith(domain.value, "http") ==> r.value == domain.value + CallbackPath
    ensures r.Some? && !StartsWith(domain.value, "http") ==> r.value == "https://" + domain.value + CallbackPath
  {
    if domain.None? || domain.value == "" then None
    else
      var base := if StartsWith(domain.value, "http") then domain.value else "https://" + domain.value;
      Some(base + CallbackPath)
  }

  /** Every callback URL has a scheme and ends in the callback route. */
  lemma CallbackUrlShape(domain: Option<string>)
    requires CallbackUrl(domain).Some?
    ensures StartsWith(CallbackUrl(domain).value, "http")
    ensures var u := CallbackUrl(domain).value;
            |u| >= |CallbackPath| && u[|u| - |CallbackPath|..] == CallbackPath
  {
    var d := domain.value;
    var base := if StartsWith(d, "http") then d else "https://" + d;
    if StartsWith(d, "http") {
      assert (d + CallbackPath)[..4] == d[..4];
    } else {
      StartsWithConcat("https://", d);
      assert (base + CallbackPath)[..4] == "http";
    }
    var u := base + CallbackPath;
    assert u[|u| - |CallbackPath|..] == CallbackPath;
  }

  /** The password string before encoding: shortcode, passkey and timestamp run together. */
  function PasswordText(s: Settings, ts: string): string {
    PyStr(s.shortcode) + PyStr(s.passkey) + ts
  }

  /** `Password`: the base64 (RFC 4648, section 4) encoding of the UTF-8 password text. */
  function Password(s: Settings, ts: string): (r: string)
    ensures |r| == 4 * ((|Base64.Utf8(PasswordText(s, ts))| + 2) / 3)
  {
    Base64.Encode(Base64.Utf8(PasswordText(s, ts)))
  }

  /** The password decodes back to exactly the bytes of shortcode ++ passkey ++ timestamp. */
  lemma PasswordDecodes(s: Settings, ts: string)
    ensures Base64.Decode(Password(s, ts)) == Some(Base64.Utf8(PasswordText(s, ts)))
  {
    Base64.DecodeEncode(Base64.Utf8(PasswordText(s, ts)));
  }

  /** `int(amount)` on a two-place decimal held as cents: whole units, truncated toward zero. */
  function TruncUnits(cents: int): (r: int)
    ensures cents >= 0 ==> r >= 0 && 100 * r <= cents < 100 * r + 100
    ensures cents < 0 ==> r <= 0 && 100 * r - 100 < cents <= 100 * r
  {
    if cents >= 0 then cents / 100 else -((-cents) / 100)
  }

  /** Truncation is symmetric: a refund of x truncates to minus the units of x. */
  lemma TruncUnitsOdd(cents: int)
    ensures TruncUnits(-cents) == -TruncUnits(cents)
  {
  }

  /** The STK push payload. `businessShortCode` and `partyB` are the shortcode setting, JSON null when unset. */
  datatype StkRequest = StkRequest(
    businessShortCode: Option<string>,
    password: string,
    timestamp: string,
    transactionType: string,
    amount: int,
    partyA: string,
    partyB: Option<string>,
    phoneNumber: string,
    callbackUrl: string,
    accountReference: string,
    transactionDesc: string)

  /** The fields of the push's JSON answer that the engine reads. */
  datatype StkResponse = StkResponse(responseCode: Option<string>, checkoutRequestId: Option<string>)

  /**
   * The request `initiate_stk_push` would post, or None when it gives up
   * before posting: no access token, or no app domain.
   */
  function BuildStkRequest(s: Settings, token: Option<string>, now: Clock, phone: string, amount: int, orderId: nat): (r: Option<StkRequest>)
    ensures r.Some? <==> token.Some? && token.value != "" && CallbackUrl(s.appDomain).Some?
    ensures r.Some? ==> r.value.callbackUrl == CallbackUrl(s.appDomain).value
  {
    if token.None? || token.value == "" then None
    else match CallbackUrl(s.appDomain)
      case None => None
      case Some(url) =>
        var ts := Timestamp(now);
        var msisdn := FormatPhone(phone);
        var id := NatToString(orderId);
        Some(StkRequest(s.shortcode, Password(s, ts), ts, "CustomerPayBillOnline", TruncUnits(amount),
                        msisdn, s.shortcode, msisdn, url, id, "Payment for Order #" + id))
  }

  /**
   * The payload ties the payment to the order and the customer: the payer and
   * the prompted phone are the same normalised number, the payee is the
   * business shortcode, the amount is the whole-unit total, and the account
   * reference is the order id, which reads back as that id.
   */
  lemma StkRequestFields(s: Settings, token: Option<string>, now: Clock, phone: string, amount: int, orderId: nat)
    requires BuildStkRequest(s, token, now, phone, amount, orderId).Some?
    ensures var q := BuildStkRequest(s, token, now, phone, amount, orderId).value;
            && q.partyA == q.phoneNumber == FormatPhone(phone)
            && q.partyB == q.businessShortCode == s.shortcode
            && q.amount == TruncUnits(amount)
            && ParsePyInt(q.accountReference) == Some(orderId)
            && q.transactionDesc == "Payment for Order #" + q.accountReference
            && q.transactionType == "CustomerPayBillOnline"
            && q.timestamp == Timestamp(now)
            && Base64.Decode(q.password) == Some(Base64.Utf8(PasswordText(s, q.timestamp)))
  {
    ParsePyIntOfNatToString(orderId);
    PasswordDecodes(s, Timestamp(now));
  }

  /**
   * `initiate_stk_push`: None when no request is built; otherwise the POST's
   * answer, where `post` is that answer (None when the POST fails).
   */
  function InitiateStkPush(s: Settings, token: Option<string>, now: Clock, phone: string, amount: int, orderId: nat,
                           post: Option<StkResponse>): (r: Option<StkResponse>)
    ensures BuildStkRequest(s, token, now, phone, amount, orderId).None? ==> r.None?
    ensures BuildStkRequest(s, token, now, phone, amount, orderId).Some? ==> r == post
  {
    if BuildStkRequest(s, token, now, phone, amount, orderId).None? then None else post
  }
}
