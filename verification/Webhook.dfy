/** The sms delivery-status callback (src/application/service/sms_status_webhook_service.rs). */
module Webhook {
  import opened Prelude
  import opened Events
  import opened Bytes
  import opened SmsQueue

  const MAX_SKEW_SECS: nat := 300

  /** Times in milliseconds. */
  datatype Payload = Payload(
    timestamp: int, sms: Uuid, status: string, failureType: Option<string>, errorMessage: Option<string>)

  datatype WebhookError =
    | MissingSignature | MalformedSignature | SignatureMismatch | InvalidBody | StaleTimestamp
    | InvalidStatus | NoSuchSms | DatabaseRefused

  datatype WebhookOutcome = RowAdvanced | RowReplay

  type Mac = (seq<Byte>, seq<Byte>) -> seq<Byte>

  function StateNamed(status: string): Option<SmsState> {
    match status
    case "process" => Some(Process)
    case "pending" => Some(Pending)
    case "sent" => Some(Sent)
    case "error" => Some(Error)
    case _ => None
  }

  function Abs(x: int): nat { if x < 0 then -x else x }

  /** Whole seconds of skew, truncated toward zero. */
  function SkewSeconds(now: int, timestamp: int): nat { Abs(now - timestamp) / 1000 }

  /** The header spells the MAC of the raw body, in either case. */
  predicate Signed(mac: Mac, secret: seq<Byte>, raw: seq<Byte>, header: Option<string>) {
    header.Some? && Spells(header.value, mac(secret, raw))
  }

  predicate SignatureRefused(r: Result<WebhookOutcome, WebhookError>) {
    r.Err? && (r.error.MissingSignature? || r.error.MalformedSignature? || r.error.SignatureMismatch?)
  }

  function LateOf(payload: Payload, target: SmsState): LateVerdict {
    LateVerdict(target, payload.failureType, payload.errorMessage)
  }

  /** A callback changes state only if its header spells the MAC of its body, the body parses, its
      timestamp is less than 301 seconds away, and its status is a known one; then it does what
      the late-verdict seam does. Every refusal leaves rows and trackers untouched. */
  method Handle(sms: SmsWriteService, mac: Mac, secret: seq<Byte>, raw: seq<Byte>, header: Option<string>,
                decode: seq<Byte> -> Option<Payload>, now: int)
      returns (r: Result<WebhookOutcome, WebhookError>)
    requires forall k, m :: |mac(k, m)| == 32
    modifies sms
    ensures SignatureRefused(r) <==> !Signed(mac, secret, raw, header)
    ensures r == Err(MissingSignature) <==> header.None?
    ensures r == Err(MalformedSignature) <==>
      header.Some? && !(|header.value| == 64 && forall c :: c in header.value ==> HexDigit(c))
    ensures r == Err(InvalidBody) <==> Signed(mac, secret, raw, header) && decode(raw).None?
    ensures r == Err(StaleTimestamp) <==>
      Signed(mac, secret, raw, header) && decode(raw).Some?
        && Abs(now - decode(raw).value.timestamp) >= 1000 * (MAX_SKEW_SECS + 1)
    ensures r == Err(InvalidStatus) <==>
      Signed(mac, secret, raw, header) && decode(raw).Some?
        && Abs(now - decode(raw).value.timestamp) < 1000 * (MAX_SKEW_SECS + 1)
      && StateNamed(decode(raw).value.status).None?
    ensures r.Err? || r == Ok(RowReplay) ==> sms.rows == old(sms.rows) && sms.trackers == old(sms.trackers)
    ensures r.Ok? || r == Err(NoSuchSms) || r == Err(DatabaseRefused) ==>
      && decode(raw).Some? && StateNamed(decode(raw).value.status).Some?
      && (var payload := decode(raw).value;
          var late := LateOf(payload, StateNamed(payload.status).value);
          && sms.rows == AdvanceRow(old(sms.rows), payload.sms, late)
          && sms.trackers == AdvanceTracker(old(sms.rows), old(sms.trackers), payload.sms, late)
          && (r == Ok(RowAdvanced) <==> AdvanceAnswer(old(sms.rows), payload.sms, late).Advanced?)
          && (r == Err(NoSuchSms) <==> payload.sms !in old(sms.rows)))
  {
    if header.None? { return Err(MissingSignature); }
    var expected := mac(secret, raw);
    var given := ParseHex32(header.value);
    ParsesToIffSpells(header.value, given, expected);
    if given.None? { return Err(MalformedSignature); }
    var equal := ConstEq(expected, given.value);
    if !equal { return Err(SignatureMismatch); }
    var body := decode(raw);
    if body.None? { return Err(InvalidBody); }
    var payload := body.value;
    if SkewSeconds(now, payload.timestamp) > MAX_SKEW_SECS { return Err(StaleTimestamp); }
    var target := StateNamed(payload.status);
    if target.None? { return Err(InvalidStatus); }
    var answer := sms.AdvanceState(payload.sms, LateOf(payload, target.value));
    match answer {
      case Advanced => return Ok(RowAdvanced);
      case Replayed => return Ok(RowReplay);
      case UnknownSms => return Err(NoSuchSms);
      case RefusedByDatabase => return Err(DatabaseRefused);
    }
  }
}
