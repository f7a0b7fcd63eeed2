/** The audit records of the E10-v2 profile and their per-record schema.

    A record of the JSONL log is one constructor of `Rec`; the fields kept are the ones that
    some branch of the verifier reads or whose value the schema constrains.  A record whose
    field set or field types do not match its decision is `Malformed`, and a decision outside
    the profile is `Unrecognized`, so that both rejections stay observable. */
module Records {

  datatype Option<+T> = None | Some(value: T)

  /** The (family, address, port) a connection is bound to for its whole life. */
  datatype Pin = Pin(family: string, ip: string, port: int)

  /** The quiescence facts that KILL_SWITCH, ACK and DRAIN_TIMEOUT all carry. */
  datatype Facts = Facts(cancellationEpoch: int, seqNo: int, drained: bool,
                         inflight: int, permits: int, producers: int,
                         listener: string, external: string)

  datatype Rec =
    | AuthCommitted(aid: string, conn: string, epoch: int, seqNo: int, version: string,
                    program: string, generation: string, budget: string, verb: string,
                    host: string, pin: Pin, credential: string, digest: string)
    | PermitGranted(aid: string, conn: string, epoch: int, seqNo: int,
                    generation: string, budget: string)
    | EffectAttempted(aid: string, conn: string, epoch: int, permitSeq: int,
                      pinIp: string, pinPort: int)
    | EffectCompleted(aid: string, conn: string, epoch: int, permitSeq: int,
                      status: int, responseHash: string, streamed: int)
    | EffectFailed(aid: string, conn: string, epoch: int, permitRef: Option<int>, reason: string)
    | EffectUnknown(aid: string, conn: string, epoch: int, permitSeq: int, reason: string,
                    bytes: Option<int>)
    | EffectCancelled(aid: string, conn: string, epoch: int, permitRef: Option<int>, reason: string)
    | Allow(aid: string, conn: string, program: string, verb: string, host: string, pin: Pin,
            requestHash: string, semantics: string, responseHash: string, status: int,
            streamed: int, reason: string, tlsIntercepted: bool, redirected: bool,
            injected: bool, url: string, sni: Option<string>)
    | PermitReleased(aid: string, conn: string, epoch: int, permitSeq: int, seqNo: int)
    | ConnectionTerminated(aid: string, conn: string, verb: string, pin: Pin, streamed: int,
                           url: string, reason: string)
    | Blocked(reason: string, blockedPin: Option<Pin>)
    | Startup(reason: string, maxConnections: int)
    | StartupDegraded(reason: string)
    | StartupFailed(reason: string)
    | CancelRequested(reason: string, cancellationEpoch: int, seqNo: int)
    | CancelLinearized(cancelledEpoch: int, newEpoch: int, seqNo: int, inflight: int)
    | KillSwitch(reason: string, torn: int, tornIds: seq<string>, registered: seq<string>,
                 facts: Facts)
    | CancelAck(scope: string, facts: Facts)
    | DrainTimeout(scope: string, blockers: Option<seq<string>>, facts: Facts)
    | RunClosed(schema: string, closureSeq: int, closureState: string, admission: string,
                inflight: int, permits: int, producers: int, listener: string,
                sealAction: string, disposition: string)
    | Malformed(decision: string)
    | Unrecognized(decision: string)

  /** One log line: the run id the writer stamps on every record, and the record. */
  datatype Entry = Entry(runId: string, rec: Rec)

  const PROFILE := "E10-v2"
  const RUN_CLOSE_SCHEMA := "E10-run-close-v1"
  const SANITIZED := "sanitized-intent-v2"
  const NO_EXTERNAL := "NOT_RUN_PHASE1"
  const STOPPED := "STOPPED"
  const NOT_STOPPED := "NOT_STOPPED"
  const ACK_SCOPE := "LOCAL_IN_PROCESS_DRAIN_ONLY"
  const NO_ACK_SCOPE := "NO_ACK_DRAIN_INCOMPLETE"
  const SEAL_ACTION := "FINAL_FSYNC_THEN_ATOMIC_SEAL"
  const ACK_DECISION := "CANCELLATION_ACK"

  // ---------------------------------------------------------------- text patterns

  predicate IsHexDigit(c: char) {
    '0' <= c <= '9' || 'a' <= c <= 'f'
  }

  predicate IsHex64(s: string) {
    |s| == 64 && forall i | 0 <= i < |s| :: IsHexDigit(s[i])
  }

  predicate IsDigest(s: string) {
    |s| == 71 && s[..7] == "sha256:" && IsHex64(s[7..])
  }

  /** The ASCII characters that `str.isspace` accepts. */
  predicate IsSpace(c: char) {
    c == ' ' || '\t' <= c <= '\r' || '\U{1C}' <= c <= '\U{1F}'
  }

  function LowerChar(c: char): char {
    if 'A' <= c <= 'Z' then (c as int + 32) as char else c
  }

  function Lower(s: string): string {
    seq(|s|, i requires 0 <= i < |s| => LowerChar(s[i]))
  }

  function UpperChar(c: char): char {
    if 'a' <= c <= 'z' then (c as int - 32) as char else c
  }

  function Upper(s: string): string {
    seq(|s|, i requires 0 <= i < |s| => UpperChar(s[i]))
  }

  /** A credential reference that looks like the credential itself. */
  predicate LooksSecret(credential: string) {
    || "bearer " <= Lower(credential)
    || exists i | 0 <= i < |credential| :: IsSpace(credential[i])
  }

  predicate UrlUnder(url: string, host: string) {
    "https://" + host <= url
  }

  // ---------------------------------------------------------------- schema

  predicate PinInRange(p: Pin) {
    1 <= p.port <= 65535
  }

  predicate FactsInRange(f: Facts) {
    0 <= f.cancellationEpoch && 0 <= f.seqNo && 0 <= f.inflight && 0 <= f.permits && 0 <= f.producers
  }

  /** The value constraints that the schema puts on a record with the right fields. */
  predicate SchemaOk(r: Rec) {
    match r
    case AuthCommitted(aid, conn, epoch, seqNo, version, program, generation, budget, verb, host, pin,
                       credential, digest) =>
      && version == PROFILE && 0 <= epoch && 0 < seqNo
      && aid != "" && conn != "" && program != "" && generation != "" && budget != ""
      && verb != "" && host != "" && pin.ip != "" && credential != ""
      && (pin.family == "ipv4" || pin.family == "ipv6") && PinInRange(pin)
      && IsDigest(digest)
    case PermitGranted(_, _, epoch, seqNo, _, _) => 0 <= epoch && 0 < seqNo
    case EffectAttempted(_, _, epoch, permitSeq, _, pinPort) => 0 <= epoch && 0 < permitSeq && 0 <= pinPort
    case EffectCompleted(_, _, epoch, permitSeq, status, responseHash, streamed) =>
      0 <= epoch && 0 < permitSeq && 0 <= status && 0 <= streamed && IsHex64(responseHash)
    case EffectFailed(_, _, epoch, permitRef, reason) =>
      0 <= epoch && (permitRef.Some? ==> 0 < permitRef.value) && reason != ""
    case EffectUnknown(_, _, epoch, permitSeq, reason, bytes) =>
      0 <= epoch && 0 < permitSeq && reason != "" && (bytes.Some? ==> 0 <= bytes.value)
    case EffectCancelled(_, _, epoch, permitRef, reason) =>
      0 <= epoch && (permitRef.Some? ==> 0 < permitRef.value) && reason != ""
    case Allow(_, _, _, _, _, pin, requestHash, semantics, responseHash, status, streamed, _, _, _, _, _, _) =>
      && semantics == SANITIZED && IsHex64(requestHash) && IsHex64(responseHash)
      && 0 <= pin.port && 0 <= status && 0 <= streamed
    case PermitReleased(_, _, epoch, permitSeq, seqNo) => 0 <= epoch && 0 <= permitSeq && 0 < seqNo
    case ConnectionTerminated(_, _, _, pin, streamed, _, reason) =>
      PinInRange(pin) && 0 <= streamed && reason != ""
    case Blocked(reason, pin) => reason != "" && (pin.Some? ==> PinInRange(pin.value))
    case Startup(reason, maxConnections) => reason != "" && 0 <= maxConnections
    case StartupDegraded(reason) => reason != ""
    case StartupFailed(reason) => reason != ""
    case CancelRequested(reason, cancellationEpoch, seqNo) =>
      reason != "" && 0 <= cancellationEpoch && 0 < seqNo
    case CancelLinearized(cancelledEpoch, newEpoch, seqNo, inflight) =>
      0 <= cancelledEpoch && 0 <= newEpoch && 0 < seqNo && 0 <= inflight
    case KillSwitch(reason, torn, _, _, facts) => reason != "" && 0 <= torn && FactsInRange(facts)
    case CancelAck(_, facts) => FactsInRange(facts)
    case DrainTimeout(_, _, facts) => FactsInRange(facts)
    case RunClosed(_, closureSeq, _, _, inflight, permits, producers, _, _, _) =>
      0 <= closureSeq && 0 <= inflight && 0 <= permits && 0 <= producers
    case Malformed(_) => false
    case Unrecognized(_) => false
  }

  // ---------------------------------------------------------------- classification

  /** FAILED or CANCELLED: an outcome that needs no durable attempt before it. */
  predicate Soft(r: Rec) {
    r.EffectFailed? || r.EffectCancelled?
  }

  predicate IsTerminal(r: Rec) {
    r.EffectCompleted? || r.EffectUnknown? || Soft(r)
  }

  /** The records that belong to one attempt's story. */
  predicate IsStoryRec(r: Rec) {
    || r.AuthCommitted? || r.PermitGranted? || r.EffectAttempted? || IsTerminal(r)
    || r.Allow? || r.PermitReleased? || r.ConnectionTerminated?
  }

  /** The attempt a story record names. */
  function AidOf(r: Rec): string
    requires IsStoryRec(r)
  {
    r.aid
  }

  /** The records of the cancellation and closure sequence. */
  predicate IsTailRec(r: Rec): (tail: bool)
    ensures tail ==> !IsStoryRec(r) && !IsStartupRec(r)
  {
    || r.CancelRequested? || r.CancelLinearized? || r.KillSwitch? || r.CancelAck?
    || r.DrainTimeout? || r.RunClosed?
  }

  predicate IsStartupRec(r: Rec): (startup: bool)
    ensures startup ==> !IsStoryRec(r)
  {
    r.Startup? || r.StartupDegraded? || r.StartupFailed?
  }

  /** The permit a terminal record claims: COMPLETED and UNKNOWN always carry one. */
  function PermitRefOf(r: Rec): Option<int>
    requires IsTerminal(r)
  {
    match r
    case EffectCompleted(_, _, _, permitSeq, _, _, _) => Some(permitSeq)
    case EffectUnknown(_, _, _, permitSeq, _, _) => Some(permitSeq)
    case EffectFailed(_, _, _, permitRef, _) => permitRef
    case EffectCancelled(_, _, _, permitRef, _) => permitRef
  }

  /** The records that own a global lifecycle sequence number. */
  predicate OwnsSeq(r: Rec) {
    r.AuthCommitted? || r.PermitGranted? || r.PermitReleased? || r.CancelLinearized?
  }

  predicate Distinct(ids: seq<string>) {
    forall i, j | 0 <= i < j < |ids| :: ids[i] != ids[j]
  }
}
