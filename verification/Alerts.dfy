/** One alert: its row, the append-only log of its events, and the transitions between them. */
module Alerts {
  import opened Wrappers

  type EvaluationId = nat

  /** The zero instant: a timestamp nobody set. */
  const UNSET: Time := 0

  /** Raw JSON: its bytes and the canonical form the decoder makes of them, if they parse. */
  datatype Json = Json(bytes: string, canonical: Option<string>)
  {
    predicate Empty() { bytes == "" }
  }

  const NULL_JSON := Json("null", Some("null"))

  /** Whether two evidence payloads are materially the same; one that does not parse never is. */
  predicate SameEvidence(a: Json, b: Json): (same: bool)
    ensures a.bytes == "" || b.bytes == "" ==> (same <==> a.bytes == b.bytes)
    ensures a.bytes != "" && b.bytes != "" ==>
              (same <==> exists form :: a.canonical == Some(form) && b.canonical == Some(form))
  {
    if a.Empty() || b.Empty() then a.Empty() && b.Empty()
    else a.canonical.Some? && b.canonical.Some? && a.canonical == b.canonical
  }

  datatype Status = Open | Acknowledged | Resolved
  {
    predicate Active() { !Resolved? }
  }

  datatype Ack = Ack(actor: string, at: Time, note: string)

  datatype Snooze = Snooze(until: Time, actor: string, at: Time, note: string)

  datatype ResolutionKind = Auto | FixedByBooking | AcceptedByBusiness

  datatype Resolution = Resolution(kind: ResolutionKind, actor: string, at: Time, note: string,
                                   transactionRefs: seq<string>, evidenceSnapshot: Json)

  const NO_JSON := Json("", None)

  datatype Alert = Alert(
    status: Status, severity: string, firstSeenAt: Time, lastSeenAt: Time, occurrenceCount: nat,
    lastEvaluation: EvaluationId, evidence: Json, ack: Option<Ack>, resolution: Option<Resolution>,
    snooze: Option<Snooze>, labels: map<string, string>)

  datatype EventKind = FailEvent | PassEvent | AckEvent | ResolveEvent | AcceptEvent | SnoozeEvent | UnsnoozeEvent

  datatype Payload =
    | Evidence(json: Json)
    | Acked(ack: Ack)
    | Closed(resolution: Resolution)
    | Muted(snooze: Snooze)
    | LiftedBy(actor: string)

  datatype Event = Event(kind: EventKind, evaluation: Option<EvaluationId>, prev: Option<Status>, next: Status,
                         payload: Payload, notify: bool, at: Time)

  /** An appended event with the alert as the transition left it: what a publication carries. */
  datatype Entry = Entry(event: Event, alert: Alert)

  datatype Track = Track(row: Option<Alert>, log: seq<Entry>)

  const NEW_TRACK := Track(None, [])

  datatype AlertError = NotFound | Rejected

  type Outcome = Result<Track, AlertError>

  function OrNow(at: Time, now: Time): Time {
    if at == UNSET then now else at
  }

  function Append(t: Track, alert: Alert, event: Event): Track {
    Track(Some(alert), t.log + [Entry(event, alert)])
  }

  // Evaluations

  datatype Failure = Failure(severity: string, evaluation: EvaluationId, evidence: Json,
                             labels: map<string, string>, occurredAt: Time)

  predicate SnoozeActive(alert: Alert, at: Time) {
    alert.snooze.Some? && at < alert.snooze.value.until
  }

  /** Whether a repeated failure is published. */
  function Notifies(current: Alert, f: Failure, at: Time): bool {
    if SnoozeActive(current, at) then false
    else if current.snooze.Some? then true
    else current.status.Resolved? || !current.status.Open? || !SameEvidence(current.evidence, f.evidence)
  }

  /** The row after a further failure. An acknowledgement, a resolution and a lapsed snooze go. */
  function Refailed(current: Alert, f: Failure, at: Time): Alert {
    current.(
      status := Open, lastSeenAt := at, lastEvaluation := f.evaluation,
      occurrenceCount := current.occurrenceCount + 1, evidence := f.evidence,
      resolution := if current.status.Resolved? then None else current.resolution,
      ack := if current.status.Open? then current.ack else None,
      snooze := if SnoozeActive(current, at) then current.snooze else None)
  }

  function OpenOrUpdate(t: Track, f: Failure, now: Time): Track {
    var at := OrNow(f.occurredAt, now);
    match t.row
    case None =>
      Append(t, Alert(Open, f.severity, at, at, 1, f.evaluation, f.evidence, None, None, None, f.labels),
             Event(FailEvent, Some(f.evaluation), None, Open, Evidence(f.evidence), true, at))
    case Some(current) =>
      Append(t, Refailed(current, f, at),
             Event(FailEvent, Some(f.evaluation), Some(current.status), Open, Evidence(f.evidence),
                   Notifies(current, f, at), at))
  }

  predicate HasActive(t: Track) {
    t.row.Some? && t.row.value.status.Active()
  }

  /** Closes the active alert, if there is one. */
  function AutoResolve(t: Track, evaluation: EvaluationId, at: Time, now: Time): Track {
    if !HasActive(t) then t
    else
      var current := t.row.value;
      var resolution := Resolution(Auto, "system", OrNow(at, now), "", [], NO_JSON);
      Append(t, current.(status := Resolved, resolution := Some(resolution), snooze := None, lastEvaluation := evaluation),
             Event(PassEvent, Some(evaluation), Some(current.status), Resolved, Closed(resolution), true, OrNow(at, now)))
  }

  // Operators

  function Acknowledge(t: Track, ack: Ack, now: Time): Outcome {
    if !HasActive(t) then Err(NotFound)
    else if t.row.value.status.Acknowledged? then Ok(t)
    else
      Ok(Append(t, t.row.value.(status := Acknowledged, ack := Some(ack)),
                Event(AckEvent, None, Some(t.row.value.status), Acknowledged, Acked(ack), true, OrNow(ack.at, now))))
  }

  /** A business acceptance freezes the evidence of the row unless it brings its own. */
  function Frozen(current: Alert, resolution: Resolution): Resolution {
    if resolution.kind.AcceptedByBusiness? && resolution.evidenceSnapshot.Empty() then
      resolution.(evidenceSnapshot := if current.evidence.Empty() then NULL_JSON else current.evidence)
    else resolution
  }

  function ApplyResolution(t: Track, resolution: Resolution, kind: EventKind, now: Time): Outcome {
    if !HasActive(t) then Err(NotFound)
    else
      var current := t.row.value;
      var frozen := Frozen(current, resolution);
      Ok(Append(t, current.(status := Resolved, resolution := Some(frozen), snooze := None),
                Event(kind, None, Some(current.status), Resolved, Closed(frozen), true, OrNow(frozen.at, now))))
  }

  function ResolveManual(t: Track, resolution: Resolution, now: Time): Outcome {
    if resolution.kind.AcceptedByBusiness? then Err(Rejected)
    else ApplyResolution(t, resolution, ResolveEvent, now)
  }

  function Accept(t: Track, resolution: Resolution, now: Time): Outcome {
    if !resolution.kind.AcceptedByBusiness? || resolution.note == "" then Err(Rejected)
    else ApplyResolution(t, resolution, AcceptEvent, now)
  }

  function SnoozeUntil(t: Track, until: Time, actor: string, note: string, now: Time): Outcome {
    if until <= now then Err(Rejected)
    else if !HasActive(t) then Err(NotFound)
    else
      var current, snooze := t.row.value, Snooze(until, actor, now, note);
      Ok(Append(t, current.(snooze := Some(snooze)),
                Event(SnoozeEvent, None, Some(current.status), current.status, Muted(snooze), true, now)))
  }

  function Unsnooze(t: Track, actor: string, now: Time): Outcome {
    if t.row.None? then Err(NotFound)
    else if t.row.value.snooze.None? then Ok(t)
    else
      var current := t.row.value;
      Ok(Append(t, current.(snooze := None),
                Event(UnsnoozeEvent, None, Some(current.status), current.status, LiftedBy(actor), true, now)))
  }

  // Runs

  datatype Op =
    | FailOp(failure: Failure, now: Time)
    | PassOp(evaluation: EvaluationId, at: Time, now: Time)
    | AckOp(ack: Ack, now: Time)
    | ResolveOp(resolution: Resolution, now: Time)
    | AcceptOp(resolution: Resolution, now: Time)
    | SnoozeOp(until: Time, actor: string, note: string, now: Time)
    | UnsnoozeOp(actor: string, now: Time)

  function Try(t: Track, op: Op): Outcome {
    match op
    case FailOp(failure, now) => Ok(OpenOrUpdate(t, failure, now))
    case PassOp(evaluation, at, now) => Ok(AutoResolve(t, evaluation, at, now))
    case AckOp(ack, now) => Acknowledge(t, ack, now)
    case ResolveOp(resolution, now) => ResolveManual(t, resolution, now)
    case AcceptOp(resolution, now) => Accept(t, resolution, now)
    case SnoozeOp(until, actor, note, now) => SnoozeUntil(t, until, actor, note, now)
    case UnsnoozeOp(actor, now) => Unsnooze(t, actor, now)
  }

  /** A rejected operation rolls its transaction back. */
  function Do(t: Track, op: Op): Track {
    if Try(t, op).Ok? then Try(t, op).value else t
  }

  function Run(t: Track, ops: seq<Op>): Track
    decreases |ops|
  {
    if ops == [] then t else Run(Do(t, ops[0]), ops[1..])
  }

  // Publication

  datatype EventType = OpenedAlert | UpdatedAlert | AcknowledgedAlert | ResolvedAlert | AcceptedAlert | ReopenedAlert
                     | SnoozedAlert | UnsnoozedAlert

  function EventTypeFor(e: Event): EventType {
    match e.kind
    case FailEvent =>
      if e.prev.None? then OpenedAlert else if e.prev.value.Resolved? then ReopenedAlert else UpdatedAlert
    case AckEvent => AcknowledgedAlert
    case PassEvent => ResolvedAlert
    case ResolveEvent => ResolvedAlert
    case AcceptEvent => AcceptedAlert
    case SnoozeEvent => SnoozedAlert
    case UnsnoozeEvent => UnsnoozedAlert
  }

  /** The entries handed to the publisher. */
  function Published(log: seq<Entry>): seq<Entry> {
    if log == [] then []
    else
      var last := log[|log| - 1];
      Published(log[..|log| - 1]) + if last.event.notify then [last] else []
  }

  /** Published are the entries that notify, all of them, as often and in the order they were logged. */
  lemma {:induction false} PublishedNotify(log: seq<Entry>, i: nat)
    requires i < |log|
    ensures Published(log[..i]) <= Published(log[..i + 1]) <= Published(log)
    ensures Published(log[..i + 1]) == if log[i].event.notify then Published(log[..i]) + [log[i]] else Published(log[..i])
    decreases |log| - i
  {
    assert log[..i + 1][..i] == log[..i];
    if i + 1 < |log| {
      PublishedNotify(log, i + 1);
    } else {
      assert log[..i + 1] == log;
    }
  }
}
