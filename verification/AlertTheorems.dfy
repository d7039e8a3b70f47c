/** What holds of an alert after any sequence of evaluations and operator actions. */
module AlertTheorems {
  import opened Wrappers
  import opened Alerts

  // The row is a fold of the log

  /** What of a row can be told from its log. */
  datatype View = View(status: Status, occurrenceCount: nat, evidence: Json, ack: Option<Ack>,
                       resolution: Option<Resolution>, snooze: Option<Snooze>, lastEvaluation: EvaluationId,
                       firstSeenAt: Time, lastSeenAt: Time)

  function ViewOf(alert: Alert): View {
    View(alert.status, alert.occurrenceCount, alert.evidence, alert.ack, alert.resolution, alert.snooze,
         alert.lastEvaluation, alert.firstSeenAt, alert.lastSeenAt)
  }

  /** Replays one event, from the event alone; None for an event no log can hold at that place. */
  function Replay(view: Option<View>, e: Event): Option<View> {
    match (view, e.kind, e.payload)
    case (None, FailEvent, Evidence(json)) =>
      if e.evaluation.None? then None
      else Some(View(Open, 1, json, None, None, None, e.evaluation.value, e.at, e.at))
    case (Some(v), FailEvent, Evidence(json)) =>
      if e.evaluation.None? then None
      else Some(View(Open, v.occurrenceCount + 1, json, None, None,
                     if v.snooze.Some? && e.at < v.snooze.value.until then v.snooze else None,
                     e.evaluation.value, v.firstSeenAt, e.at))
    case (Some(v), PassEvent, Closed(resolution)) =>
      if e.evaluation.None? then None
      else Some(v.(status := Resolved, resolution := Some(resolution), snooze := None, lastEvaluation := e.evaluation.value))
    case (Some(v), ResolveEvent, Closed(resolution)) =>
      Some(v.(status := Resolved, resolution := Some(resolution), snooze := None))
    case (Some(v), AcceptEvent, Closed(resolution)) =>
      Some(v.(status := Resolved, resolution := Some(resolution), snooze := None))
    case (Some(v), AckEvent, Acked(ack)) => Some(v.(status := Acknowledged, ack := Some(ack)))
    case (Some(v), SnoozeEvent, Muted(snooze)) => Some(v.(snooze := Some(snooze)))
    case (Some(v), UnsnoozeEvent, LiftedBy(_)) => Some(v.(snooze := None))
    case _ => None
  }

  function Fold(log: seq<Entry>): Option<View> {
    if log == [] then None else Replay(Fold(log[..|log| - 1]), log[|log| - 1].event)
  }

  /** Ack, resolution and snooze as the status allows them; a closed alert may keep its ack. */
  predicate WellShaped(alert: Alert) {
    && (alert.status.Open? ==> alert.ack.None?)
    && (alert.status.Acknowledged? ==> alert.ack.Some?)
    && (alert.status.Resolved? <==> alert.resolution.Some?)
    && (alert.status.Resolved? ==> alert.snooze.None?)
  }

  /** Statuses chain from event to event; only the first event has no predecessor. */
  ghost predicate Chained(log: seq<Entry>) {
    && (log != [] ==> log[0].event.prev.None?)
    && (forall i :: 0 < i < |log| ==> log[i].event.prev == Some(log[i - 1].event.next))
  }

  function Failures(log: seq<Entry>): nat {
    if log == [] then 0
    else Failures(log[..|log| - 1]) + if log[|log| - 1].event.kind.FailEvent? then 1 else 0
  }

  // What a consumer of the notifications knows

  function LastPublished(log: seq<Entry>): Option<Alert> {
    var published := Published(log);
    if published == [] then None else Some(published[|published| - 1].alert)
  }

  predicate Agree(a: Json, b: Json) {
    || a == b
    || a.bytes == b.bytes == ""
    || (a.bytes != "" && b.bytes != "" && a.canonical.Some? && a.canonical == b.canonical)
  }

  /** Unless the alert is snoozed, what was published last agrees with the row. */
  predicate Faithful(t: Track) {
    t.row.Some? && t.row.value.snooze.None? ==>
      var known := LastPublished(t.log);
      known.Some? && known.value.status == t.row.value.status && Agree(known.value.evidence, t.row.value.evidence)
  }

  // The published stream

  datatype Phase = Unseen | Alive | Dormant | Broken

  /** A stream opens once, and then closings and reopenings alternate; updates, acknowledgements,
      snoozes and their ends are published only in between an opening and the next closing. */
  function Advance(phase: Phase, t: EventType): Phase {
    match (phase, t)
    case (Unseen, OpenedAlert) => Alive
    case (Alive, UpdatedAlert) => Alive
    case (Alive, AcknowledgedAlert) => Alive
    case (Alive, SnoozedAlert) => Alive
    case (Alive, UnsnoozedAlert) => Alive
    case (Alive, ResolvedAlert) => Dormant
    case (Alive, AcceptedAlert) => Dormant
    case (Dormant, ReopenedAlert) => Alive
    case _ => Broken
  }

  function PhaseOf(published: seq<Entry>): Phase {
    if published == [] then Unseen
    else Advance(PhaseOf(published[..|published| - 1]), EventTypeFor(published[|published| - 1].event))
  }

  function ExpectedPhase(t: Track): Phase {
    if t.row.None? then Unseen else if t.row.value.status.Active() then Alive else Dormant
  }

  // One invariant for all of it

  ghost predicate TrackOk(t: Track) {
    && (t.row.None? <==> t.log == [])
    && (t.row.Some? ==>
          && WellShaped(t.row.value)
          && Fold(t.log) == Some(ViewOf(t.row.value))
          && t.row.value.occurrenceCount == Failures(t.log)
          && t.log[|t.log| - 1].event.next == t.row.value.status)
    && Chained(t.log)
    && Faithful(t)
    && PhaseOf(Published(t.log)) == ExpectedPhase(t)
  }

  lemma SameEvidenceTransitive(a: Json, b: Json, c: Json)
    requires Agree(a, b) && SameEvidence(b, c)
    ensures SameEvidence(a, c) && SameEvidence(c, b)
  {
  }

  /** Appending an event keeps the invariant if the event replays to the new row and, when it is
      not published, takes nothing away from what is known. */
  lemma AppendKeeps(t: Track, alert: Alert, event: Event)
    requires TrackOk(t) && WellShaped(alert)
    requires event.prev == (if t.row.None? then None else Some(t.row.value.status)) && event.next == alert.status
    requires Replay(Fold(t.log), event) == Some(ViewOf(alert))
    requires alert.occurrenceCount == Failures(t.log) + if event.kind.FailEvent? then 1 else 0
    requires event.notify ==> Advance(ExpectedPhase(t), EventTypeFor(event)) == ExpectedPhase(Append(t, alert, event))
    requires !event.notify ==>
               && t.row.Some? && t.row.value.status.Active() && alert.status.Active()
               && (alert.snooze.None? ==> t.row.value.snooze.None? && alert.status == t.row.value.status &&
                                          SameEvidence(t.row.value.evidence, alert.evidence))
    ensures TrackOk(Append(t, alert, event))
  {
    var t' := Append(t, alert, event);
    assert t'.log[..|t.log|] == t.log;
    ChainGrows(t.log, Entry(event, alert));
    PublishedGrows(t.log, Entry(event, alert));
    if !event.notify && alert.snooze.None? {
      SameEvidenceTransitive(LastPublished(t.log).value.evidence, t.row.value.evidence, alert.evidence);
    }
  }

  lemma ChainGrows(log: seq<Entry>, last: Entry)
    requires Chained(log)
    requires last.event.prev == if log == [] then None else Some(log[|log| - 1].event.next)
    ensures Chained(log + [last])
  {
    var longer := log + [last];
    forall i | 0 < i < |longer| ensures longer[i].event.prev == Some(longer[i - 1].event.next) {
      if i < |log| {
        assert log[i].event.prev == Some(log[i - 1].event.next);
      }
    }
  }

  lemma PublishedGrows(log: seq<Entry>, last: Entry)
    ensures !last.event.notify ==> Published(log + [last]) == Published(log)
    ensures last.event.notify ==>
              && LastPublished(log + [last]) == Some(last.alert)
              && PhaseOf(Published(log + [last])) == Advance(PhaseOf(Published(log)), EventTypeFor(last.event))
  {
    assert (log + [last])[..|log|] == log;
    if last.event.notify {
      var published := Published(log + [last]);
      assert published == Published(log) + [last];
      assert published[..|published| - 1] == Published(log);
    } else {
      assert Published(log) + [] == Published(log);
    }
  }

  lemma FailKeeps(t: Track, f: Failure, now: Time)
    requires TrackOk(t)
    ensures TrackOk(OpenOrUpdate(t, f, now))
  {
    var t' := OpenOrUpdate(t, f, now);
    AppendKeeps(t, t'.row.value, t'.log[|t.log|].event);
  }

  lemma PassKeeps(t: Track, evaluation: EvaluationId, at: Time, now: Time)
    requires TrackOk(t)
    ensures TrackOk(AutoResolve(t, evaluation, at, now))
  {
    if HasActive(t) {
      var t' := AutoResolve(t, evaluation, at, now);
      AppendKeeps(t, t'.row.value, t'.log[|t.log|].event);
    }
  }

  lemma ClosureKeeps(t: Track, resolution: Resolution, kind: EventKind, now: Time)
    requires TrackOk(t) && (kind.ResolveEvent? || kind.AcceptEvent?)
    ensures ApplyResolution(t, resolution, kind, now).Ok? ==> TrackOk(ApplyResolution(t, resolution, kind, now).value)
  {
    if HasActive(t) {
      var t' := ApplyResolution(t, resolution, kind, now).value;
      AppendKeeps(t, t'.row.value, t'.log[|t.log|].event);
    }
  }

  lemma OperatorKeeps(t: Track, op: Op)
    requires TrackOk(t) && (op.AckOp? || op.SnoozeOp? || op.UnsnoozeOp?)
    ensures TrackOk(Do(t, op))
  {
    var t' := Do(t, op);
    if t' != t {
      AppendKeeps(t, t'.row.value, t'.log[|t.log|].event);
    }
  }

  lemma DoKeeps(t: Track, op: Op)
    requires TrackOk(t)
    ensures TrackOk(Do(t, op))
  {
    match op
    case FailOp(f, now) => FailKeeps(t, f, now);
    case PassOp(evaluation, at, now) => PassKeeps(t, evaluation, at, now);
    case ResolveOp(resolution, now) => ClosureKeeps(t, resolution, ResolveEvent, now);
    case AcceptOp(resolution, now) => ClosureKeeps(t, resolution, AcceptEvent, now);
    case _ => OperatorKeeps(t, op);
  }

  lemma {:induction false} RunKeeps(t: Track, ops: seq<Op>)
    requires TrackOk(t)
    ensures TrackOk(Run(t, ops))
    decreases |ops|
  {
    if ops != [] {
      DoKeeps(t, ops[0]);
      RunKeeps(Do(t, ops[0]), ops[1..]);
    }
  }

  // The theorems

  /** In every run the row is what its log replays to, counts the failures in it, and is shaped as
      its status asks; the statuses in the log chain, and only its first event has no predecessor. */
  lemma RowIsFoldOfLog(ops: seq<Op>)
    ensures var t := Run(NEW_TRACK, ops);
            && (t.row.None? <==> t.log == [])
            && (t.row.Some? ==> Fold(t.log) == Some(ViewOf(t.row.value)) && WellShaped(t.row.value)
                                && t.row.value.occurrenceCount == Failures(t.log))
            && Chained(t.log)
  {
    RunKeeps(NEW_TRACK, ops);
  }

  /** Suppressed repeats never leave a consumer behind: while no snooze is on, the snapshot that was
      published last has the status of the row and materially the same evidence. */
  lemma SuppressionIsFaithful(ops: seq<Op>)
    ensures var t := Run(NEW_TRACK, ops);
            t.row.Some? && t.row.value.snooze.None? ==>
              var known := LastPublished(t.log);
              known.Some? && known.value.status == t.row.value.status && Agree(known.value.evidence, t.row.value.evidence)
  {
    RunKeeps(NEW_TRACK, ops);
  }

  /** What is kept quiet is a failure of an open alert with materially the same evidence, or any
      failure while a snooze is on; and all of those are. */
  lemma QuietExactlyWhenNothingNew(t: Track, op: Op)
    requires TrackOk(t) && Do(t, op) != t
    ensures var entry := Do(t, op).log[|t.log|];
            !entry.event.notify <==>
              && op.FailOp? && t.row.Some?
              && (if t.row.value.snooze.Some? then SnoozeActive(t.row.value, OrNow(op.failure.occurredAt, op.now))
                  else t.row.value.status.Open? && SameEvidence(t.row.value.evidence, op.failure.evidence))
  {
  }

  // Mutes

  /** A failure at an instant before the end of a mute, or an acknowledgement. */
  predicate Under(until: Time, op: Op) {
    || op.AckOp?
    || (op.FailOp? && (if op.failure.occurredAt == UNSET then op.now else op.failure.occurredAt) < until)
  }

  /** The entries from the n-th on are acknowledgements and failures kept quiet. */
  predicate Quiet(log: seq<Entry>, n: nat) {
    forall i :: n <= i < |log| ==>
      var e := log[i].event;
      e.kind.AckEvent? || (e.kind.FailEvent? && !e.notify)
  }

  lemma MutedStep(t: Track, mute: Snooze, op: Op, n: nat)
    requires t.row.Some? && t.row.value.status.Active() && t.row.value.snooze == Some(mute) && Under(mute.until, op)
    requires n <= |t.log| && Quiet(t.log, n)
    ensures var t' := Do(t, op);
            && t'.row.Some? && t'.row.value.status.Active() && t'.row.value.snooze == Some(mute)
            && t.log <= t'.log && Quiet(t'.log, n)
            && Failures(t'.log) == Failures(t.log) + if op.FailOp? then 1 else 0
  {
    var t' := Do(t, op);
    if t' != t {
      assert t'.log[..|t.log|] == t.log;
    }
  }

  function FailuresIn(ops: seq<Op>): nat {
    if ops == [] then 0 else (if ops[0].FailOp? then 1 else 0) + FailuresIn(ops[1..])
  }

  lemma {:induction false} MutedRun(t: Track, mute: Snooze, ops: seq<Op>, n: nat)
    requires t.row.Some? && t.row.value.status.Active() && t.row.value.snooze == Some(mute)
    requires forall i :: 0 <= i < |ops| ==> Under(mute.until, ops[i])
    requires n <= |t.log| && Quiet(t.log, n)
    ensures var t' := Run(t, ops);
            && t'.row.Some? && t'.row.value.status.Active() && t'.row.value.snooze == Some(mute)
            && t.log <= t'.log && Quiet(t'.log, n)
            && Failures(t'.log) == Failures(t.log) + FailuresIn(ops)
    decreases |ops|
  {
    if ops != [] {
      MutedStep(t, mute, ops[0], n);
      MutedRun(Do(t, ops[0]), mute, ops[1..], n);
    }
  }

  /** An accepted snooze leaves the row as it was but for the mute. Through any run of failures at
      instants before its end, with or without acknowledgements, every failure is logged and none
      is published, and the mute stays; the first failure from its end on is published and lifts
      it. */
  lemma MutedExactlyUntil(before: seq<Op>, until: Time, actor: string, note: string, now: Time, ops: seq<Op>,
                          f: Failure, later: Time)
    requires var row := Run(NEW_TRACK, before).row; row.Some? && !row.value.status.Resolved?
    requires now < until
    requires forall i :: 0 <= i < |ops| ==> Under(until, ops[i])
    requires until <= if f.occurredAt == UNSET then later else f.occurredAt
    ensures var t := Run(NEW_TRACK, before);
            var muted := Do(t, SnoozeOp(until, actor, note, now));
            && muted.row == Some(t.row.value.(snooze := Some(Snooze(until, actor, now, note))))
            && |muted.log| == |t.log| + 1 && muted.log[|t.log|].event.notify
            && var t' := Run(muted, ops);
               && t'.row.Some? && t'.row.value.snooze == Some(Snooze(until, actor, now, note))
               && muted.log <= t'.log && Quiet(t'.log, |muted.log|)
               && Failures(t'.log) == Failures(muted.log) + FailuresIn(ops)
               && var loud := Do(t', FailOp(f, later));
                  |loud.log| == |t'.log| + 1 && loud.log[|t'.log|].event.notify && loud.row.Some? && loud.row.value.snooze.None?
  {
    var muted := Do(Run(NEW_TRACK, before), SnoozeOp(until, actor, note, now));
    MutedRun(muted, Snooze(until, actor, now, note), ops, |muted.log|);
  }

  // The shape of the stream

  /** What an appended event is announced as: a failure by what the alert was before it, every
      other event by its kind. */
  lemma AnnouncedAs(ops: seq<Op>, op: Op)
    requires Do(Run(NEW_TRACK, ops), op) != Run(NEW_TRACK, ops)
    ensures var t := Run(NEW_TRACK, ops);
            EventTypeFor(Do(t, op).log[|t.log|].event) ==
              match op
              case FailOp(_, _) =>
                if t.row.None? then OpenedAlert else if t.row.value.status.Resolved? then ReopenedAlert else UpdatedAlert
              case PassOp(_, _, _) => ResolvedAlert
              case AckOp(_, _) => AcknowledgedAlert
              case ResolveOp(_, _) => ResolvedAlert
              case AcceptOp(_, _) => AcceptedAlert
              case SnoozeOp(_, _, _, _) => SnoozedAlert
              case UnsnoozeOp(_, _) => UnsnoozedAlert
  {
  }

  /** Openings (true) and closings (false) of a published stream, in order. */
  function Marks(published: seq<Entry>): seq<bool> {
    if published == [] then []
    else
      var front, t := Marks(published[..|published| - 1]), EventTypeFor(published[|published| - 1].event);
      if t.OpenedAlert? || t.ReopenedAlert? then front + [true]
      else if t.ResolvedAlert? || t.AcceptedAlert? then front + [false]
      else front
  }

  lemma {:induction false} AcceptedStreamsAlternate(published: seq<Entry>)
    requires !PhaseOf(published).Broken?
    ensures forall i :: 0 <= i < |Marks(published)| ==> (Marks(published)[i] <==> i % 2 == 0)
    ensures forall i :: 0 <= i < |published| ==> (EventTypeFor(published[i].event).OpenedAlert? <==> i == 0)
    ensures PhaseOf(published).Unseen? <==> published == []
    ensures published != [] ==> (PhaseOf(published).Alive? <==> |Marks(published)| % 2 == 1)
  {
    if published != [] {
      AcceptedStreamsAlternate(published[..|published| - 1]);
    }
  }

  /** The types published for one alert begin with the only OPENED_ALERT; from there on closings
      and openings strictly alternate, and the stream ends inside an opening exactly when the
      alert is active. */
  lemma PublishedStreamShape(ops: seq<Op>)
    ensures var t := Run(NEW_TRACK, ops);
            var published := Published(t.log);
            && (forall i :: 0 <= i < |Marks(published)| ==> (Marks(published)[i] <==> i % 2 == 0))
            && (forall i :: 0 <= i < |published| ==> (EventTypeFor(published[i].event).OpenedAlert? <==> i == 0))
            && (published == [] <==> t.row.None?)
            && (t.row.Some? ==> (t.row.value.status.Active() <==> |Marks(published)| % 2 == 1))
  {
    RunKeeps(NEW_TRACK, ops);
    AcceptedStreamsAlternate(Published(Run(NEW_TRACK, ops).log));
  }

  function LatestFailure(log: seq<Entry>): Option<Json> {
    if log == [] then None
    else
      var e := log[|log| - 1].event;
      if e.kind.FailEvent? && e.payload.Evidence? then Some(e.payload.json) else LatestFailure(log[..|log| - 1])
  }

  lemma {:induction false} FoldedEvidence(log: seq<Entry>)
    ensures Fold(log).Some? ==> LatestFailure(log) == Some(Fold(log).value.evidence)
  {
    if log != [] { FoldedEvidence(log[..|log| - 1]); }
  }

  /** An acceptance that brings no snapshot freezes the evidence of the latest failure before it. */
  lemma AcceptanceFreezesLatestFailure(ops: seq<Op>, resolution: Resolution, now: Time)
    requires var t := Run(NEW_TRACK, ops);
             Accept(t, resolution, now).Ok? && resolution.evidenceSnapshot.Empty()
    ensures var t := Run(NEW_TRACK, ops);
            var accepted := Accept(t, resolution, now).value;
            var evidence := LatestFailure(t.log);
            && evidence.Some? && accepted.row.Some?
            && accepted.row.value.resolution ==
                 Some(resolution.(evidenceSnapshot := if evidence.value.Empty() then NULL_JSON else evidence.value))
            && accepted.log[|t.log|].event.payload == Closed(accepted.row.value.resolution.value)
  {
    RunKeeps(NEW_TRACK, ops);
    FoldedEvidence(Run(NEW_TRACK, ops).log);
  }

  /** The log only grows, and what the first failure fixed -- severity, labels, when it was first
      seen -- is never changed; failures only add up. */
  lemma {:induction false} OriginIsKept(t: Track, ops: seq<Op>)
    ensures t.log <= Run(t, ops).log
    ensures t.row.Some? ==>
              var row, row' := t.row.value, Run(t, ops).row;
              && row'.Some? && row'.value.severity == row.severity && row'.value.labels == row.labels
              && row'.value.firstSeenAt == row.firstSeenAt && row.occurrenceCount <= row'.value.occurrenceCount
    decreases |ops|
  {
    if ops != [] {
      OriginIsKept(Do(t, ops[0]), ops[1..]);
    }
  }
}
