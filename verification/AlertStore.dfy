/** The alert table and its append-only event log, with the storage methods that write them. Every
    method changes the track of one alert as Alerts says and leaves all others alone. */
module AlertStore {
  import opened Wrappers
  import opened Alerts
  import AlertTheorems

  type RuleId = nat
  type PeriodId = string

  const CONTINUOUS: PeriodId := "continuous"

  /** The unique key of an alert row; it also stands for the row's id. */
  datatype Key = Key(rule: RuleId, fingerprint: string, period: PeriodId)

  function Period(period: PeriodId): (named: PeriodId)
    ensures period == "" ==> named == CONTINUOUS
    ensures period != "" ==> named == period
  {
    if period == "" then CONTINUOUS else period
  }

  function KeyOf(rule: RuleId, fingerprint: string, period: PeriodId): Key {
    Key(rule, fingerprint, Period(period))
  }

  datatype Logged = Logged(key: Key, entry: Entry)

  /** The history of one alert within the log of all of them. */
  function History(log: seq<Logged>, k: Key): seq<Entry> {
    if log == [] then []
    else
      var last := log[|log| - 1];
      History(log[..|log| - 1], k) + if last.key == k then [last.entry] else []
  }

  function TrackIn(rows: map<Key, Alert>, log: seq<Logged>, k: Key): Track {
    Track(if k in rows then Some(rows[k]) else None, History(log, k))
  }

  lemma WriteExtendsOneTrack(rows: map<Key, Alert>, log: seq<Logged>, key: Key, alert: Alert, event: Event)
    ensures var rows', log' := rows[key := alert], log + [Logged(key, Entry(event, alert))];
            && TrackIn(rows', log', key) == Append(TrackIn(rows, log, key), alert, event)
            && (forall k :: k != key ==> TrackIn(rows', log', k) == TrackIn(rows, log, k))
  {
    assert (log + [Logged(key, Entry(event, alert))])[..|log|] == log;
  }

  /** The tables after one transition of one alert: its row written and one event appended. */
  ghost predicate Written(rows: map<Key, Alert>, log: seq<Logged>, rows': map<Key, Alert>, log': seq<Logged>,
                          key: Key, alert: Alert, event: Event) {
    rows' == rows[key := alert] && log' == log + [Logged(key, Entry(event, alert))]
  }

  predicate IsActive(rows: map<Key, Alert>, key: Key) {
    key in rows && (rows[key].status.Open? || rows[key].status.Acknowledged?)
  }

  predicate Same(a: Json, b: Json) {
    || a.bytes == b.bytes == ""
    || (a.bytes != "" && b.bytes != "" && a.canonical.Some? && a.canonical == b.canonical)
  }

  /** A further failure of an alert: it is open, without an ack or a resolution; a mute stays until
      its end. It is kept quiet if it is muted, or if it repeats what an open alert without a mute
      says already. */
  ghost predicate FailedAgain(rows: map<Key, Alert>, log: seq<Logged>, rows': map<Key, Alert>, log': seq<Logged>,
                              key: Key, f: Failure, at: Time)
    requires key in rows
  {
    var row := rows[key];
    var muted := row.snooze.Some? && at < row.snooze.value.until;
    Written(rows, log, rows', log', key,
            Alert(Open, row.severity, row.firstSeenAt, at, row.occurrenceCount + 1, f.evaluation, f.evidence, None, None,
                  if muted then row.snooze else None, row.labels),
            Event(FailEvent, Some(f.evaluation), Some(row.status), Open, Evidence(f.evidence),
                  !muted && (row.status == Open && row.snooze == None ==> !Same(row.evidence, f.evidence)), at))
  }

  /** Any failure: the first one opens the alert. */
  ghost predicate Failed(rows: map<Key, Alert>, log: seq<Logged>, rows': map<Key, Alert>, log': seq<Logged>,
                         key: Key, f: Failure, at: Time) {
    if key in rows then FailedAgain(rows, log, rows', log', key, f, at)
    else Written(rows, log, rows', log', key,
                 Alert(Open, f.severity, at, at, 1, f.evaluation, f.evidence, None, None, None, f.labels),
                 Event(FailEvent, Some(f.evaluation), None, Open, Evidence(f.evidence), true, at))
  }

  /** A pass: it closes an active alert, mute included, and is nothing to any other. */
  ghost predicate Passed(rows: map<Key, Alert>, log: seq<Logged>, rows': map<Key, Alert>, log': seq<Logged>,
                         key: Key, evaluation: EvaluationId, at: Time) {
    if IsActive(rows, key) then
      var row, resolution := rows[key], Resolution(Auto, "system", at, "", [], NO_JSON);
      Written(rows, log, rows', log', key,
              row.(status := Resolved, resolution := Some(resolution), snooze := None, lastEvaluation := evaluation),
              Event(PassEvent, Some(evaluation), Some(row.status), Resolved, Closed(resolution), true, at))
    else rows' == rows && log' == log
  }

  /** An alert closed by hand. */
  ghost predicate ClosedBy(rows: map<Key, Alert>, log: seq<Logged>, rows': map<Key, Alert>, log': seq<Logged>,
                           key: Key, resolution: Resolution, kind: EventKind, now: Time)
    requires key in rows
  {
    var row := rows[key];
    Written(rows, log, rows', log', key, row.(status := Resolved, resolution := Some(resolution), snooze := None),
            Event(kind, None, Some(row.status), Resolved, Closed(resolution), true,
                  if resolution.at == UNSET then now else resolution.at))
  }

  class Storage {
    var rows: map<Key, Alert>
    var log: seq<Logged>

    ghost function At(k: Key): Track
      reads this
    {
      TrackIn(rows, log, k)
    }

    /** Every alert is as some sequence of transitions leaves it. */
    ghost predicate Valid()
      reads this
    {
      forall k :: AlertTheorems.TrackOk(At(k))
    }

    constructor ()
      ensures Valid() && forall k :: At(k) == NEW_TRACK
    {
      rows, log := map[], [];
    }

    /** Writes a row and appends its event: the two statements of every transition. */
    method Write(key: Key, alert: Alert, event: Event)
      modifies this
      ensures At(key) == Append(old(At(key)), alert, event)
      ensures forall k :: k != key ==> At(k) == old(At(k))
      ensures rows == old(rows)[key := alert]
      ensures log == old(log) + [Logged(key, Entry(event, alert))]
    {
      WriteExtendsOneTrack(rows, log, key, alert, event);
      rows := rows[key := alert];
      log := log + [Logged(key, Entry(event, alert))];
    }

    /** A failure of an alert that exists already. */
    method Refail(key: Key, f: Failure, at: Time) returns (reopened: bool)
      requires key in rows
      modifies this
      ensures At(key) == Append(old(At(key)), Refailed(old(rows[key]), f, at),
                                Event(FailEvent, Some(f.evaluation), Some(old(rows[key]).status), Open, Evidence(f.evidence),
                                      Notifies(old(rows[key]), f, at), at))
      ensures forall k :: k != key ==> At(k) == old(At(k))
      ensures AlertTheorems.WellShaped(old(rows[key])) ==> FailedAgain(old(rows), old(log), rows, log, key, f, at)
      ensures reopened <==> old(rows[key]).status.Resolved?
    {
      var current := rows[key];
      var prev := current.status;
      reopened := prev.Resolved?;
      var prevEvidence := current.evidence;
      var snoozeActive := current.snooze.Some? && at < current.snooze.value.until;
      var snoozeExpired := current.snooze.Some? && !snoozeActive;

      current := current.(status := Open, lastSeenAt := at, lastEvaluation := f.evaluation,
                          occurrenceCount := current.occurrenceCount + 1, evidence := f.evidence);
      if reopened {
        current := current.(resolution := None, ack := None);
      } else if prev.Acknowledged? {
        current := current.(ack := None);
      }
      if snoozeExpired {
        current := current.(snooze := None);
      }

      var notify := reopened || !prev.Open? || !SameEvidence(prevEvidence, f.evidence);
      if snoozeActive {
        notify := false;
      } else if snoozeExpired {
        notify := true;
      }
      Write(key, current, Event(FailEvent, Some(f.evaluation), Some(prev), Open, Evidence(f.evidence), notify, at));
    }

    method OpenFirst(key: Key, f: Failure, at: Time)
      modifies this
      ensures At(key) == Append(old(At(key)), Alert(Open, f.severity, at, at, 1, f.evaluation, f.evidence, None, None, None, f.labels),
                                Event(FailEvent, Some(f.evaluation), None, Open, Evidence(f.evidence), true, at))
      ensures forall k :: k != key ==> At(k) == old(At(k))
      ensures Written(old(rows), old(log), rows, log, key,
                      Alert(Open, f.severity, at, at, 1, f.evaluation, f.evidence, None, None, None, f.labels),
                      Event(FailEvent, Some(f.evaluation), None, Open, Evidence(f.evidence), true, at))
    {
      var initial := Alert(Open, f.severity, at, at, 1, f.evaluation, f.evidence, None, None, None, f.labels);
      Write(key, initial, Event(FailEvent, Some(f.evaluation), None, Open, Evidence(f.evidence), true, at));
    }

    method OpenOrUpdate(key: Key, f: Failure, now: Time) returns (created: bool, reopened: bool)
      requires Valid()
      modifies this
      ensures Valid()
      ensures At(key) == Do(old(At(key)), FailOp(f, now))
      ensures forall k :: k != key ==> At(k) == old(At(k))
      ensures Failed(old(rows), old(log), rows, log, key, f, if f.occurredAt == UNSET then now else f.occurredAt)
      ensures created <==> key !in old(rows)
      ensures reopened <==> key in old(rows) && old(rows[key]).status.Resolved?
    {
      var at := if f.occurredAt == UNSET then now else f.occurredAt;
      created, reopened := key !in rows, false;
      assert AlertTheorems.TrackOk(At(key));
      assert key in rows ==> AlertTheorems.WellShaped(rows[key]);
      AlertTheorems.DoKeeps(At(key), FailOp(f, now));
      if created {
        OpenFirst(key, f, at);
      } else {
        reopened := Refail(key, f, at);
      }
    }

    method OpenOrUpdateAlert(rule: RuleId, fingerprint: string, period: PeriodId, f: Failure, now: Time)
      returns (created: bool, reopened: bool)
      requires Valid()
      modifies this
      ensures Valid()
      ensures At(KeyOf(rule, fingerprint, period)) == Do(old(At(KeyOf(rule, fingerprint, period))), FailOp(f, now))
      ensures forall k :: k != KeyOf(rule, fingerprint, period) ==> At(k) == old(At(k))
      ensures Failed(old(rows), old(log), rows, log, KeyOf(rule, fingerprint, period), f, if f.occurredAt == UNSET then now else f.occurredAt)
      ensures var before := old(At(KeyOf(rule, fingerprint, period))).row;
              && (created <==> before.None?)
              && (reopened <==> before.Some? && before.value.status.Resolved?)
    {
      var key := KeyOf(rule, fingerprint, period);
      created, reopened := OpenOrUpdate(key, f, now);
    }

    /** The fingerprints of the active alerts of one period, each once, in no particular order. */
    method ListActiveAlertFingerprints(rule: RuleId, period: PeriodId) returns (fingerprints: seq<string>)
      ensures forall f :: f in fingerprints <==> HasActive(At(KeyOf(rule, f, period)))
      ensures Distinct(fingerprints)
    {
      fingerprints := [];
      var rest := rows.Keys;
      while rest != {}
        invariant rest <= rows.Keys
        invariant forall f :: f in fingerprints <==>
                                var k := KeyOf(rule, f, period); k in rows && k !in rest && rows[k].status.Active()
        invariant Distinct(fingerprints)
      {
        var k :| k in rest;
        rest := rest - {k};
        if k.rule == rule && k.period == Period(period) && rows[k].status.Active() {
          assert k == KeyOf(rule, k.fingerprint, period);
          fingerprints := fingerprints + [k.fingerprint];
        }
      }
    }

    method Close(key: Key, evaluation: EvaluationId, at: Time, now: Time) returns (resolved: bool)
      modifies this
      ensures At(key) == AutoResolve(old(At(key)), evaluation, at, now)
      ensures forall k :: k != key ==> At(k) == old(At(k))
      ensures Passed(old(rows), old(log), rows, log, key, evaluation, if at == UNSET then now else at)
      ensures resolved <==> HasActive(old(At(key)))
    {
      resolved := key in rows && rows[key].status.Active();
      if resolved {
        var current := rows[key];
        var prev := current.status;
        var resolution := Resolution(Auto, "system", if at == UNSET then now else at, "", [], NO_JSON);
        current := current.(status := Resolved, resolution := Some(resolution), snooze := None, lastEvaluation := evaluation);
        Write(key, current, Event(PassEvent, Some(evaluation), Some(prev), Resolved, Closed(resolution), true, resolution.at));
      }
    }

    method AutoResolveAlert(rule: RuleId, fingerprint: string, period: PeriodId, evaluation: EvaluationId, at: Time, now: Time)
      returns (resolved: bool)
      requires Valid()
      modifies this
      ensures Valid()
      ensures At(KeyOf(rule, fingerprint, period)) ==
                Do(old(At(KeyOf(rule, fingerprint, period))), PassOp(evaluation, at, now))
      ensures forall k :: k != KeyOf(rule, fingerprint, period) ==> At(k) == old(At(k))
      ensures Passed(old(rows), old(log), rows, log, KeyOf(rule, fingerprint, period), evaluation, if at == UNSET then now else at)
      ensures resolved <==> IsActive(old(rows), KeyOf(rule, fingerprint, period))
    {
      var key := KeyOf(rule, fingerprint, period);
      AlertTheorems.DoKeeps(At(key), PassOp(evaluation, at, now));
      resolved := Close(key, evaluation, at, now);
    }

    method AckAlert(key: Key, ack: Ack, now: Time) returns (r: Result<Alert, AlertError>)
      requires Valid()
      modifies this
      ensures Valid()
      ensures At(key) == Do(old(At(key)), AckOp(ack, now)) && forall k :: k != key ==> At(k) == old(At(k))
      ensures Answers(r, Try(old(At(key)), AckOp(ack, now)))
      ensures r.Err? <==> !IsActive(old(rows), key)
      ensures r.Err? || old(rows)[key].status == Acknowledged ==> rows == old(rows) && log == old(log)
      ensures IsActive(old(rows), key) && old(rows)[key].status == Open ==>
                Written(old(rows), old(log), rows, log, key, old(rows)[key].(status := Acknowledged, ack := Some(ack)),
                        Event(AckEvent, None, Some(Open), Acknowledged, Acked(ack), true, if ack.at == UNSET then now else ack.at))
    {
      if key !in rows || rows[key].status.Resolved? {
        return Err(NotFound);
      }
      var current := rows[key];
      if current.status.Open? {
        var prev := current.status;
        current := current.(status := Acknowledged, ack := Some(ack));
        Write(key, current, Event(AckEvent, None, Some(prev), Acknowledged, Acked(ack), true, OrNow(ack.at, now)));
      }
      r := Ok(current);
      AlertTheorems.DoKeeps(old(At(key)), AckOp(ack, now));
    }

    method Apply(key: Key, resolution: Resolution, kind: EventKind, now: Time) returns (r: Result<Alert, AlertError>)
      modifies this
      ensures var outcome := ApplyResolution(old(At(key)), resolution, kind, now);
              At(key) == (if outcome.Ok? then outcome.value else old(At(key))) && Answers(r, outcome)
      ensures r == if IsActive(old(rows), key) && key in rows then Ok(rows[key]) else Err(NotFound)
      ensures r.Err? ==> rows == old(rows) && log == old(log)
      ensures r.Ok? && !resolution.kind.AcceptedByBusiness? ==>
                ClosedBy(old(rows), old(log), rows, log, key, resolution, kind, now)
      ensures r.Ok? && resolution.kind.AcceptedByBusiness? ==>
                var evidence := old(rows)[key].evidence;
                var kept := if resolution.evidenceSnapshot.bytes != "" then resolution
                            else resolution.(evidenceSnapshot := if evidence.bytes == "" then NULL_JSON else evidence);
                ClosedBy(old(rows), old(log), rows, log, key, kept, kind, now)
      ensures forall k :: k != key ==> At(k) == old(At(k))
    {
      if key !in rows || !rows[key].status.Active() {
        return Err(NotFound);
      }
      var current := rows[key];
      var prev, frozen := current.status, resolution;
      if frozen.kind.AcceptedByBusiness? && frozen.evidenceSnapshot.Empty() {
        if !current.evidence.Empty() {
          frozen := frozen.(evidenceSnapshot := current.evidence);
        } else {
          frozen := frozen.(evidenceSnapshot := NULL_JSON);
        }
      }
      current := current.(status := Resolved, resolution := Some(frozen), snooze := None);
      Write(key, current, Event(kind, None, Some(prev), Resolved, Closed(frozen), true, OrNow(frozen.at, now)));
      r := Ok(current);
    }

    method ResolveAlertManual(key: Key, resolution: Resolution, now: Time) returns (r: Result<Alert, AlertError>)
      requires Valid()
      modifies this
      ensures Valid()
      ensures At(key) == Do(old(At(key)), ResolveOp(resolution, now)) && forall k :: k != key ==> At(k) == old(At(k))
      ensures Answers(r, Try(old(At(key)), ResolveOp(resolution, now)))
      ensures r.Ok? <==> !resolution.kind.AcceptedByBusiness? && IsActive(old(rows), key)
      ensures r.Ok? ==> ClosedBy(old(rows), old(log), rows, log, key, resolution, ResolveEvent, now)
      ensures r.Err? ==> rows == old(rows) && log == old(log)
    {
      if resolution.kind != FixedByBooking && resolution.kind != Auto {
        return Err(Rejected);
      }
      r := Apply(key, resolution, ResolveEvent, now);
      AlertTheorems.DoKeeps(old(At(key)), ResolveOp(resolution, now));
    }

    method AcceptAlert(key: Key, resolution: Resolution, now: Time) returns (r: Result<Alert, AlertError>)
      requires Valid()
      modifies this
      ensures Valid()
      ensures At(key) == Do(old(At(key)), AcceptOp(resolution, now)) && forall k :: k != key ==> At(k) == old(At(k))
      ensures Answers(r, Try(old(At(key)), AcceptOp(resolution, now)))
      ensures r.Ok? <==> resolution.kind.AcceptedByBusiness? && resolution.note != "" && IsActive(old(rows), key)
      ensures r.Ok? ==>
                var evidence := old(rows)[key].evidence;
                var kept := if resolution.evidenceSnapshot.bytes != "" then resolution
                            else resolution.(evidenceSnapshot := if evidence.bytes == "" then NULL_JSON else evidence);
                ClosedBy(old(rows), old(log), rows, log, key, kept, AcceptEvent, now)
      ensures r.Err? ==> rows == old(rows) && log == old(log)
    {
      if resolution.kind != AcceptedByBusiness {
        return Err(Rejected);
      }
      if resolution.note == "" {
        return Err(Rejected);
      }
      r := Apply(key, resolution, AcceptEvent, now);
      AlertTheorems.DoKeeps(old(At(key)), AcceptOp(resolution, now));
    }

    method SnoozeAlert(key: Key, until: Time, actor: string, note: string, now: Time) returns (r: Result<Alert, AlertError>)
      requires Valid()
      modifies this
      ensures Valid()
      ensures At(key) == Do(old(At(key)), SnoozeOp(until, actor, note, now)) && forall k :: k != key ==> At(k) == old(At(k))
      ensures Answers(r, Try(old(At(key)), SnoozeOp(until, actor, note, now)))
      ensures r.Ok? <==> now < until && IsActive(old(rows), key)
      ensures r.Ok? ==>
                var row, mute := old(rows)[key], Snooze(until, actor, now, note);
                Written(old(rows), old(log), rows, log, key, row.(snooze := Some(mute)),
                        Event(SnoozeEvent, None, Some(row.status), row.status, Muted(mute), true, now))
      ensures r.Err? ==> rows == old(rows) && log == old(log) && r.error == if until <= now then Rejected else NotFound
    {
      if !(now < until) {
        return Err(Rejected);
      }
      if key !in rows || !rows[key].status.Active() {
        return Err(NotFound);
      }
      var snooze := Snooze(until, actor, now, note);
      var current := rows[key];
      var status := current.status;
      current := current.(snooze := Some(snooze));
      Write(key, current, Event(SnoozeEvent, None, Some(status), status, Muted(snooze), true, now));
      r := Ok(current);
      AlertTheorems.DoKeeps(old(At(key)), SnoozeOp(until, actor, note, now));
    }

    method UnsnoozeAlert(key: Key, actor: string, now: Time) returns (r: Result<Alert, AlertError>)
      requires Valid()
      modifies this
      ensures Valid()
      ensures At(key) == Do(old(At(key)), UnsnoozeOp(actor, now)) && forall k :: k != key ==> At(k) == old(At(k))
      ensures Answers(r, Try(old(At(key)), UnsnoozeOp(actor, now)))
      ensures r.Ok? <==> key in old(rows)
      ensures r.Ok? && old(rows)[key].snooze.Some? ==>
                var row := old(rows)[key];
                Written(old(rows), old(log), rows, log, key, row.(snooze := None),
                        Event(UnsnoozeEvent, None, Some(row.status), row.status, LiftedBy(actor), true, now))
      ensures r.Err? || old(rows)[key].snooze.None? ==> rows == old(rows) && log == old(log)
    {
      if key !in rows {
        return Err(NotFound);
      }
      var current := rows[key];
      if current.snooze.Some? {
        var status := current.status;
        current := current.(snooze := None);
        Write(key, current, Event(UnsnoozeEvent, None, Some(status), status, LiftedBy(actor), true, now));
      }
      r := Ok(current);
      AlertTheorems.DoKeeps(old(At(key)), UnsnoozeOp(actor, now));
    }
  }

  /** A caller gets the row of the new track, or the error of the transition. */
  predicate Answers(r: Result<Alert, AlertError>, outcome: Outcome) {
    match outcome
    case Ok(t) => r.Ok? && t.row == Some(r.value)
    case Err(e) => r == Err(e)
  }
}
