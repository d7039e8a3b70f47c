/** Which alert events reach the publisher: transactions, savepoints and the collector. */
module Publication {
  import opened Wrappers
  import opened Alerts
  import opened AlertStore
  import AlertTheorems

  datatype Failure = DuplicateKey | Other

  /** One try of a storage method's own transaction: the event it appended, and how it ended. */
  datatype Attempt = Attempt(written: Option<Logged>, failure: Option<Failure>)

  /** What a callback does. Its error reaches the caller unless the caller tolerates it. */
  datatype Stmt =
    | Call(attempts: seq<Attempt>, tolerated: bool)
    | InTx(body: seq<Stmt>, commits: bool, tolerated: bool)
    | Raise

  const MAX_ATTEMPTS := 2

  // The meaning of a statement inside a transaction

  /** The events left in the log, the events handed to the collector, and whether to go on. */
  datatype Effect = Effect(log: seq<Logged>, recorded: seq<Logged>, ok: bool)

  predicate Notify(e: Logged) {
    e.entry.event.notify
  }

  function Notified(log: seq<Logged>): seq<Logged> {
    if log == [] then []
    else Notified(log[..|log| - 1]) + if Notify(log[|log| - 1]) then [log[|log| - 1]] else []
  }

  /** The event of the attempt that committed, if one did; only a duplicate key is tried again. */
  function Settled(attempts: seq<Attempt>, left: nat): Option<seq<Logged>>
    decreases left
  {
    if left == 0 || attempts == [] then None
    else if attempts[0].failure.None? then
      Some(if attempts[0].written.Some? then [attempts[0].written.value] else [])
    else if attempts[0].failure.value.DuplicateKey? then Settled(attempts[1..], left - 1)
    else None
  }

  function Meaning(s: Stmt): Effect
    decreases s
  {
    match s
    case Call(attempts, tolerated) =>
      var events := Settled(attempts, MAX_ATTEMPTS);
      if events.Some? then Effect(events.value, Notified(events.value), true) else Effect([], [], tolerated)
    case InTx(body, commits, tolerated) =>
      var e := Sequence(body);
      if e.ok && commits then e else Effect([], e.recorded, tolerated)
    case Raise => Effect([], [], false)
  }

  function Sequence(body: seq<Stmt>): Effect
    decreases body
  {
    if body == [] then Effect([], [], true)
    else
      var e := Meaning(body[0]);
      if !e.ok then e
      else
        var rest := Sequence(body[1..]);
        Effect(e.log + rest.log, e.recorded + rest.recorded, rest.ok)
  }

  /** Statements run one after the other up to the first that fails, and none after it. */
  lemma {:induction false} NothingAfterFailure(body: seq<Stmt>, rest: seq<Stmt>)
    ensures var e, f := Sequence(body), Sequence(rest);
            Sequence(body + rest) == if e.ok then Effect(e.log + f.log, e.recorded + f.recorded, f.ok) else e
    decreases |body|
  {
    if body == [] {
      assert body + rest == rest;
    } else {
      assert (body + rest)[1..] == body[1..] + rest;
      NothingAfterFailure(body[1..], rest);
      Associates(Meaning(body[0]).log, Sequence(body[1..]).log, Sequence(rest).log);
      Associates(Meaning(body[0]).recorded, Sequence(body[1..]).recorded, Sequence(rest).recorded);
    }
  }

  /** A request's statement, with no transaction around it: what it commits and what it publishes. */
  function Outermost(s: Stmt): (seq<Logged>, seq<Logged>) {
    var e := Meaning(s);
    if s.InTx? && !(Sequence(s.body).ok && s.commits) then ([], []) else (e.log, e.recorded)
  }

  function Committed(requests: seq<Stmt>): seq<Logged> {
    if requests == [] then [] else Outermost(requests[0]).0 + Committed(requests[1..])
  }

  function Delivered(requests: seq<Stmt>): seq<Logged> {
    if requests == [] then [] else Outermost(requests[0]).1 + Delivered(requests[1..])
  }

  lemma Associates(a: seq<Logged>, b: seq<Logged>, c: seq<Logged>)
    ensures (a + b) + c == a + (b + c)
  {
  }

  // The storage

  class Session {
    var log: seq<Logged>
    var collector: Option<seq<Logged>>
    var published: seq<Logged>

    constructor ()
      ensures log == [] && collector == None && published == []
    {
      log, collector, published := [], None, [];
    }

    /** Buffers an event for the transaction around it, or publishes it if there is none. */
    method RecordAlertEvent(event: Option<Logged>)
      modifies this
      ensures log == old(log) && collector.Some? == old(collector).Some?
      ensures var out := if event.None? then [] else Notified([event.value]);
              if collector.Some? then collector.value == old(collector).value + out && published == old(published)
              else published == old(published) + out
    {
      if event.None? {
        return;
      }
      if !Notify(event.value) {
        return;
      }
      assert Notified([event.value]) == [event.value];
      if collector.Some? {
        collector := Some(collector.value + [event.value]);
        return;
      }
      published := published + [event.value];
    }

    method FlushAlertEvents(pending: seq<Logged>)
      modifies this`published
      ensures published == old(published) + pending
    {
      for i := 0 to |pending|
        invariant published == old(published) + pending[..i]
      {
        published := published + [pending[i]];
      }
    }

    /** A storage method with its own transaction, tried again after a duplicate key. */
    method CallMethod(attempts: seq<Attempt>) returns (ok: bool)
      modifies this
      ensures ok <==> || (|attempts| >= 1 && attempts[0].failure.None?)
                      || (|attempts| >= 2 && attempts[0].failure == Some(DuplicateKey) && attempts[1].failure.None?)
      ensures ok ==>
                var won := if attempts[0].failure.None? then attempts[0].written else attempts[1].written;
                log == if won.Some? then old(log) + [won.value] else old(log)
      ensures !ok ==> log == old(log)
      ensures var events := Settled(attempts, MAX_ATTEMPTS);
              && (ok <==> events.Some?)
              && log == old(log) + (if ok then events.value else [])
              && collector.Some? == old(collector).Some?
              && (var out := if ok then Notified(events.value) else [];
                  if collector.Some? then collector.value == old(collector).value + out && published == old(published)
                  else published == old(published) + out)
    {
      ok := false;
      var i := 0;
      while i < MAX_ATTEMPTS
        invariant 0 <= i <= MAX_ATTEMPTS && i <= |attempts|
        invariant log == old(log) && collector == old(collector) && published == old(published)
        invariant Settled(attempts, MAX_ATTEMPTS) == Settled(attempts[i..], MAX_ATTEMPTS - i)
      {
        if i == |attempts| {
          return;
        }
        var attempt, savepoint := attempts[i], log;
        assert attempts[i..][1..] == attempts[i + 1..];
        log := log + if attempt.written.Some? then [attempt.written.value] else [];
        if attempt.failure.None? {
          RecordAlertEvent(attempt.written);
          ok := true;
          return;
        }
        log := savepoint;
        if attempt.failure.value != DuplicateKey {
          return;
        }
        i := i + 1;
      }
    }

    method Transaction(body: seq<Stmt>, commits: bool) returns (ok: bool)
      requires collector.Some?
      modifies this
      ensures var e := Sequence(body);
              && (ok <==> e.ok && commits)
              && log == old(log) + (if ok then e.log else [])
              && collector == Some(old(collector).value + e.recorded)
              && published == old(published)
      decreases body, 1
    {
      var savepoint := log;
      ok := RunAll(body);
      if !ok || !commits {
        log := savepoint;
        ok := false;
      }
    }

    /** The outermost transaction owns the collector and publishes once it has committed. */
    method RunInTx(body: seq<Stmt>, commits: bool) returns (ok: bool)
      modifies this
      ensures var e := Sequence(body);
              && (ok <==> e.ok && commits)
              && log == old(log) + (if ok then e.log else [])
              && (if old(collector).Some?
                  then collector == Some(old(collector).value + e.recorded) && published == old(published)
                  else collector == None && published == old(published) + if ok then e.recorded else [])
      decreases body, 2
    {
      if collector.Some? {
        ok := Transaction(body, commits);
        return;
      }
      collector := Some([]);
      ok := Transaction(body, commits);
      var pending := collector.value;
      collector := None;
      if ok {
        FlushAlertEvents(pending);
      }
    }

    method RunOne(s: Stmt) returns (ok: bool)
      requires collector.Some?
      modifies this
      ensures var e := Meaning(s);
              && ok == e.ok
              && log == old(log) + e.log
              && collector == Some(old(collector).value + e.recorded)
              && published == old(published)
      decreases s, 3
    {
      assert collector.value + [] == collector.value;
      match s {
        case Call(attempts, tolerated) =>
          ok := CallMethod(attempts);
          ok := ok || tolerated;
        case InTx(inner, commits, tolerated) =>
          ok := RunInTx(inner, commits);
          ok := ok || tolerated;
        case Raise =>
          ok := false;
      }
    }

    method RunAll(body: seq<Stmt>) returns (ok: bool)
      requires collector.Some?
      modifies this
      ensures var e := Sequence(body);
              && ok == e.ok
              && log == old(log) + e.log
              && collector == Some(old(collector).value + e.recorded)
              && published == old(published)
      decreases body, 0
    {
      if body == [] {
        assert collector.value + [] == collector.value;
        return true;
      }
      ghost var first, rest := Meaning(body[0]), Sequence(body[1..]);
      Associates(log, first.log, rest.log);
      Associates(collector.value, first.recorded, rest.recorded);
      ok := RunOne(body[0]);
      if ok {
        ok := RunAll(body[1..]);
      }
    }

    /** A request as the API or the worker issues it. */
    method Serve(request: Stmt)
      requires collector.None?
      modifies this
      ensures collector.None?
      ensures log == old(log) + Outermost(request).0
      ensures published == old(published) + Outermost(request).1
    {
      match request {
        case Call(attempts, _) =>
          var _ := CallMethod(attempts);
        case InTx(body, commits, _) =>
          var _ := RunInTx(body, commits);
        case Raise =>
      }
    }
  }

  // What is published is what was committed

  /** The notifications handed over by nested units that were rolled back. */
  function Strays(s: Stmt): nat
    decreases s
  {
    if !s.InTx? then 0
    else if Sequence(s.body).ok && s.commits then StraysOf(s.body)
    else |Sequence(s.body).recorded|
  }

  function StraysOf(body: seq<Stmt>): nat
    decreases body
  {
    if body == [] then 0
    else if !Meaning(body[0]).ok then Strays(body[0])
    else Strays(body[0]) + StraysOf(body[1..])
  }

  lemma {:induction false} NotifiedAppends(a: seq<Logged>, b: seq<Logged>)
    ensures Notified(a + b) == Notified(a) + Notified(b)
  {
    if b == [] {
      assert a + b == a;
    } else {
      assert (a + b)[..|a + b| - 1] == a + b[..|b| - 1];
      NotifiedAppends(a, b[..|b| - 1]);
    }
  }

  lemma {:induction false} StatementRecords(s: Stmt)
    ensures |Meaning(s).recorded| == |Notified(Meaning(s).log)| + Strays(s)
    ensures Strays(s) == 0 ==> Meaning(s).recorded == Notified(Meaning(s).log)
    decreases s
  {
    if s.InTx? { SequenceRecords(s.body); }
  }

  lemma {:induction false} SequenceRecords(body: seq<Stmt>)
    ensures |Sequence(body).recorded| == |Notified(Sequence(body).log)| + StraysOf(body)
    ensures StraysOf(body) == 0 ==> Sequence(body).recorded == Notified(Sequence(body).log)
    decreases body
  {
    if body != [] {
      StatementRecords(body[0]);
      SequenceRecords(body[1..]);
      NotifiedAppends(Meaning(body[0]).log, Sequence(body[1..]).log);
    }
  }

  /** No notification was lost to a rolled-back unit whose failure a committed request tolerated. */
  predicate Clean(requests: seq<Stmt>) {
    forall r :: r in requests && r.InTx? && Sequence(r.body).ok && r.commits ==> StraysOf(r.body) == 0
  }

  lemma RequestPublishes(request: Stmt)
    ensures |Outermost(request).1| == |Notified(Outermost(request).0)| + if Clean([request]) then 0 else Strays(request)
    ensures Clean([request]) <==> Outermost(request).1 == Notified(Outermost(request).0)
  {
    StatementRecords(request);
    assert Clean([request]) ==> request in [request];
  }

  /** The published sequence is the notifying events of the committed units, in order, exactly when
      no committed request carried on after a nested unit had been rolled back with notifications. */
  lemma {:induction false} PublishedIsCommitted(requests: seq<Stmt>)
    ensures |Delivered(requests)| >= |Notified(Committed(requests))|
    ensures Clean(requests) <==> Delivered(requests) == Notified(Committed(requests))
  {
    if requests != [] {
      var first, rest := requests[0], requests[1..];
      RequestPublishes(first);
      PublishedIsCommitted(rest);
      NotifiedAppends(Outermost(first).0, Committed(rest));
      assert requests == [first] + rest;
      assert Clean(requests) <==> Clean([first]) && Clean(rest) by {
        assert forall r :: r in requests <==> r in [first] || r in rest;
      }
      if Delivered(requests) == Notified(Committed(requests)) {
        assert |Outermost(first).1| == |Notified(Outermost(first).0)|;
        assert Delivered(requests)[..|Outermost(first).1|] == Outermost(first).1;
        assert Delivered(requests)[|Outermost(first).1|..] == Delivered(rest);
      }
    }
  }

  /** Every caller lets the failure of a nested unit through. */
  predicate Propagates(s: Stmt)
    decreases s
  {
    s.InTx? ==> forall i :: 0 <= i < |s.body| ==> Propagates(s.body[i]) && (s.body[i].InTx? ==> !s.body[i].tolerated)
  }

  lemma {:induction false} PropagatingKeepsClean(body: seq<Stmt>)
    requires forall i :: 0 <= i < |body| ==> Propagates(body[i]) && (body[i].InTx? ==> !body[i].tolerated)
    requires Sequence(body).ok
    ensures StraysOf(body) == 0
    decreases body
  {
    if body != [] {
      if body[0].InTx? { PropagatingKeepsClean(body[0].body); }
      PropagatingKeepsClean(body[1..]);
    }
  }

  /** As long as failures propagate, a consumer is sent exactly the committed notifications. */
  lemma PropagatingPublishesCommitted(requests: seq<Stmt>)
    requires forall r :: r in requests ==> Propagates(r)
    ensures Delivered(requests) == Notified(Committed(requests))
  {
    forall r | r in requests && r.InTx? && Sequence(r.body).ok && r.commits ensures StraysOf(r.body) == 0 {
      PropagatingKeepsClean(r.body);
    }
    PublishedIsCommitted(requests);
  }

  /** A caller that swallows the failure of a nested unit publishes an event no log holds. */
  lemma SwallowingPublishesTheRolledBack(e: Logged)
    requires Notify(e)
    ensures var call := Call([Attempt(Some(e), None)], false);
            var request := InTx([InTx([call, Raise], true, true)], true, false);
            Committed([request]) == [] && Delivered([request]) == [e]
  {
    var call := Call([Attempt(Some(e), None)], false);
    var inner := InTx([call, Raise], true, true);
    var request := InTx([inner], true, false);
    assert Notified([e]) == [e];
    assert [call, Raise][1..] == [Raise];
    assert Sequence([Raise]) == Effect([], [], false);
    assert Sequence([call, Raise]) == Effect([e], [e], false);
    assert Meaning(inner) == Effect([], [e], true);
    assert Sequence([inner]) == Effect([], [e], true);
    assert Outermost(request) == ([], [e]);
    assert [request][1..] == [];
  }

  /** A duplicate-key race leaves the event of the second attempt only, in the log and outside. */
  lemma RetryContributesOnce(lost: Option<Logged>, won: Logged, tolerated: bool)
    ensures var race := Call([Attempt(lost, Some(DuplicateKey)), Attempt(Some(won), None)], tolerated);
            Outermost(race) == ([won], Notified([won]))
  {
    var attempts := [Attempt(lost, Some(DuplicateKey)), Attempt(Some(won), None)];
    assert attempts[1..] == [Attempt(Some(won), None)];
    assert Settled(attempts, MAX_ATTEMPTS) == Settled(attempts[1..], 1);
  }

  // One alert in the published stream

  lemma {:induction false} HistoryOfNotified(log: seq<Logged>, k: Key)
    ensures History(Notified(log), k) == Published(History(log, k))
  {
    if log != [] {
      var front, last := log[..|log| - 1], log[|log| - 1];
      HistoryOfNotified(front, k);
      var notified := Notified(front);
      assert (notified + [last])[..|notified|] == notified;
      var history := History(front, k);
      assert (history + [last.entry])[..|history|] == history;
      assert notified + [] == notified && history + [] == history;
    }
  }

  /** What consumers are sent about one alert is what its own track publishes: from there on, the
      shape of the stream and the faithfulness of what is held back apply to it. */
  lemma ConsumersFollowEachAlert(requests: seq<Stmt>, k: Key, ops: seq<Op>)
    requires forall r :: r in requests ==> Propagates(r)
    requires History(Committed(requests), k) == Run(NEW_TRACK, ops).log
    ensures var sent := History(Delivered(requests), k);
            var row := Run(NEW_TRACK, ops).row;
            && sent == Published(Run(NEW_TRACK, ops).log)
            && !AlertTheorems.PhaseOf(sent).Broken?
            && (row.Some? && row.value.snooze.None? ==>
                  && sent != []
                  && sent[|sent| - 1].alert.status == row.value.status
                  && AlertTheorems.Agree(sent[|sent| - 1].alert.evidence, row.value.evidence))
  {
    PropagatingPublishesCommitted(requests);
    HistoryOfNotified(Committed(requests), k);
    AlertTheorems.RunKeeps(NEW_TRACK, ops);
  }
}
