/** The explanation stored with a rule, under patches that read a rule first and write it later. */
module Explanations {
  import opened Wrappers
  import J = JobTables

  type RuleId = nat
  type RequestId = nat
  type Kind = string
  type Spec = string
  type Settings = map<string, string>

  /** What the templates of a registry and the kernel make of a spec. */
  datatype Registry = Registry(known: Kind -> bool, valid: (Kind, Spec) -> bool, explain: (Kind, Spec) -> Option<string>,
                               parses: string -> bool)
  {
    /** The explanation of a spec that is accepted. */
    function Derive(kind: Kind, spec: Spec): Option<string> {
      if !known(kind) || !valid(kind, spec) then None
      else
        var explanation := explain(kind, spec);
        if explanation.Some? && parses(explanation.value) then explanation else None
    }
  }

  /** A rule: its template and spec, their explanation, its revision, and all its other columns. */
  datatype Rule = Rule(kind: Kind, spec: Spec, explanation: string, revision: nat, settings: Settings)

  datatype Patch = Patch(kind: Option<Kind>, spec: Option<Spec>, settings: Settings, explanation: Option<string>,
                         expected: Option<nat>)
  {
    /** The payload of a request names neither an explanation nor a revision. */
    predicate Public() { explanation.None? && expected.None? }

    predicate TouchesTemplate() { kind.Some? || spec.Some? }

    predicate Touches() { kind.Some? || spec.Some? || explanation.Some? || settings != map[] }
  }

  datatype Error = NotFound | Invalid | RevisionConflict

  // The service's half of a patch

  method PreparePatch(registry: Registry, rules: map<RuleId, Rule>, id: RuleId, patch: Patch) returns (r: Result<Patch, Error>)
    ensures r == Prepared(registry, rules, id, patch)
    ensures patch.kind == None && patch.spec == None ==> r == Ok(patch)
    ensures (patch.kind.Some? || patch.spec.Some?) && id !in rules ==> r == Err(NotFound)
    ensures (patch.kind.Some? || patch.spec.Some?) && id in rules ==>
              var kind := if patch.kind.Some? then patch.kind.value else rules[id].kind;
              var spec := if patch.spec.Some? then patch.spec.value else rules[id].spec;
              if registry.known(kind) && registry.valid(kind, spec) && registry.explain(kind, spec).Some? &&
                 registry.parses(registry.explain(kind, spec).value)
              then r == Ok(patch.(explanation := registry.explain(kind, spec), expected := Some(rules[id].revision)))
              else r == Err(Invalid)
  {
    var prepared := patch;
    if prepared.kind.Some? || prepared.spec.Some? {
      if id !in rules {
        return Err(NotFound);
      }
      var rule := rules[id];
      prepared := prepared.(expected := Some(rule.revision));
      var kind := rule.kind;
      if prepared.kind.Some? {
        kind := prepared.kind.value;
      }
      var spec := rule.spec;
      if prepared.spec.Some? {
        spec := prepared.spec.value;
      }
      if !registry.known(kind) || !registry.valid(kind, spec) {
        return Err(Invalid);
      }
      var explanation := registry.explain(kind, spec);
      if explanation.None? || !registry.parses(explanation.value) {
        return Err(Invalid);
      }
      prepared := prepared.(explanation := explanation);
    }
    r := Ok(prepared);
  }

  function Prepared(registry: Registry, rules: map<RuleId, Rule>, id: RuleId, patch: Patch): Result<Patch, Error> {
    if !patch.TouchesTemplate() then Ok(patch)
    else if id !in rules then Err(NotFound)
    else
      var rule := rules[id];
      var explanation := registry.Derive(Or(patch.kind, rule.kind), Or(patch.spec, rule.spec));
      if explanation.None? then Err(Invalid)
      else Ok(patch.(explanation := explanation, expected := Some(rule.revision)))
  }

  // The storage's half

  function Patched(rule: Rule, patch: Patch): Rule {
    Rule(Or(patch.kind, rule.kind), Or(patch.spec, rule.spec), Or(patch.explanation, rule.explanation), rule.revision + 1,
         rule.settings + patch.settings)
  }

  function Store(rules: map<RuleId, Rule>, id: RuleId, patch: Patch): Result<map<RuleId, Rule>, Error> {
    if id !in rules then Err(NotFound)
    else if !patch.Touches() then Ok(rules)
    else if patch.expected.Some? && rules[id].revision != patch.expected.value then Err(RevisionConflict)
    else Ok(rules[id := Patched(rules[id], patch)])
  }

  /** What a patch leaves, column by column: those it names have the new value, all others their
      own; so do the settings it names or not, and no other rule changes. */
  lemma StoredColumns(rules: map<RuleId, Rule>, id: RuleId, patch: Patch)
    requires Store(rules, id, patch).Ok? && patch.Touches()
    ensures var stored := Store(rules, id, patch).value;
            && id in rules && stored.Keys == rules.Keys && (forall other :: other in rules && other != id ==> stored[other] == rules[other])
            && var rule, rule' := rules[id], stored[id];
               && (if patch.kind == None then rule'.kind == rule.kind else patch.kind == Some(rule'.kind))
               && (if patch.spec == None then rule'.spec == rule.spec else patch.spec == Some(rule'.spec))
               && (if patch.explanation == None then rule'.explanation == rule.explanation
                   else patch.explanation == Some(rule'.explanation))
               && rule'.revision == rule.revision + 1
               && (forall k :: k in patch.settings ==> k in rule'.settings && rule'.settings[k] == patch.settings[k])
               && (forall k :: k !in patch.settings ==>
                     (k in rule'.settings <==> k in rule.settings) && (k in rule.settings ==> rule'.settings[k] == rule.settings[k]))
  {
  }

  // Interleavings

  /** A patch between its two halves. */
  datatype Pending = Pending(rule: RuleId, patch: Patch)

  datatype State = State(rules: map<RuleId, Rule>, created: set<RuleId>, pending: map<RequestId, Pending>)

  const EMPTY := State(map[], {}, map[])

  datatype Step =
    | Create(id: RuleId, kind: Kind, spec: Spec, settings: Settings)
    | BeginPatch(request: RequestId, rule: RuleId, patch: Patch)
    | FinishPatch(finished: RequestId)
    | Delete(deleted: RuleId)

  /** A step that is not possible, or that is refused, changes no rule. Ids of rules are not used again. */
  function Apply(registry: Registry, s: State, step: Step): State {
    match step
    case Create(id, kind, spec, settings) =>
      var explanation := registry.Derive(kind, spec);
      if id in s.created || explanation.None? then s
      else s.(rules := s.rules[id := Rule(kind, spec, explanation.value, 1, settings)], created := s.created + {id})
    case BeginPatch(request, rule, patch) =>
      if request in s.pending || !patch.Public() then s
      else
        var prepared := Prepared(registry, s.rules, rule, patch);
        if prepared.Err? then s else s.(pending := s.pending[request := Pending(rule, prepared.value)])
    case FinishPatch(request) =>
      if request !in s.pending then s
      else
        var stored := Store(s.rules, s.pending[request].rule, s.pending[request].patch);
        State(if stored.Ok? then stored.value else s.rules, s.created, s.pending - {request})
    case Delete(id) => s.(rules := s.rules - {id})
  }

  /** A rule is created as it was asked for, in its first revision, or not at all. */
  lemma CreatedColumns(registry: Registry, s: State, id: RuleId, kind: Kind, spec: Spec, settings: Settings)
    ensures var s' := Apply(registry, s, Create(id, kind, spec, settings));
            if id !in s.created && registry.known(kind) && registry.valid(kind, spec) && registry.explain(kind, spec).Some? &&
               registry.parses(registry.explain(kind, spec).value)
            then
              && s'.rules.Keys == s.rules.Keys + {id}
              && s'.rules[id] == Rule(kind, spec, registry.explain(kind, spec).value, 1, settings)
              && forall other :: other in s.rules && other != id ==> s'.rules[other] == s.rules[other]
            else s' == s
  {
  }

  function Run(registry: Registry, s: State, steps: seq<Step>): State
    decreases |steps|
  {
    if steps == [] then s else Run(registry, Apply(registry, s, steps[0]), steps[1..])
  }

  // Invariants

  /** The spec of a rule is one its template accepts, and the explanation is the one of that spec. */
  predicate Truthful(registry: Registry, rule: Rule) {
    registry.Derive(rule.kind, rule.spec) == Some(rule.explanation)
  }

  /** If a pending patch still finds the revision it read, writing it keeps the explanation truthful. */
  predicate PendingOk(registry: Registry, rules: map<RuleId, Rule>, created: set<RuleId>, p: Pending) {
    && (p.patch.TouchesTemplate() <==> p.patch.expected.Some?)
    && (p.patch.TouchesTemplate() <==> p.patch.explanation.Some?)
    && (p.patch.TouchesTemplate() ==> p.rule in created)
    && (p.patch.TouchesTemplate() && p.rule in rules ==>
          var rule := rules[p.rule];
          && p.patch.expected.value <= rule.revision
          && (p.patch.expected.value == rule.revision ==> Truthful(registry, Patched(rule, p.patch))))
  }

  ghost predicate AllOk(registry: Registry, s: State) {
    && (forall id :: id in s.rules ==> id in s.created && Truthful(registry, s.rules[id]))
    && (forall r :: r in s.pending ==> PendingOk(registry, s.rules, s.created, s.pending[r]))
  }

  lemma FinishKeeps(registry: Registry, s: State, request: RequestId)
    requires AllOk(registry, s) && request in s.pending
    ensures AllOk(registry, Apply(registry, s, FinishPatch(request)))
  {
    var p := s.pending[request];
    var s' := Apply(registry, s, FinishPatch(request));
    assert PendingOk(registry, s.rules, s.created, p);
    forall r | r in s'.pending ensures PendingOk(registry, s'.rules, s'.created, s'.pending[r]) {
      assert PendingOk(registry, s.rules, s.created, s.pending[r]);
    }
  }

  lemma StepKeeps(registry: Registry, s: State, step: Step)
    requires AllOk(registry, s)
    ensures AllOk(registry, Apply(registry, s, step))
  {
    var s' := Apply(registry, s, step);
    match step {
      case FinishPatch(request) =>
        if request in s.pending { FinishKeeps(registry, s, request); }
      case _ =>
        forall r | r in s'.pending && r in s.pending ensures PendingOk(registry, s'.rules, s'.created, s'.pending[r]) {
          assert PendingOk(registry, s.rules, s.created, s.pending[r]);
        }
    }
  }

  lemma {:induction false} RunKeeps(registry: Registry, s: State, steps: seq<Step>)
    requires AllOk(registry, s)
    ensures AllOk(registry, Run(registry, s, steps))
    decreases |steps|
  {
    if steps != [] {
      StepKeeps(registry, s, steps[0]);
      RunKeeps(registry, Apply(registry, s, steps[0]), steps[1..]);
    }
  }

  /** However creations, deletions and the halves of patches interleave, the stored explanation is
      the explanation of the stored kind and spec, and that spec is valid. */
  lemma ExplanationsStayTruthful(registry: Registry, steps: seq<Step>)
    ensures forall id :: id in Run(registry, EMPTY, steps).rules ==>
              var rule := Run(registry, EMPTY, steps).rules[id];
              && registry.known(rule.kind) && registry.valid(rule.kind, rule.spec)
              && registry.explain(rule.kind, rule.spec) == Some(rule.explanation)
              && registry.parses(rule.explanation)
  {
    RunKeeps(registry, EMPTY, steps);
    forall id | id in Run(registry, EMPTY, steps).rules ensures Truthful(registry, Run(registry, EMPTY, steps).rules[id]) {
    }
  }

  /** One row at two points of a run: the same, or of a later revision. */
  predicate Later(earlier: Rule, later: Rule) {
    earlier == later || earlier.revision < later.revision
  }

  lemma {:induction false} RevisionsIncrease(registry: Registry, s: State, steps: seq<Step>, id: RuleId)
    requires AllOk(registry, s) && id in s.created
    ensures var s' := Run(registry, s, steps);
            id in s'.created && (id in s'.rules ==> id in s.rules && Later(s.rules[id], s'.rules[id]))
    decreases |steps|
  {
    if steps != [] {
      var s1 := Apply(registry, s, steps[0]);
      StepKeeps(registry, s, steps[0]);
      RevisionsIncrease(registry, s1, steps[1..], id);
    }
  }

  /** A patch of the template that began in one state and finishes in a later one takes effect
      exactly when the rule is still there and no other patch of it took effect in between. */
  lemma ConflictIffRevised(registry: Registry, before: State, id: RuleId, patch: Patch, steps: seq<Step>)
    requires AllOk(registry, before) && patch.Public() && patch.TouchesTemplate()
    requires Prepared(registry, before.rules, id, patch).Ok?
    ensures var prepared := Prepared(registry, before.rules, id, patch).value;
            var after := Run(registry, before, steps);
            var stored := Store(after.rules, id, prepared);
            && (stored.Ok? <==> id in after.rules && after.rules[id] == before.rules[id])
            && (stored.Ok? ==>
                  && stored.value[id].kind == Or(patch.kind, before.rules[id].kind)
                  && stored.value[id].spec == Or(patch.spec, before.rules[id].spec)
                  && stored.value[id].revision == before.rules[id].revision + 1
                  && Truthful(registry, stored.value[id]))
            && (stored.Err? ==> stored.error == if id in after.rules then RevisionConflict else NotFound)
  {
    RevisionsIncrease(registry, before, steps, id);
  }

  // The same rules in the job tables

  /** The job tables keep the revision of a rule, and one code for its kind and spec. */
  predicate SameRule(rule: Rule, row: J.Rule, code: (Kind, Spec) -> nat) {
    row.revision == rule.revision && row.definition == code(rule.kind, rule.spec)
  }

  predicate SamePatch(rule: Rule, patch: Patch, seen: J.Patch, code: (Kind, Spec) -> nat) {
    && seen.expectedRevision == patch.expected && (seen.Touches() <==> patch.Touches())
    && seen.definition == if patch.TouchesTemplate() then Some(code(Or(patch.kind, rule.kind), Or(patch.spec, rule.spec))) else None
  }

  /** Both views of a patch are refused together, with the same error, or lead to the same rule; a
      schedule that does not parse is refused by the service before. */
  lemma PatchesAgree(rules: map<RuleId, Rule>, t: J.Tables, r: RuleId, patch: Patch, seen: J.Patch, code: (Kind, Spec) -> nat)
    requires r in rules <==> r in t.rules
    requires r in rules ==> SameRule(rules[r], t.rules[r], code) && SamePatch(rules[r], patch, seen, code)
    requires r in t.rules ==>
               J.InitialCursor(Or(seen.enabled, t.rules[r].enabled), Or(seen.schedule, t.rules[r].schedule), t.clock).Ok?
    ensures match (Store(rules, r, patch), J.PatchRule(t, r, seen))
            case (Ok(stored), Ok(tables)) => r in stored && r in tables.rules && SameRule(stored[r], tables.rules[r], code)
            case (Err(e), Err(f)) => (e.NotFound? && f.NotFound?) || (e.RevisionConflict? && f.RevisionConflict?)
            case _ => false
  {
  }
}
