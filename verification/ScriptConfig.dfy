/** The save-time validator of script configurations
    (packages/core/src/validation/script-config.ts). */
module ScriptConfigs {
  import opened Common
  import RegexScan

  const MAX_FILTERS := 20
  const MAX_FILTER_VALUE := 500
  const MAX_REGEX_LENGTH := 500
  const MAX_CUSTOM_EXPRESSION := 500
  const MAX_CUSTOM_CODE := 4000
  const MAX_ACTIONS := 200
  const MAX_NESTING := 5
  const MAX_DELAY_MS := 300_000.0
  const MAX_EXECUTION_MS := 600_000
  const MAX_PAYLOAD_STRING := 10_000

  /** A configuration value; an absent field reads as Undefined. */
  datatype Json =
    | Undefined | Null | Bool(b: bool) | Num(number: real) | Str(text: string)
    | Arr(items: seq<Json>) | Obj(entries: seq<Entry>)

  datatype Entry = Entry(key: string, value: Json)

  /** What the validator asks of code outside this component: its forbidden patterns, the webhook
      URL rules and JavaScript's conversion to a number (None for not-a-number). */
  datatype Rules = Rules(
    nestedQuantifier: string -> bool, unsafePattern: string -> bool, forbiddenCode: string -> bool,
    urlAllowed: string -> bool, toNumber: Json -> Option<real>)

  function FieldOf(entries: seq<Entry>, key: string): (v: Json)
    ensures v == Undefined || exists i :: 0 <= i < |entries| && entries[i].value == v
  {
    if entries == [] then Undefined
    else if entries[0].key == key then entries[0].value
    else
      var v := FieldOf(entries[1..], key);
      assert forall i :: 0 <= i < |entries| - 1 ==> entries[1..][i] == entries[i + 1];
      v
  }

  function Field(v: Json, key: string): (field: Json)
    ensures field != Undefined ==> field < v
  {
    if v.Obj? then FieldOf(v.entries, key) else Undefined
  }

  function TextOf(v: Json): string {
    if v.Str? then v.text else ""
  }

  // ---- Problems ----

  datatype RegexProblem = RegexTooLong | NestedQuantifiers | DoesNotCompile

  datatype CodeProblem = CodeTooLong | ForbiddenConstruct

  datatype Problem =
    | ConfigNotObject | TooManyFilters | FilterNotObject | FilterRegex(regex: RegexProblem)
    | FilterCode(code: CodeProblem) | FilterValueTooLong | FilterTypeUnsupported
    | ActionsNotArray | TooManyActions | ActionNotObject | ActionNeedsType | NestingTooDeep
    | ConditionNotObject | ConditionRegex(why: RegexProblem) | PayloadStringTooLong(action: string, key: string)
    | CustomNeedsCode | CustomCode(reason: CodeProblem) | DelayTooLong | UrlDisallowed
    | CooldownRange | IntervalRange | ExecutionRange

  // ---- Patterns and code ----

  ghost predicate RegexFine(value: string, rules: Rules) {
    && |value| <= MAX_REGEX_LENGTH
    && !rules.nestedQuantifier(value) && !rules.unsafePattern(value)
    && RegexScan.ProperlyNested(RegexScan.Groups(value))
  }

  predicate CodeFine(value: string, maxLength: nat, rules: Rules) {
    |value| <= maxLength && !rules.forbiddenCode(value)
  }

  method IsRegexSafe(value: string, rules: Rules) returns (ok: bool)
    ensures ok <==> RegexFine(value, rules)
  {
    if |value| > MAX_REGEX_LENGTH { return false; }
    if rules.nestedQuantifier(value) || rules.unsafePattern(value) { return false; }
    ok := RegexScan.ParenthesesNest(value);
  }

  ghost function RegexProblems(value: string, rules: Rules): Option<RegexProblem> {
    if RegexFine(value, rules) then None
    else if |value| > MAX_REGEX_LENGTH then Some(RegexTooLong)
    else if rules.nestedQuantifier(value) then Some(NestedQuantifiers)
    else Some(DoesNotCompile)
  }

  method CheckRegex(value: string, rules: Rules) returns (problem: Option<RegexProblem>)
    ensures problem == RegexProblems(value, rules)
  {
    var ok := IsRegexSafe(value, rules);
    if ok { return None; }
    if |value| > MAX_REGEX_LENGTH { return Some(RegexTooLong); }
    if rules.nestedQuantifier(value) { return Some(NestedQuantifiers); }
    problem := Some(DoesNotCompile);
  }

  function CheckCode(value: string, maxLength: nat, rules: Rules): Option<CodeProblem> {
    if |value| > maxLength then Some(CodeTooLong)
    else if rules.forbiddenCode(value) then Some(ForbiddenConstruct)
    else None
  }

  // ---- Filters ----

  ghost predicate FilterFine(filter: Json, rules: Rules) {
    var value := TextOf(Field(filter, "value"));
    && filter.Obj?
    && (match Field(filter, "type")
        case Str("regex") => RegexFine(value, rules)
        case Str("custom") => CodeFine(value, MAX_CUSTOM_EXPRESSION, rules)
        case Str("keyword") => |value| <= MAX_FILTER_VALUE
        case Str("role") => |value| <= MAX_FILTER_VALUE
        case _ => false)
  }

  ghost function FilterProblems(filter: Json, rules: Rules): (problems: seq<Problem>)
    ensures problems == [] <==> FilterFine(filter, rules)
  {
    if !filter.Obj? then [FilterNotObject]
    else
      var value := TextOf(Field(filter, "value"));
      match Field(filter, "type")
      case Str("regex") =>
        var r := RegexProblems(value, rules);
        if r.Some? then [FilterRegex(r.value)] else []
      case Str("custom") =>
        var r := CheckCode(value, MAX_CUSTOM_EXPRESSION, rules);
        if r.Some? then [FilterCode(r.value)] else []
      case Str("keyword") => if |value| > MAX_FILTER_VALUE then [FilterValueTooLong] else []
      case Str("role") => if |value| > MAX_FILTER_VALUE then [FilterValueTooLong] else []
      case _ => [FilterTypeUnsupported]
  }

  ghost function AllFilterProblems(filters: seq<Json>, rules: Rules): seq<Problem> {
    if filters == [] then []
    else
      var last := filters[|filters| - 1];
      AllFilterProblems(filters[..|filters| - 1], rules) + FilterProblems(last, rules)
  }

  ghost predicate FiltersFine(filters: Json, rules: Rules) {
    filters.Arr? ==>
      && |filters.items| <= MAX_FILTERS
      && forall i :: 0 <= i < |filters.items| ==> FilterFine(filters.items[i], rules)
  }

  ghost function FilterListProblems(filters: Json, rules: Rules): seq<Problem> {
    if !filters.Arr? then []
    else if |filters.items| > MAX_FILTERS then [TooManyFilters]
    else AllFilterProblems(filters.items, rules)
  }

  lemma {:induction false} NoFilterProblemsIff(filters: seq<Json>, rules: Rules)
    ensures AllFilterProblems(filters, rules) == [] <==> forall i :: 0 <= i < |filters| ==> FilterFine(filters[i], rules)
  {
    hide FilterProblems, FilterFine;
    if filters != [] {
      var n := |filters| - 1;
      NoFilterProblemsIff(filters[..n], rules);
      assert FilterProblems(filters[n], rules) == [] <==> FilterFine(filters[n], rules);
      assert forall i :: 0 <= i < n ==> filters[..n][i] == filters[i];
    }
  }

  lemma NoFilterListProblemsIff(filters: Json, rules: Rules)
    ensures FilterListProblems(filters, rules) == [] <==> FiltersFine(filters, rules)
  {
    hide FilterFine, AllFilterProblems;
    if filters.Arr? { NoFilterProblemsIff(filters.items, rules); }
  }

  /** One more filter adds its own problems. */
  lemma OneMoreFilter(filters: seq<Json>, i: nat, rules: Rules)
    requires i < |filters|
    ensures AllFilterProblems(filters[..i + 1], rules) == AllFilterProblems(filters[..i], rules) + FilterProblems(filters[i], rules)
  {
    hide FilterProblems;
    assert filters[..i + 1][..i] == filters[..i];
  }

  // ---- Single actions ----

  ghost predicate ConditionFine(condition: Json, rules: Rules) {
    condition != Undefined ==>
      && condition.Obj?
      && (Field(condition, "operator") == Str("regex") ==> RegexFine(TextOf(Field(condition, "value")), rules))
  }

  ghost function ConditionProblems(condition: Json, rules: Rules): (problems: seq<Problem>)
    ensures problems == [] <==> ConditionFine(condition, rules)
  {
    if condition == Undefined then []
    else if !condition.Obj? then [ConditionNotObject]
    else if Field(condition, "operator") == Str("regex") then
      var r := RegexProblems(TextOf(Field(condition, "value")), rules);
      if r.Some? then [ConditionRegex(r.value)] else []
    else []
  }

  predicate EntryFine(entry: Entry) {
    |TextOf(entry.value)| <= MAX_PAYLOAD_STRING
  }

  function EntryProblems(action: string, entry: Entry): seq<Problem> {
    if entry.value.Str? && |entry.value.text| > MAX_PAYLOAD_STRING then [PayloadStringTooLong(action, entry.key)] else []
  }

  function PayloadProblems(action: string, entries: seq<Entry>): seq<Problem> {
    if entries == [] then []
    else PayloadProblems(action, entries[..|entries| - 1]) + EntryProblems(action, entries[|entries| - 1])
  }

  lemma EntryProblemIff(action: string, entry: Entry)
    ensures EntryProblems(action, entry) == [] <==> EntryFine(entry)
  {
  }

  lemma {:induction false} NoPayloadProblemsIff(action: string, entries: seq<Entry>)
    ensures PayloadProblems(action, entries) == [] <==> forall i :: 0 <= i < |entries| ==> EntryFine(entries[i])
  {
    hide EntryFine, EntryProblems;
    if entries != [] {
      var n := |entries| - 1;
      NoPayloadProblemsIff(action, entries[..n]);
      EntryProblemIff(action, entries[n]);
      assert forall i :: 0 <= i < n ==> entries[..n][i] == entries[i];
    }
  }

  /** One more entry adds its own problem, if it has one. */
  lemma OneMoreEntry(action: string, entries: seq<Entry>, i: nat)
    requires i < |entries|
    ensures PayloadProblems(action, entries[..i + 1]) == PayloadProblems(action, entries[..i]) + EntryProblems(action, entries[i])
  {
    hide EntryProblems;
    assert entries[..i + 1][..i] == entries[..i];
  }

  predicate PayloadFine(payload: Json) {
    payload.Obj? ==> forall i :: 0 <= i < |payload.entries| ==> EntryFine(payload.entries[i])
  }

  /** The rules particular to one type of action. */
  predicate KindFine(step: Json, rules: Rules) {
    var payload := Field(step, "payload");
    match Field(step, "type")
    case Str("custom") =>
      var code := Field(payload, "code");
      code.Str? && CodeFine(code.text, MAX_CUSTOM_CODE, rules)
    case Str("delay") =>
      var ms := Field(payload, "ms");
      ms.Num? ==> ms.number <= MAX_DELAY_MS
    case Str("webhook") =>
      var url := TextOf(Field(payload, "url"));
      url != "" && rules.urlAllowed(url)
    case _ => true
  }

  function KindProblems(step: Json, rules: Rules): (problems: seq<Problem>)
    ensures problems == [] <==> KindFine(step, rules)
  {
    var payload := Field(step, "payload");
    match Field(step, "type")
    case Str("custom") =>
      var code := Field(payload, "code");
      if !code.Str? then [CustomNeedsCode]
      else
        var r := CheckCode(code.text, MAX_CUSTOM_CODE, rules);
        if r.Some? then [CustomCode(r.value)] else []
    case Str("delay") =>
      var ms := Field(payload, "ms");
      if ms.Num? && ms.number > MAX_DELAY_MS then [DelayTooLong] else []
    case Str("webhook") =>
      var url := TextOf(Field(payload, "url"));
      if url == "" || !rules.urlAllowed(url) then [UrlDisallowed] else []
    case _ => []
  }

  predicate Typed(step: Json) {
    step.Obj? && TextOf(Field(step, "type")) != ""
  }

  predicate IsIf(step: Json) {
    Field(step, "type") == Str("if")
  }

  /** Everything about an action except its nested actions. */
  ghost predicate ActionFine(step: Json, rules: Rules) {
    && Typed(step)
    && ConditionFine(Field(step, "condition"), rules)
    && PayloadFine(Field(step, "payload"))
    && KindFine(step, rules)
  }

  ghost function ActionProblems(step: Json, rules: Rules): seq<Problem>
    requires Typed(step)
  {
    var payload := Field(step, "payload");
    ConditionProblems(Field(step, "condition"), rules)
    + (if payload.Obj? then PayloadProblems(TextOf(Field(step, "type")), payload.entries) else [])
    + KindProblems(step, rules)
  }

  lemma NoActionProblemsIff(step: Json, rules: Rules)
    requires Typed(step)
    ensures ActionProblems(step, rules) == [] <==> ActionFine(step, rules)
  {
    hide ConditionProblems, ConditionFine, KindProblems, KindFine, EntryFine, PayloadProblems, Field, TextOf;
    var condition, payload, kind := Field(step, "condition"), Field(step, "payload"), TextOf(Field(step, "type"));
    assert ConditionProblems(condition, rules) == [] <==> ConditionFine(condition, rules);
    assert KindProblems(step, rules) == [] <==> KindFine(step, rules);
    if payload.Obj? { NoPayloadProblemsIff(kind, payload.entries); }
  }

  // ---- The walk over nested actions ----

  /** The error list and the counter that the whole walk shares. */
  datatype Tally = Tally(errors: seq<Problem>, n: nat)

  ghost function WalkActions(actions: Json, depth: nat, t: Tally, rules: Rules): Tally
    decreases actions, 0
  {
    match actions
    case Undefined => t
    case Arr(items) => WalkSteps(items, depth, t, rules)
    case _ => t.(errors := t.errors + [ActionsNotArray])
  }

  ghost function WalkSteps(steps: seq<Json>, depth: nat, t: Tally, rules: Rules): Tally
    decreases steps, 0
  {
    if steps == [] then t
    else if t.n + 1 > MAX_ACTIONS then Tally(t.errors + [TooManyActions], t.n + 1)
    else WalkSteps(steps[1..], depth, WalkStep(steps[0], depth, t.(n := t.n + 1), rules), rules)
  }

  ghost function WalkStep(step: Json, depth: nat, t: Tally, rules: Rules): Tally
    decreases step, 1
  {
    if !step.Obj? then t.(errors := t.errors + [ActionNotObject])
    else if !Typed(step) then t.(errors := t.errors + [ActionNeedsType])
    else
      var t1 := t.(errors := t.errors + ActionProblems(step, rules));
      if !IsIf(step) then t1
      else
        var t2 := t1.(errors := t1.errors + if depth + 1 > MAX_NESTING then [NestingTooDeep] else []);
        var inner := Field(step, "actions");
        if inner == Undefined then t2 else WalkActions(inner, depth + 1, t2, rules)
  }

  // ---- What an accepted configuration looks like ----

  /** An action of an accepted configuration as the interpreter sees it: only `if` actions have
      nested ones. */
  datatype Step = Do(kind: string, guarded: bool) | If(guarded: bool, body: seq<Step>)

  function Decode(actions: Json): Option<seq<Step>>
  {
    if actions.Arr? then Some(DecodeAll(actions.items)) else None
  }

  function DecodeAll(items: seq<Json>): seq<Step>
    decreases items, 0
  {
    if items == [] then [] else [DecodeStep(items[0])] + DecodeAll(items[1..])
  }

  function DecodeStep(step: Json): Step
    decreases step, 1
  {
    var guarded, inner := Field(step, "condition").Obj?, Field(step, "actions");
    if !IsIf(step) then Do(TextOf(Field(step, "type")), guarded)
    else If(guarded, if inner.Arr? then DecodeAll(inner.items) else [])
  }

  /** How many actions a tree holds. */
  function Count(steps: seq<Step>): nat {
    if steps == [] then 0 else CountStep(steps[0]) + Count(steps[1..])
  }

  function CountStep(step: Step): nat {
    if step.If? then 1 + Count(step.body) else 1
  }

  /** How deep `if` actions are nested in it. */
  function Nesting(steps: seq<Step>): nat {
    if steps == [] then 0
    else if NestingStep(steps[0]) >= Nesting(steps[1..]) then NestingStep(steps[0]) else Nesting(steps[1..])
  }

  function NestingStep(step: Step): nat {
    if step.If? then 1 + Nesting(step.body) else 0
  }

  ghost predicate ActionsFine(actions: Json, rules: Rules)
    decreases actions, 1
  {
    actions == Undefined || (actions.Arr? && StepsFine(actions.items, rules))
  }

  ghost predicate StepsFine(steps: seq<Json>, rules: Rules)
    decreases steps, 0
  {
    steps == [] || (StepFine(steps[0], rules) && StepsFine(steps[1..], rules))
  }

  ghost predicate StepFine(step: Json, rules: Rules)
    decreases step, 2
  {
    && ActionFine(step, rules)
    && var inner := Field(step, "actions");
       (IsIf(step) && inner != Undefined ==> ActionsFine(inner, rules))
  }

  function CountIn(steps: Option<seq<Step>>): nat {
    if steps.Some? then Count(steps.value) else 0
  }

  function NestingIn(steps: Option<seq<Step>>): nat {
    if steps.Some? then Nesting(steps.value) else 0
  }

  lemma {:induction false} WalkKeepsErrors(actions: Json, depth: nat, t: Tally, rules: Rules)
    ensures t.errors <= WalkActions(actions, depth, t, rules).errors
    decreases actions, 0
  {
    if actions.Arr? { StepsKeepErrors(actions.items, depth, t, rules); }
  }

  lemma {:induction false} StepsKeepErrors(steps: seq<Json>, depth: nat, t: Tally, rules: Rules)
    ensures t.errors <= WalkSteps(steps, depth, t, rules).errors
    decreases steps, 0
  {
    hide WalkStep;
    if steps != [] && t.n + 1 <= MAX_ACTIONS {
      var t1 := t.(n := t.n + 1);
      StepKeepsErrors(steps[0], depth, t1, rules);
      StepsKeepErrors(steps[1..], depth, WalkStep(steps[0], depth, t1, rules), rules);
    }
  }

  lemma {:induction false} StepKeepsErrors(step: Json, depth: nat, t: Tally, rules: Rules)
    ensures t.errors <= WalkStep(step, depth, t, rules).errors
    decreases step, 1
  {
    hide ActionProblems;
    if Typed(step) && IsIf(step) && Field(step, "actions") != Undefined {
      var t1 := t.(errors := t.errors + ActionProblems(step, rules));
      var t2 := t1.(errors := t1.errors + if depth + 1 > MAX_NESTING then [NestingTooDeep] else []);
      WalkKeepsErrors(Field(step, "actions"), depth + 1, t2, rules);
    }
  }

  /** The walk reports nothing exactly when every action is fine and both budgets hold, and then
      the counter has grown by the number of actions. */
  lemma {:induction false} WalkActionsClean(actions: Json, depth: nat, t: Tally, rules: Rules)
    requires depth <= MAX_NESTING && t.n <= MAX_ACTIONS
    ensures var r, steps := WalkActions(actions, depth, t, rules), Decode(actions);
            && (r.errors == t.errors <==>
                ActionsFine(actions, rules) && t.n + CountIn(steps) <= MAX_ACTIONS && depth + NestingIn(steps) <= MAX_NESTING)
            && (r.errors == t.errors ==> r.n == t.n + CountIn(steps))
    decreases actions, 0
  {
    hide Count, Nesting, StepsFine, WalkSteps;
    if actions.Arr? { WalkStepsClean(actions.items, depth, t, rules); }
  }

  lemma {:induction false} WalkStepsClean(steps: seq<Json>, depth: nat, t: Tally, rules: Rules)
    requires depth <= MAX_NESTING && t.n <= MAX_ACTIONS
    ensures var r, all := WalkSteps(steps, depth, t, rules), DecodeAll(steps);
            && (r.errors == t.errors <==>
                StepsFine(steps, rules) && t.n + Count(all) <= MAX_ACTIONS && depth + Nesting(all) <= MAX_NESTING)
            && (r.errors == t.errors ==> r.n == t.n + Count(all))
    decreases steps, 0
  {
    hide WalkStep, StepFine, CountStep, NestingStep, DecodeStep;
    if steps != [] {
      var all := DecodeAll(steps);
      assert all[0] == DecodeStep(steps[0]) && all[1..] == DecodeAll(steps[1..]);
      AtLeastOne(all[0]);
      if t.n + 1 <= MAX_ACTIONS {
        var t1 := t.(n := t.n + 1);
        var t2 := WalkStep(steps[0], depth, t1, rules);
        WalkStepClean(steps[0], depth, t1, rules);
        StepKeepsErrors(steps[0], depth, t1, rules);
        StepsKeepErrors(steps[1..], depth, t2, rules);
        if t2.errors == t.errors { WalkStepsClean(steps[1..], depth, t2, rules); }
      }
    }
  }

  lemma AtLeastOne(step: Step)
    ensures CountStep(step) >= 1
  {
  }

  lemma {:induction false} WalkStepClean(step: Json, depth: nat, t: Tally, rules: Rules)
    requires depth <= MAX_NESTING && 1 <= t.n <= MAX_ACTIONS
    ensures var r, s := WalkStep(step, depth, t, rules), DecodeStep(step);
            && (r.errors == t.errors <==>
                StepFine(step, rules) && t.n - 1 + CountStep(s) <= MAX_ACTIONS && depth + NestingStep(s) <= MAX_NESTING)
            && (r.errors == t.errors ==> r.n == t.n - 1 + CountStep(s))
    decreases step, 1
  {
    hide ActionFine, ActionProblems, Count, Nesting;
    if Typed(step) {
      var inner, problems := Field(step, "actions"), ActionProblems(step, rules);
      NoActionProblemsIff(step, rules);
      NoActions();
      if IsIf(step) && inner != Undefined {
        var t1 := t.(errors := t.errors + problems);
        var t2 := t1.(errors := t1.errors + if depth + 1 > MAX_NESTING then [NestingTooDeep] else []);
        WalkKeepsErrors(inner, depth + 1, t2, rules);
        if t2.errors == t.errors { WalkActionsClean(inner, depth + 1, t2, rules); }
      }
    } else {
      FineIsTyped(step, rules);
    }
  }

  lemma NoActions()
    ensures Count([]) == 0 == Nesting([])
  {
  }

  lemma FineIsTyped(step: Json, rules: Rules)
    ensures ActionFine(step, rules) ==> Typed(step)
  {
  }

  // ---- The whole configuration ----

  /** Absent, or one of the integers from `low` to `high` once converted to a number. */
  ghost predicate Between(v: Json, low: int, high: int, rules: Rules) {
    v == Undefined || exists i: int :: low <= i <= high && Is(rules.toNumber(v), i)
  }

  predicate Is(number: Option<real>, i: int) {
    number == Some(i as real)
  }

  predicate OutOfRange(v: Json, low: int, high: int, rules: Rules) {
    v != Undefined &&
    var n := rules.toNumber(v);
    n == None || n.value != n.value.Floor as real || n.value < low as real || n.value > high as real
  }

  lemma OutOfRangeIff(v: Json, low: int, high: int, rules: Rules)
    ensures OutOfRange(v, low, high, rules) <==> !Between(v, low, high, rules)
  {
    var n := rules.toNumber(v);
    if !OutOfRange(v, low, high, rules) && v != Undefined {
      assert low <= n.value.Floor <= high && Is(n, n.value.Floor);
    }
  }

  function RangeProblems(config: Json, rules: Rules): seq<Problem> {
    (if OutOfRange(Field(config, "cooldown"), 0, 86_400, rules) then [CooldownRange] else [])
    + (if OutOfRange(Field(config, "interval"), 1, 86_400, rules) then [IntervalRange] else [])
    + (if OutOfRange(Field(config, "maxExecutionMs"), 100, MAX_EXECUTION_MS, rules) then [ExecutionRange] else [])
  }

  ghost function Problems(config: Json, rules: Rules): seq<Problem> {
    if !config.Obj? then [ConfigNotObject]
    else
      var filters := FilterListProblems(Field(config, "filters"), rules);
      WalkActions(Field(config, "actions"), 0, Tally(filters, 0), rules).errors + RangeProblems(config, rules)
  }

  /** An accepted configuration, stated without the walk. */
  ghost predicate Acceptable(config: Json, rules: Rules) {
    var actions := Field(config, "actions");
    && config.Obj?
    && FiltersFine(Field(config, "filters"), rules)
    && ActionsFine(actions, rules)
    && CountIn(Decode(actions)) <= MAX_ACTIONS
    && NestingIn(Decode(actions)) <= MAX_NESTING
    && Between(Field(config, "cooldown"), 0, 86_400, rules)
    && Between(Field(config, "interval"), 1, 86_400, rules)
    && Between(Field(config, "maxExecutionMs"), 100, MAX_EXECUTION_MS, rules)
  }

  /** The validator stays silent on exactly the acceptable configurations. */
  lemma NoProblemsIffAcceptable(config: Json, rules: Rules)
    ensures Problems(config, rules) == [] <==> Acceptable(config, rules)
  {
    hide FiltersFine, FilterListProblems, ActionsFine, Between, OutOfRange, WalkActions, Decode;
    if config.Obj? {
      OutOfRangeIff(Field(config, "cooldown"), 0, 86_400, rules);
      OutOfRangeIff(Field(config, "interval"), 1, 86_400, rules);
      OutOfRangeIff(Field(config, "maxExecutionMs"), 100, MAX_EXECUTION_MS, rules);
      var actions, t := Field(config, "actions"), Tally(FilterListProblems(Field(config, "filters"), rules), 0);
      NoFilterListProblemsIff(Field(config, "filters"), rules);
      WalkActionsClean(actions, 0, t, rules);
      WalkKeepsErrors(actions, 0, t, rules);
    }
  }

  // ---- The same in the limits' own numbers ----

  /** All actions of a list, at any depth, in document order. */
  function Inside(steps: seq<Json>): seq<Json>
    decreases steps, 0
  {
    if steps == [] then [] else InsideStep(steps[0]) + Inside(steps[1..])
  }

  function InsideStep(step: Json): seq<Json>
    decreases step, 1
  {
    var inner := Field(step, "actions");
    [step] + if IsIf(step) && inner.Arr? then Inside(inner.items) else []
  }

  ghost predicate FineAlone(step: Json, rules: Rules) {
    ActionFine(step, rules) && (IsIf(step) ==> Field(step, "actions") == Undefined || Field(step, "actions").Arr?)
  }

  /** An action tree is fine exactly when each action in it is. */
  lemma {:induction false} FineIffEachIs(steps: seq<Json>, rules: Rules)
    ensures StepsFine(steps, rules) <==> forall s :: s in Inside(steps) ==> FineAlone(s, rules)
    decreases steps, 0
  {
    hide ActionFine, StepFine, FineAlone;
    if steps != [] {
      StepFineIff(steps[0], rules);
      FineIffEachIs(steps[1..], rules);
      assert forall s :: s in Inside(steps) <==> s in InsideStep(steps[0]) || s in Inside(steps[1..]);
    }
  }

  lemma {:induction false} StepFineIff(step: Json, rules: Rules)
    ensures StepFine(step, rules) <==> forall s :: s in InsideStep(step) ==> FineAlone(s, rules)
    decreases step, 1
  {
    hide ActionFine, StepsFine, Inside;
    var inner := Field(step, "actions");
    if IsIf(step) && inner.Arr? {
      FineIffEachIs(inner.items, rules);
      assert StepFine(step, rules) <==> FineAlone(step, rules) && StepsFine(inner.items, rules);
      assert forall s :: s in InsideStep(step) <==> s == step || s in Inside(inner.items);
    } else {
      assert StepFine(step, rules) <==> FineAlone(step, rules);
      assert forall s :: s in InsideStep(step) <==> s == step;
    }
  }

  lemma {:induction false} InsideIsCounted(steps: seq<Json>)
    ensures |Inside(steps)| == Count(DecodeAll(steps))
    decreases steps, 0
  {
    hide InsideStep, CountStep, DecodeStep;
    if steps != [] {
      StepIsCounted(steps[0]);
      InsideIsCounted(steps[1..]);
      assert DecodeAll(steps)[1..] == DecodeAll(steps[1..]);
    }
  }

  lemma {:induction false} StepIsCounted(step: Json)
    ensures |InsideStep(step)| == CountStep(DecodeStep(step))
    decreases step, 1
  {
    hide Inside, Count, DecodeAll;
    NoActions();
    var inner := Field(step, "actions");
    if IsIf(step) && inner.Arr? { InsideIsCounted(inner.items); }
  }

  /** A filter of one of the four known types, its value of at most 500 characters. */
  ghost predicate FilterLimits(f: Json, rules: Rules) {
    var kind, value := Field(f, "type"), TextOf(Field(f, "value"));
    && f.Obj? && |value| <= 500
    && kind in {Str("regex"), Str("custom"), Str("keyword"), Str("role")}
    && (kind == Str("custom") ==> !rules.forbiddenCode(value))
    && (kind == Str("regex") ==> RegexFine(value, rules))
  }

  lemma FilterFineIff(f: Json, rules: Rules)
    ensures FilterFine(f, rules) <==> FilterLimits(f, rules)
  {
    hide Field, TextOf, RegexScan.ProperlyNested, RegexScan.Groups;
  }

  /** An action with a type, no payload text of more than 10 000 characters, no code of more than
      4000, no delay above five minutes, no webhook to a disallowed URL. */
  ghost predicate ActionLimits(s: Json, rules: Rules) {
    var kind, condition, payload := Field(s, "type"), Field(s, "condition"), Field(s, "payload");
    && s.Obj? && kind.Str? && kind != Str("")
    && (condition == Undefined || condition.Obj?)
    && (Field(condition, "operator") == Str("regex") ==> RegexFine(TextOf(Field(condition, "value")), rules))
    && (payload.Obj? ==> forall e :: e in payload.entries && e.value.Str? ==> |e.value.text| <= 10_000)
    && (kind == Str("if") ==> Field(s, "actions") == Undefined || Field(s, "actions").Arr?)
    && (kind == Str("custom") ==>
          var code := Field(payload, "code");
          code.Str? && |code.text| <= 4000 && !rules.forbiddenCode(code.text))
    && (kind == Str("delay") && Field(payload, "ms").Num? ==> Field(payload, "ms").number <= 300_000.0)
    && (kind == Str("webhook") ==>
          var url := Field(payload, "url");
          url.Str? && url.text != "" && rules.urlAllowed(url.text))
  }

  lemma FineAloneIff(s: Json, rules: Rules)
    ensures FineAlone(s, rules) <==> ActionLimits(s, rules)
  {
    hide RegexFine, FieldOf;
    assert PayloadFine(Field(s, "payload")) <==>
      (Field(s, "payload").Obj? ==> forall e :: e in Field(s, "payload").entries && e.value.Str? ==> |e.value.text| <= 10_000) by {
      PayloadFineIff(Field(s, "payload"));
    }
    hide PayloadFine;
  }

  lemma PayloadFineIff(payload: Json)
    ensures PayloadFine(payload) <==>
      (payload.Obj? ==> forall e :: e in payload.entries && e.value.Str? ==> |e.value.text| <= 10_000)
  {
  }

  /** What an accepted configuration keeps to: at most 20 filters; at most 200 actions, nested at
      most 5 deep; each of them within its own limits; and the three numbers in their ranges. */
  lemma AcceptableIff(config: Json, rules: Rules)
    ensures var filters, actions := Field(config, "filters"), Field(config, "actions");
      Acceptable(config, rules) <==>
      && config.Obj?
      && (filters.Arr? ==> |filters.items| <= 20 && forall f :: f in filters.items ==> FilterLimits(f, rules))
      && (actions == Undefined || actions.Arr?)
      && (actions.Arr? ==>
            && |Inside(actions.items)| <= 200 && Nesting(DecodeAll(actions.items)) <= 5
            && forall s :: s in Inside(actions.items) ==> ActionLimits(s, rules))
      && Between(Field(config, "cooldown"), 0, 86_400, rules)
      && Between(Field(config, "interval"), 1, 86_400, rules)
      && Between(Field(config, "maxExecutionMs"), 100, 600_000, rules)
  {
    hide Between, FilterFine, FilterLimits, ActionLimits, FineAlone, Inside, Nesting, DecodeAll, StepsFine, Count;
    var filters, actions := Field(config, "filters"), Field(config, "actions");
    forall f ensures FilterFine(f, rules) <==> FilterLimits(f, rules) { FilterFineIff(f, rules); }
    forall s ensures FineAlone(s, rules) <==> ActionLimits(s, rules) { FineAloneIff(s, rules); }
    if actions.Arr? {
      InsideIsCounted(actions.items);
      FineIffEachIs(actions.items, rules);
    }
  }

  lemma NoFiltersYet(rules: Rules)
    ensures AllFilterProblems([], rules) == []
  {
  }

  lemma NoEntriesYet(action: string)
    ensures PayloadProblems(action, []) == []
  {
  }

  /** The validator: the error list and the action counter are updated in place by the walk. */
  class Validation {
    var errors: seq<Problem>
    var n: nat

    constructor ()
      ensures errors == [] && n == 0
    {
      errors, n := [], 0;
    }

    ghost function Now(): Tally
      reads this
    {
      Tally(errors, n)
    }

    method CheckFilters(filters: Json, rules: Rules)
      modifies this
      ensures errors == old(errors) + FilterListProblems(filters, rules) && n == old(n)
    {
      hide FilterProblems, AllFilterProblems;
      NoFiltersYet(rules);
      if !filters.Arr? { return; }
      if |filters.items| > MAX_FILTERS { errors := errors + [TooManyFilters]; return; }
      for i := 0 to |filters.items|
        invariant errors == old(errors) + AllFilterProblems(filters.items[..i], rules) && n == old(n)
      {
        OneMoreFilter(filters.items, i, rules);
        CheckFilter(filters.items[i], rules);
      }
      assert filters.items[..|filters.items|] == filters.items;
    }

    method CheckFilter(filter: Json, rules: Rules)
      modifies this
      ensures errors == old(errors) + FilterProblems(filter, rules) && n == old(n)
    {
      if !filter.Obj? { errors := errors + [FilterNotObject]; return; }
      var value := TextOf(Field(filter, "value"));
      match Field(filter, "type")
      case Str("regex") =>
        var problem := CheckRegex(value, rules);
        if problem.Some? { errors := errors + [FilterRegex(problem.value)]; }
      case Str("custom") =>
        var problem := CheckCode(value, MAX_CUSTOM_EXPRESSION, rules);
        if problem.Some? { errors := errors + [FilterCode(problem.value)]; }
      case Str("keyword") =>
        if |value| > MAX_FILTER_VALUE { errors := errors + [FilterValueTooLong]; }
      case Str("role") =>
        if |value| > MAX_FILTER_VALUE { errors := errors + [FilterValueTooLong]; }
      case _ => errors := errors + [FilterTypeUnsupported];
    }

    method CheckCondition(condition: Json, rules: Rules)
      modifies this
      ensures errors == old(errors) + ConditionProblems(condition, rules) && n == old(n)
    {
      if condition == Undefined { return; }
      if !condition.Obj? { errors := errors + [ConditionNotObject]; return; }
      if Field(condition, "operator") == Str("regex") {
        var problem := CheckRegex(TextOf(Field(condition, "value")), rules);
        if problem.Some? { errors := errors + [ConditionRegex(problem.value)]; }
      }
    }

    method CheckPayloadStrings(entries: seq<Entry>, action: string)
      modifies this
      ensures errors == old(errors) + PayloadProblems(action, entries) && n == old(n)
    {
      hide PayloadProblems;
      NoEntriesYet(action);
      for i := 0 to |entries|
        invariant errors == old(errors) + PayloadProblems(action, entries[..i]) && n == old(n)
      {
        OneMoreEntry(action, entries, i);
        if entries[i].value.Str? && |entries[i].value.text| > MAX_PAYLOAD_STRING {
          errors := errors + [PayloadStringTooLong(action, entries[i].key)];
        }
      }
      assert entries[..|entries|] == entries;
    }

    method WalkOne(step: Json, depth: nat, rules: Rules)
      modifies this
      ensures Now() == WalkStep(step, depth, old(Now()), rules)
      decreases step, 1
    {
      hide ConditionProblems, PayloadProblems, KindProblems, WalkActions, Field, TextOf;
      if !step.Obj? { errors := errors + [ActionNotObject]; return; }
      var kind, payload := TextOf(Field(step, "type")), Field(step, "payload");
      if kind == "" { errors := errors + [ActionNeedsType]; return; }
      CheckCondition(Field(step, "condition"), rules);
      if payload.Obj? { CheckPayloadStrings(payload.entries, kind); }
      errors := errors + KindProblems(step, rules);
      ghost var t1 := old(Now()).(errors := old(errors) + ActionProblems(step, rules));
      assert Now() == t1;
      if IsIf(step) {
        if depth + 1 > MAX_NESTING { errors := errors + [NestingTooDeep]; }
        assert Now() == t1.(errors := t1.errors + if depth + 1 > MAX_NESTING then [NestingTooDeep] else []);
        var inner := Field(step, "actions");
        if inner != Undefined { Walk(inner, depth + 1, rules); }
      }
    }

    method Walk(actions: Json, depth: nat, rules: Rules)
      modifies this
      ensures Now() == WalkActions(actions, depth, old(Now()), rules)
      decreases actions, 0
    {
      hide WalkStep;
      if !actions.Arr? {
        if actions != Undefined { errors := errors + [ActionsNotArray]; }
        return;
      }
      ghost var steps, before := actions.items, Now();
      for i := 0 to |actions.items|
        invariant WalkSteps(steps, depth, before, rules) == WalkSteps(steps[i..], depth, Now(), rules)
      {
        var step := actions.items[i];
        assert steps[i..][0] == step && steps[i..][1..] == steps[i + 1..];
        n := n + 1;
        if n > MAX_ACTIONS { errors := errors + [TooManyActions]; return; }
        WalkOne(step, depth, rules);
      }
    }
  }

  method ValidateScriptConfig(config: Json, rules: Rules) returns (errors: seq<Problem>)
    ensures errors == Problems(config, rules)
    ensures errors == [] <==> Acceptable(config, rules)
  {
    hide Acceptable, FilterListProblems, OutOfRange, WalkActions, Field;
    NoProblemsIffAcceptable(config, rules);
    if !config.Obj? { return [ConfigNotObject]; }
    var v := new Validation();
    v.CheckFilters(Field(config, "filters"), rules);
    assert v.Now() == Tally(FilterListProblems(Field(config, "filters"), rules), 0);
    v.Walk(Field(config, "actions"), 0, rules);
    errors := v.errors;
    ghost var walked := errors;
    if OutOfRange(Field(config, "cooldown"), 0, 86_400, rules) { errors := errors + [CooldownRange]; }
    if OutOfRange(Field(config, "interval"), 1, 86_400, rules) { errors := errors + [IntervalRange]; }
    if OutOfRange(Field(config, "maxExecutionMs"), 100, MAX_EXECUTION_MS, rules) { errors := errors + [ExecutionRange]; }
    assert errors == walked + RangeProblems(config, rules);
  }
}
