/**
 * The step-by-step monitor configuration wizard (ui/config_wizard.py): the
 * step table with its validation rules and transitions, the validation of
 * one step's form data, the choice of the next step, field visibility, the
 * progress counter, the sessions the wizard keeps, and the monitor type an
 * edit key is read as.
 */
module ConfigWizard {
  import opened Wrappers
  import opened PyStr
  import opened Config
  import opened EngineOrder

  /** The members of `WizardStepType`, in declaration order. */
  datatype StepType =
    | AccountSetup
    | MonitorType
    | KeywordStep
    | FileStep
    | AiStep
    | ButtonStep
    | AllMessagesStep
    | NotificationStep
    | ForwardStep
    | ReplyStep
    | FilterStep
    | AdvancedStep
    | ReviewStep

  /** A form value as the web layer hands it over. */
  datatype Value = Null | Bool(b: bool) | Int(i: int) | Str(s: string)

  /** `data.get(key)`: None when the key is absent. */
  function Get(d: map<string, Value>, key: string): Value
  {
    if key in d then d[key] else Null
  }

  /** Python truthiness. */
  predicate Truthy(v: Value)
  {
    match v
    case Null => false
    case Bool(b) => b
    case Int(i) => i != 0
    case Str(s) => s != ""
  }

  /** Python `==` on these values: `True == 1` and `False == 0`. */
  predicate PyEq(a: Value, b: Value)
  {
    a == b
    || (a.Bool? && b.Int? && b.i == (if a.b then 1 else 0))
    || (a.Int? && b.Bool? && a.i == (if b.b then 1 else 0))
  }

  /** `v in (True, "on", "true", "1")`, which also admits the integer 1. */
  predicate IsOn(v: Value)
  {
    PyEq(v, Bool(true)) || v == Str("on") || v == Str("true") || v == Str("1")
  }

  /** `len(str(v))` for a truthy value. */
  function ShownLength(v: Value): nat
  {
    match v
    case Null => 4
    case Bool(b) => if b then 4 else 5
    case Int(i) => |IntToString(i)|
    case Str(s) => |s|
  }

  /** One `key: value` entry of a `required_if` or `conditional` dictionary. */
  datatype Cond = Cond(key: string, expected: Value)

  /** One entry of `validation_rules`; the message texts are not modelled. */
  datatype Rule = Rule(field: string, required: bool, requiredIf: Option<seq<Cond>>, minLength: Option<nat>)

  function Req(field: string): Rule { Rule(field, true, None, None) }

  function ReqIf(field: string, conds: seq<Cond>): Rule { Rule(field, false, Some(conds), None) }

  /** The parts of a `WizardStep` that drive the flow; titles and field layouts are not modelled. */
  datatype Step = Step(rules: seq<Rule>, next: Option<StepType>, routes: map<string, StepType>)

  /** The `validation_rules` of each step, in dictionary order. */
  function RulesOf(t: StepType): seq<Rule>
  {
    match t
    case AccountSetup => [Req("account_id")]
    case MonitorType => [Req("monitor_type")]
    case KeywordStep => [Rule("keyword", true, None, Some(1)), Req("match_type"), Req("chats")]
    case FileStep => [Req("file_extension"), Req("chats"), ReqIf("save_folder", [Cond("save_files", Bool(true))])]
    case AiStep => [Rule("ai_prompt", true, None, Some(10)), Req("chats")]
    case ButtonStep =>
      [Req("monitor_subtype"),
       ReqIf("button_keyword", [Cond("monitor_subtype", Str("button_only"))]),
       ReqIf("mode", [Cond("monitor_subtype", Str("button_only"))]),
       Req("chats"),
       ReqIf("ai_prompt", [Cond("mode", Str("ai"))]),
       ReqIf("image_ai_prompt", [Cond("monitor_subtype", Str("image_button"))])]
    case AllMessagesStep => [Req("chat_id")]
    case NotificationStep => [ReqIf("email_addresses", [Cond("email_notify", Bool(true))])]
    case ForwardStep => [Req("forward_targets")]
    case ReviewStep => [Req("confirm")]
    case _ => []
  }

  /** The `next_step` of each step. */
  function FixedNext(t: StepType): Option<StepType>
  {
    match t
    case AccountSetup => Some(MonitorType)
    case KeywordStep => Some(NotificationStep)
    case FileStep => Some(NotificationStep)
    case AiStep => Some(NotificationStep)
    case ButtonStep => Some(NotificationStep)
    case AllMessagesStep => Some(NotificationStep)
    case NotificationStep => Some(FilterStep)
    case ForwardStep => Some(FilterStep)
    case FilterStep => Some(AdvancedStep)
    case AdvancedStep => Some(ReviewStep)
    case _ => None
  }

  /** The `conditional_next` of each step; empty where the step has none. */
  function RoutesOf(t: StepType): map<string, StepType>
  {
    if t == MonitorType then
      map["keyword" := KeywordStep, "file" := FileStep, "button" := ButtonStep,
          "all_messages" := AllMessagesStep, "ai" := AiStep]
    else if t == NotificationStep then map["auto_forward" := ForwardStep]
    else map[]
  }

  /** The step table built in `_initialize_steps`; REPLY_CONFIG has no entry. */
  function StepOf(t: StepType): (r: Option<Step>)
    ensures r.None? <==> t == ReplyStep
    ensures r.Some? && r.value.next.Some? ==> Rank(r.value.next.value) > Rank(t)
  {
    if t == ReplyStep then None else Some(Step(RulesOf(t), FixedNext(t), RoutesOf(t)))
  }

  predicate InTable(t: StepType)
  {
    StepOf(t).Some?
  }

  /** `len(self.steps)`: the step table has twelve entries. */
  const StepCount: nat := 12

  /** Every step type has an entry except REPLY_CONFIG, so the table has 13 - 1 entries. */
  lemma OnlyReplyConfigMissing(t: StepType)
    ensures !InTable(t) <==> t == ReplyStep
  {
  }

  // ---------------------------------------------------------------------
  // `_validate_step_data`
  // ---------------------------------------------------------------------

  /** How one field failed validation. */
  datatype ErrorKind = Missing | MissingWhen | TooShort(min: nat)

  datatype FieldError = FieldError(field: string, kind: ErrorKind)

  /** One `required_if` entry: a `True` asks for a truthy-looking value, anything else for equality. */
  predicate CondRequires(c: Cond, d: map<string, Value>)
  {
    if c.expected == Bool(true) then IsOn(Get(d, c.key)) else PyEq(Get(d, c.key), c.expected)
  }

  /** `all(...)` over a `required_if` dictionary. */
  predicate RequiredIfHolds(conds: seq<Cond>, d: map<string, Value>)
  {
    forall k :: 0 <= k < |conds| ==> CondRequires(conds[k], d)
  }

  /** What a field must satisfy for its rule, stated without the order of the checks. */
  predicate RulePasses(r: Rule, d: map<string, Value>)
  {
    var v := Get(d, r.field);
    (r.required ==> Truthy(v))
    && (r.requiredIf.Some? && RequiredIfHolds(r.requiredIf.value, d) ==> Truthy(v))
    && (Truthy(v) && r.minLength.Some? ==> ShownLength(v) >= r.minLength.value)
  }

  /** The errors one rule adds: at most one, and none exactly when the field passes. */
  function RuleErrors(r: Rule, d: map<string, Value>): (es: seq<FieldError>)
    ensures |es| <= 1
    ensures es == [] <==> RulePasses(r, d)
    ensures r.required && !Truthy(Get(d, r.field)) ==> es == [FieldError(r.field, Missing)]
    ensures forall k :: 0 <= k < |es| ==> es[k].field == r.field
  {
    var v := Get(d, r.field);
    if r.required && !Truthy(v) then [FieldError(r.field, Missing)]
    else if r.requiredIf.Some? && RequiredIfHolds(r.requiredIf.value, d) && !Truthy(v) then [FieldError(r.field, MissingWhen)]
    else if Truthy(v) && r.minLength.Some? && ShownLength(v) < r.minLength.value then [FieldError(r.field, TooShort(r.minLength.value))]
    else []
  }

  /** The error list of a step, rule by rule in table order. */
  function ErrorsOf(rules: seq<Rule>, d: map<string, Value>): (es: seq<FieldError>)
    ensures |es| <= |rules|
  {
    if rules == [] then [] else ErrorsOf(rules[..|rules| - 1], d) + RuleErrors(rules[|rules| - 1], d)
  }

  /** A step accepts its data exactly when every one of its rules passes. */
  lemma {:induction false} ErrorsFreeIff(rules: seq<Rule>, d: map<string, Value>)
    ensures ErrorsOf(rules, d) == [] <==> forall k :: 0 <= k < |rules| ==> RulePasses(rules[k], d)
  {
    if rules != [] {
      var init := rules[..|rules| - 1];
      var last := rules[|rules| - 1];
      var before := ErrorsOf(init, d);
      var added := RuleErrors(last, d);
      ErrorsFreeIff(init, d);
      assert ErrorsOf(rules, d) == before + added;
      if ErrorsOf(rules, d) == [] {
        assert |before| == 0 && |added| == 0;
        forall k | 0 <= k < |rules|
          ensures RulePasses(rules[k], d)
        {
          if k < |init| {
            assert rules[k] == init[k];
          }
        }
      }
      if forall k :: 0 <= k < |rules| ==> RulePasses(rules[k], d) {
        forall k | 0 <= k < |init|
          ensures RulePasses(init[k], d)
        {
          assert init[k] == rules[k];
        }
        assert RulePasses(last, d);
        assert before == [] && added == [];
      }
    }
  }

  /** `_validate_step_data`: walks the rules in order and collects the errors. */
  method ValidateStepData(rules: seq<Rule>, d: map<string, Value>) returns (errors: seq<FieldError>)
    ensures errors == ErrorsOf(rules, d)
  {
    errors := [];
    if rules == [] {
      return;
    }
    var i := 0;
    while i < |rules|
      invariant 0 <= i <= |rules|
      invariant errors == ErrorsOf(rules[..i], d)
    {
      assert rules[..i + 1][..i] == rules[..i];
      errors := errors + RuleErrors(rules[i], d);
      i := i + 1;
    }
    assert rules[..|rules|] == rules;
  }

  /** The filter and advanced steps have no rules and accept any data. */
  lemma RulelessStepsAcceptAll(d: map<string, Value>)
    ensures ErrorsOf(StepOf(FilterStep).value.rules, d) == []
    ensures ErrorsOf(StepOf(AdvancedStep).value.rules, d) == []
  {
  }

  /** An AI prompt shorter than ten characters is refused, and nothing else is reported when the chats are given. */
  lemma ShortAiPromptRefused(d: map<string, Value>, prompt: string)
    requires Get(d, "ai_prompt") == Str(prompt) && 0 < |prompt| < 10
    requires Truthy(Get(d, "chats"))
    ensures ErrorsOf(StepOf(AiStep).value.rules, d) == [FieldError("ai_prompt", TooShort(10))]
  {
    var rules := StepOf(AiStep).value.rules;
    assert rules[..1] == [Rule("ai_prompt", true, None, Some(10))];
    assert ErrorsOf(rules[..1], d) == [FieldError("ai_prompt", TooShort(10))];
  }

  /** The errors of the first rules come first in the errors of all of them. */
  lemma {:induction false} ErrorsOfPrefix(rules: seq<Rule>, n: nat, d: map<string, Value>)
    requires n <= |rules|
    ensures ErrorsOf(rules[..n], d) <= ErrorsOf(rules, d)
    decreases |rules| - n
  {
    if n == |rules| {
      assert rules[..n] == rules;
    } else {
      var init := rules[..|rules| - 1];
      ErrorsOfPrefix(init, n, d);
      assert init[..n] == rules[..n];
    }
  }

  /** Every error one rule reports is among the errors of its step. */
  lemma RuleErrorsReported(rules: seq<Rule>, k: nat, d: map<string, Value>)
    requires k < |rules|
    ensures forall e :: e in RuleErrors(rules[k], d) ==> e in ErrorsOf(rules, d)
  {
    ErrorsOfPrefix(rules, k + 1, d);
    assert rules[..k + 1][..k] == rules[..k];
  }

  /** A plain button monitor without a button keyword is refused with the keyword named. */
  lemma ButtonOnlyNeedsKeyword(d: map<string, Value>)
    requires Get(d, "monitor_subtype") == Str("button_only")
    requires !Truthy(Get(d, "button_keyword"))
    ensures FieldError("button_keyword", MissingWhen) in ErrorsOf(StepOf(ButtonStep).value.rules, d)
  {
    var rules := StepOf(ButtonStep).value.rules;
    assert RequiredIfHolds(rules[1].requiredIf.value, d);
    assert RuleErrors(rules[1], d) == [FieldError("button_keyword", MissingWhen)];
    RuleErrorsReported(rules, 1, d);
  }

  // ---------------------------------------------------------------------
  // `_get_next_step` and the shape of the step graph
  // ---------------------------------------------------------------------

  /**
   * `_get_next_step`: with a routing table, a known `monitor_type` in the
   * submitted data wins, then a truthy-looking `auto_forward` when the table
   * routes it; otherwise the step's fixed successor.
   */
  function NextStep(step: Step, d: map<string, Value>): (r: Option<StepType>)
    ensures |step.routes| == 0 ==> r == step.next
    ensures r == step.next || exists key :: key in step.routes && r == Some(step.routes[key])
    ensures "monitor_type" !in d && "auto_forward" !in d ==> r == step.next
  {
    if |step.routes| > 0 && "monitor_type" in d && d["monitor_type"].Str? && d["monitor_type"].s in step.routes then
      Some(step.routes[d["monitor_type"].s])
    else if |step.routes| > 0 && "auto_forward" in d && IsOn(d["auto_forward"]) && "auto_forward" in step.routes then
      Some(step.routes["auto_forward"])
    else step.next
  }

  /** The position of a step on the way from the account choice to the review. */
  function Rank(t: StepType): nat
  {
    match t
    case AccountSetup => 0
    case MonitorType => 1
    case KeywordStep => 2
    case FileStep => 2
    case AiStep => 2
    case ButtonStep => 2
    case AllMessagesStep => 2
    case NotificationStep => 3
    case ForwardStep => 4
    case FilterStep => 5
    case AdvancedStep => 6
    case ReviewStep => 7
    case ReplyStep => 8
  }

  /** Every table step ranks at most 7. */
  lemma TableRanks(t: StepType)
    requires InTable(t)
    ensures Rank(t) <= 7
  {
  }

  /**
   * Whatever the submitted data, a step's successor is again in the table and
   * lies strictly further along: the wizard never loops and never reaches
   * REPLY_CONFIG.
   */
  lemma NextStepAdvances(t: StepType, d: map<string, Value>)
    requires InTable(t)
    ensures NextStep(StepOf(t).value, d).Some? ==>
              InTable(NextStep(StepOf(t).value, d).value) && Rank(NextStep(StepOf(t).value, d).value) > Rank(t)
  {
    var step := StepOf(t).value;
    NextIsFixedOrRouted(step, d);
    FixedNextAdvances(t);
    if NextStep(step, d) != step.next {
      var key :| key in step.routes && NextStep(step, d) == Some(step.routes[key]);
      RoutesAdvance(t, key);
    }
  }

  /** The next step is the fixed successor or one of the routing targets. */
  lemma NextIsFixedOrRouted(step: Step, d: map<string, Value>)
    ensures NextStep(step, d) == step.next || exists key :: key in step.routes && NextStep(step, d) == Some(step.routes[key])
  {
  }

  /** Each fixed successor is in the table and further along. */
  lemma FixedNextAdvances(t: StepType)
    ensures FixedNext(t).Some? ==> InTable(FixedNext(t).value) && Rank(FixedNext(t).value) > Rank(t)
  {
  }

  /** Each routing target is in the table and further along. */
  lemma RoutesAdvance(t: StepType, key: string)
    requires key in RoutesOf(t)
    ensures InTable(RoutesOf(t)[key]) && Rank(RoutesOf(t)[key]) > Rank(t)
  {
    if t == MonitorType {
      assert key == "keyword" || key == "file" || key == "button" || key == "all_messages" || key == "ai";
    }
  }

  /** The review step is the last one: after it the configuration is completed. */
  lemma ReviewIsLast(d: map<string, Value>)
    ensures NextStep(StepOf(ReviewStep).value, d) == None
  {
  }

  /**
   * The type step routes each offered type to its own step and completes the
   * wizard for anything else, since it has no fixed successor.
   */
  lemma MonitorTypeRoutes(d: map<string, Value>)
    ensures Get(d, "monitor_type") == Str("keyword") ==> NextStep(StepOf(MonitorType).value, d) == Some(KeywordStep)
    ensures Get(d, "monitor_type") == Str("file") ==> NextStep(StepOf(MonitorType).value, d) == Some(FileStep)
    ensures Get(d, "monitor_type") == Str("button") ==> NextStep(StepOf(MonitorType).value, d) == Some(ButtonStep)
    ensures Get(d, "monitor_type") == Str("all_messages") ==> NextStep(StepOf(MonitorType).value, d) == Some(AllMessagesStep)
    ensures Get(d, "monitor_type") == Str("ai") ==> NextStep(StepOf(MonitorType).value, d) == Some(AiStep)
    ensures !(Get(d, "monitor_type").Str? && Get(d, "monitor_type").s in {"keyword", "file", "button", "all_messages", "ai"}) ==>
              NextStep(StepOf(MonitorType).value, d) == None
  {
    var routes := StepOf(MonitorType).value.routes;
    assert routes.Keys == {"keyword", "file", "button", "all_messages", "ai"};
  }

  /** The notification step goes to the forwarding step exactly when `auto_forward` looks true. */
  lemma ForwardOnlyWhenAsked(d: map<string, Value>)
    requires "monitor_type" !in d
    ensures NextStep(StepOf(NotificationStep).value, d) ==
              (if "auto_forward" in d && IsOn(d["auto_forward"]) then Some(ForwardStep) else Some(FilterStep))
  {
  }

  // ---------------------------------------------------------------------
  // `_process_dynamic_fields`: field visibility
  // ---------------------------------------------------------------------

  /** One entry of a field's `conditional`: `True` and `False` test truthy-looking values, others equality. */
  predicate CondShows(c: Cond, collected: map<string, Value>)
    ensures c.key !in collected && c.expected == Bool(true) ==> !CondShows(c, collected)
    ensures c.key !in collected && c.expected == Bool(false) ==> CondShows(c, collected)
  {
    if c.expected == Bool(true) then IsOn(Get(collected, c.key))
    else if c.expected == Bool(false) then !IsOn(Get(collected, c.key))
    else PyEq(Get(collected, c.key), c.expected)
  }

  /** A field is shown when every entry of its condition holds; a field without one is always shown. */
  predicate Shown(conds: seq<Cond>, collected: map<string, Value>)
  {
    forall k :: 0 <= k < |conds| ==> CondShows(conds[k], collected)
  }

  /** The visibility loop: stops at the first entry that fails. */
  method FieldShown(conds: seq<Cond>, collected: map<string, Value>) returns (show: bool)
    ensures show <==> Shown(conds, collected)
  {
    show := true;
    var i := 0;
    while i < |conds|
      invariant 0 <= i <= |conds|
      invariant show && forall k :: 0 <= k < i ==> CondShows(conds[k], collected)
    {
      show := CondShows(conds[i], collected);
      if !show {
        break;
      }
      i := i + 1;
    }
  }

  /**
   * `required_if` and `conditional` read `False` differently: for the first
   * an absent key is not equal to `False`, for the second it counts as off.
   */
  lemma FalseConditionsDiffer(key: string, d: map<string, Value>)
    requires key !in d
    ensures !CondRequires(Cond(key, Bool(false)), d)
    ensures CondShows(Cond(key, Bool(false)), d)
  {
  }

  // ---------------------------------------------------------------------
  // Edit mode: the monitor type read from an edit key
  // ---------------------------------------------------------------------

  /** `type_mapping.get(config['monitor_type'], 'keyword')`, or 'keyword' when the key is absent. */
  function MappedType(configType: Option<Value>): string
  {
    match configType
    case Some(Str("KeywordMonitor")) => "keyword"
    case Some(Str("FileMonitor")) => "file"
    case Some(Str("AIMonitor")) => "ai"
    case Some(Str("ButtonMonitor")) => "button"
    case Some(Str("ImageButtonMonitor")) => "image_button"
    case Some(Str("AllMessagesMonitor")) => "all_messages"
    case _ => "keyword"
  }

  /**
   * The `monitor_type` (and `monitor_subtype`) `_config_to_wizard_data`
   * derives, in the order the code tests them. The plain-button test comes
   * before the image-button test, and every image-button key contains
   * "ButtonMonitor", so the image-button branch is never taken for the
   * engine's keys.
   */
  function EditKeyTypeAsWritten(editKey: string, configType: Option<Value>): (r: (string, Option<string>))
    ensures r.0 in {"keyword", "file", "ai", "button", "image_button", "all_messages"}
    ensures r.1.Some? ==> r == ("button", Some("image_button"))
    ensures r.1.Some? ==> !Contains(editKey, "ButtonMonitor") && !StartsWith(editKey, "button_")
  {
    if Contains(editKey, "KeywordMonitor") || StartsWith(editKey, "keyword_") then ("keyword", None)
    else if Contains(editKey, "FileMonitor") || StartsWith(editKey, "file_") then ("file", None)
    else if Contains(editKey, "AIMonitor") || StartsWith(editKey, "ai_") then ("ai", None)
    else if Contains(editKey, "ButtonMonitor") || StartsWith(editKey, "button_") then ("button", None)
    else if Contains(editKey, "ImageButtonMonitor") || StartsWith(editKey, "image_button_") then ("button", Some("image_button"))
    else if Contains(editKey, "AllMessagesMonitor") || StartsWith(editKey, "all_messages_") then ("all_messages", None)
    else (MappedType(configType), None)
  }

  /** The same chain with the image-button test ahead of the plain-button test. */
  function EditKeyType(editKey: string, configType: Option<Value>): (r: (string, Option<string>))
    ensures r.0 in {"keyword", "file", "ai", "button", "image_button", "all_messages"}
    ensures r.1.Some? ==> r == ("button", Some("image_button"))
    ensures r.1.None? && r.0 == "button" ==> !Contains(editKey, "ImageButtonMonitor") && !StartsWith(editKey, "image_button_")
  {
    if Contains(editKey, "KeywordMonitor") || StartsWith(editKey, "keyword_") then ("keyword", None)
    else if Contains(editKey, "FileMonitor") || StartsWith(editKey, "file_") then ("file", None)
    else if Contains(editKey, "AIMonitor") || StartsWith(editKey, "ai_") then ("ai", None)
    else if Contains(editKey, "ImageButtonMonitor") || StartsWith(editKey, "image_button_") then ("button", Some("image_button"))
    else if Contains(editKey, "ButtonMonitor") || StartsWith(editKey, "button_") then ("button", None)
    else if Contains(editKey, "AllMessagesMonitor") || StartsWith(editKey, "all_messages_") then ("all_messages", None)
    else (MappedType(configType), None)
  }

  /** The wizard type (and subtype) that describes a monitor class. */
  function WizardTypeOf(c: TypedConfig): (string, Option<string>)
  {
    match c
    case KeywordCfg(_) => ("keyword", None)
    case FileCfg(_) => ("file", None)
    case ButtonCfg(_) => ("button", None)
    case AllMessagesCfg(_) => ("all_messages", None)
    case ImageButtonCfg(_) => ("button", Some("image_button"))
    case AIMonitorCfg(_) => ("ai", None)
  }

  lemma AbsentCharNotContained(s: string, sub: string, ch: char)
    requires ch in sub && ch !in s
    ensures !Contains(s, sub)
  {
  }

  lemma ContainsInfix(p: string, sub: string, q: string)
    ensures Contains(p + sub + q, sub)
  {
    var s := p + sub + q;
    assert s[|p|..][..|sub|] == sub;
  }

  /** The key `f"{name}_{i}"`. */
  function Suffixed(name: string, i: nat): string
  {
    name + "_" + IntToString(i)
  }

  /**
   * An upper-case letter missing from a class name is missing from its keys,
   * so no class name with that letter occurs in them.
   */
  lemma NotInKey(name: string, i: nat, sub: string, ch: char)
    requires 'A' <= ch <= 'Z' && ch in sub && ch !in name
    ensures !Contains(Suffixed(name, i), sub)
  {
    var digits := IntToString(i);
    assert forall k :: 0 <= k < |digits| ==> digits[k] != ch;
    assert ch !in Suffixed(name, i);
    AbsentCharNotContained(Suffixed(name, i), sub, ch);
  }

  /** A key that starts with an upper-case letter matches none of the lower-case prefixes. */
  lemma KeyPrefixes(name: string, i: nat)
    requires name != [] && 'A' <= name[0] <= 'Z'
    ensures !StartsWith(Suffixed(name, i), "keyword_") && !StartsWith(Suffixed(name, i), "file_")
    ensures !StartsWith(Suffixed(name, i), "ai_") && !StartsWith(Suffixed(name, i), "button_")
    ensures !StartsWith(Suffixed(name, i), "image_button_") && !StartsWith(Suffixed(name, i), "all_messages_")
  {
    assert Suffixed(name, i)[0] == name[0];
  }

  /** A key contains its own class name. */
  lemma KeyHasName(name: string, i: nat)
    ensures Contains(Suffixed(name, i), name)
  {
    ContainsInfix("", name, "_" + IntToString(i));
    assert "" + name + ("_" + IntToString(i)) == Suffixed(name, i);
  }

  /** The letters the class names are told apart by. */
  lemma FileLetters()
    ensures 'K' !in "FileMonitor" && 'F' in "FileMonitor"
  {
  }

  lemma AiLetters()
    ensures 'K' !in "AIMonitor" && 'F' !in "AIMonitor" && 'A' in "AIMonitor" && 'I' in "AIMonitor"
  {
  }

  lemma ButtonLetters()
    ensures 'K' !in "ButtonMonitor" && 'F' !in "ButtonMonitor"
    ensures 'A' !in "ButtonMonitor" && 'I' !in "ButtonMonitor" && 'B' in "ButtonMonitor"
  {
  }

  lemma ImageButtonLetters()
    ensures 'K' !in "ImageButtonMonitor" && 'F' !in "ImageButtonMonitor" && 'A' !in "ImageButtonMonitor"
    ensures 'I' in "ImageButtonMonitor"
  {
  }

  lemma AllMessagesLetters()
    ensures 'K' !in "AllMessagesMonitor" && 'F' !in "AllMessagesMonitor"
    ensures 'I' !in "AllMessagesMonitor" && 'B' !in "AllMessagesMonitor"
    ensures 'K' in "KeywordMonitor"
  {
  }

  /** What the tests of the edit-key chain see in each engine key. */
  lemma KeyFacts(i: nat)
    ensures Contains(Suffixed("KeywordMonitor", i), "KeywordMonitor")
    ensures Contains(Suffixed("FileMonitor", i), "FileMonitor")
      && !Contains(Suffixed("FileMonitor", i), "KeywordMonitor")
    ensures Contains(Suffixed("AIMonitor", i), "AIMonitor")
      && !Contains(Suffixed("AIMonitor", i), "KeywordMonitor") && !Contains(Suffixed("AIMonitor", i), "FileMonitor")
    ensures Contains(Suffixed("ButtonMonitor", i), "ButtonMonitor")
      && !Contains(Suffixed("ButtonMonitor", i), "KeywordMonitor") && !Contains(Suffixed("ButtonMonitor", i), "FileMonitor")
      && !Contains(Suffixed("ButtonMonitor", i), "AIMonitor") && !Contains(Suffixed("ButtonMonitor", i), "ImageButtonMonitor")
    ensures Contains(Suffixed("ImageButtonMonitor", i), "ImageButtonMonitor")
      && !Contains(Suffixed("ImageButtonMonitor", i), "KeywordMonitor")
      && !Contains(Suffixed("ImageButtonMonitor", i), "FileMonitor")
      && !Contains(Suffixed("ImageButtonMonitor", i), "AIMonitor")
    ensures Contains(Suffixed("AllMessagesMonitor", i), "AllMessagesMonitor")
      && !Contains(Suffixed("AllMessagesMonitor", i), "KeywordMonitor")
      && !Contains(Suffixed("AllMessagesMonitor", i), "FileMonitor")
      && !Contains(Suffixed("AllMessagesMonitor", i), "AIMonitor")
      && !Contains(Suffixed("AllMessagesMonitor", i), "ImageButtonMonitor")
      && !Contains(Suffixed("AllMessagesMonitor", i), "ButtonMonitor")
  {
    FileLetters();
    AiLetters();
    ButtonLetters();
    ImageButtonLetters();
    AllMessagesLetters();
    KeyHasName("KeywordMonitor", i);
    KeyHasName("FileMonitor", i);
    KeyHasName("AIMonitor", i);
    KeyHasName("ButtonMonitor", i);
    KeyHasName("ImageButtonMonitor", i);
    KeyHasName("AllMessagesMonitor", i);
    NotInKey("FileMonitor", i, "KeywordMonitor", 'K');
    NotInKey("AIMonitor", i, "KeywordMonitor", 'K');
    NotInKey("AIMonitor", i, "FileMonitor", 'F');
    NotInKey("ButtonMonitor", i, "KeywordMonitor", 'K');
    NotInKey("ButtonMonitor", i, "FileMonitor", 'F');
    NotInKey("ButtonMonitor", i, "AIMonitor", 'A');
    NotInKey("ButtonMonitor", i, "ImageButtonMonitor", 'I');
    NotInKey("ImageButtonMonitor", i, "KeywordMonitor", 'K');
    NotInKey("ImageButtonMonitor", i, "FileMonitor", 'F');
    NotInKey("ImageButtonMonitor", i, "AIMonitor", 'A');
    NotInKey("AllMessagesMonitor", i, "KeywordMonitor", 'K');
    NotInKey("AllMessagesMonitor", i, "FileMonitor", 'F');
    NotInKey("AllMessagesMonitor", i, "AIMonitor", 'I');
    NotInKey("AllMessagesMonitor", i, "ImageButtonMonitor", 'I');
    NotInKey("AllMessagesMonitor", i, "ButtonMonitor", 'B');
  }

  /** Every image-button key contains "ButtonMonitor". */
  lemma ImageKeyHasButton(i: nat)
    ensures Contains(Suffixed("ImageButtonMonitor", i), "ButtonMonitor")
  {
    var rest := "_" + IntToString(i);
    assert "ImageButtonMonitor" == "Image" + "ButtonMonitor";
    assert Suffixed("ImageButtonMonitor", i) == "Image" + "ButtonMonitor" + rest;
    ContainsInfix("Image", "ButtonMonitor", rest);
  }

  /** The prefix tests fail on every engine key. */
  lemma AllKeyPrefixes(c: TypedConfig, i: nat)
    ensures MonitorKey(c, i) == Suffixed(ClassName(c), i)
    ensures !StartsWith(MonitorKey(c, i), "keyword_") && !StartsWith(MonitorKey(c, i), "file_")
    ensures !StartsWith(MonitorKey(c, i), "ai_") && !StartsWith(MonitorKey(c, i), "button_")
    ensures !StartsWith(MonitorKey(c, i), "image_button_") && !StartsWith(MonitorKey(c, i), "all_messages_")
  {
    KeyPrefixes(ClassName(c), i);
  }

  /**
   * As written, the key of an image-button monitor is read as a plain button
   * monitor, so the subtype is lost when such a monitor is edited; the
   * corrected order reads it as an image-button monitor.
   */
  lemma ImageButtonKeyReadAsButton(c: TypedConfig, i: nat, configType: Option<Value>)
    requires c.ImageButtonCfg?
    ensures EditKeyTypeAsWritten(MonitorKey(c, i), configType) == ("button", None)
    ensures EditKeyType(MonitorKey(c, i), configType) == ("button", Some("image_button"))
  {
    var k := MonitorKey(c, i);
    assert k == Suffixed("ImageButtonMonitor", i) && !StartsWith(k, "keyword_") && !StartsWith(k, "file_")
      && !StartsWith(k, "ai_") && !StartsWith(k, "button_") && !StartsWith(k, "image_button_") by {
      AllKeyPrefixes(c, i);
    }
    assert !Contains(k, "KeywordMonitor") && !Contains(k, "FileMonitor") && !Contains(k, "AIMonitor")
      && Contains(k, "ImageButtonMonitor") && Contains(k, "ButtonMonitor") by {
      KeyFacts(i);
      ImageKeyHasButton(i);
    }
    ReadImageKey(k, configType);
  }

  /** How both chains read a key that names the image-button class and no earlier one. */
  lemma ReadImageKey(k: string, configType: Option<Value>)
    requires !StartsWith(k, "keyword_") && !StartsWith(k, "file_") && !StartsWith(k, "ai_")
    requires !StartsWith(k, "button_") && !StartsWith(k, "image_button_")
    requires !Contains(k, "KeywordMonitor") && !Contains(k, "FileMonitor") && !Contains(k, "AIMonitor")
    requires Contains(k, "ImageButtonMonitor") && Contains(k, "ButtonMonitor")
    ensures EditKeyTypeAsWritten(k, configType) == ("button", None)
    ensures EditKeyType(k, configType) == ("button", Some("image_button"))
  {
  }

  /** With the corrected order, every key the engine gives a monitor is read back as that monitor's own type. */
  lemma EditKeyOfEngineKey(c: TypedConfig, i: nat, configType: Option<Value>)
    ensures EditKeyType(MonitorKey(c, i), configType) == WizardTypeOf(c)
  {
    var k := MonitorKey(c, i);
    assert NoTypePrefix(k) && k == Suffixed(ClassName(c), i) by {
      AllKeyPrefixes(c, i);
    }
    assert DecidingNames(k, c) by {
      KeyFacts(i);
    }
    ReadEngineKey(k, c, configType);
  }

  /** None of the `<type>_` prefixes the edit chain tests for. */
  predicate NoTypePrefix(k: string)
  {
    !StartsWith(k, "keyword_") && !StartsWith(k, "file_") && !StartsWith(k, "ai_")
    && !StartsWith(k, "button_") && !StartsWith(k, "image_button_") && !StartsWith(k, "all_messages_")
  }

  /** The key contains the class name of `c` and none of the names the corrected chain tests before it. */
  predicate DecidingNames(k: string, c: TypedConfig)
  {
    match c
    case KeywordCfg(_) => Contains(k, "KeywordMonitor")
    case FileCfg(_) => Contains(k, "FileMonitor") && !Contains(k, "KeywordMonitor")
    case AIMonitorCfg(_) => Contains(k, "AIMonitor") && !Contains(k, "KeywordMonitor") && !Contains(k, "FileMonitor")
    case ImageButtonCfg(_) =>
      Contains(k, "ImageButtonMonitor") && !Contains(k, "KeywordMonitor") && !Contains(k, "FileMonitor")
      && !Contains(k, "AIMonitor")
    case ButtonCfg(_) =>
      Contains(k, "ButtonMonitor") && !Contains(k, "KeywordMonitor") && !Contains(k, "FileMonitor")
      && !Contains(k, "AIMonitor") && !Contains(k, "ImageButtonMonitor")
    case AllMessagesCfg(_) =>
      Contains(k, "AllMessagesMonitor") && !Contains(k, "KeywordMonitor") && !Contains(k, "FileMonitor")
      && !Contains(k, "AIMonitor") && !Contains(k, "ImageButtonMonitor") && !Contains(k, "ButtonMonitor")
  }

  /** A key with no type prefix and the deciding class names of `c` is read as the wizard type of `c`. */
  lemma ReadEngineKey(k: string, c: TypedConfig, configType: Option<Value>)
    requires NoTypePrefix(k) && DecidingNames(k, c)
    ensures EditKeyType(k, configType) == WizardTypeOf(c)
  {
  }

  /** The step `start_wizard_edit_mode` opens on for a derived type. */
  function EditStartStep(monitorType: string): (t: StepType)
    ensures InTable(t) && Rank(t) <= 2
    ensures t == AccountSetup <==> monitorType !in {"keyword", "file", "ai", "button", "all_messages"}
  {
    if monitorType == "keyword" then KeywordStep
    else if monitorType == "file" then FileStep
    else if monitorType == "ai" then AiStep
    else if monitorType == "button" then ButtonStep
    else if monitorType == "all_messages" then AllMessagesStep
    else AccountSetup
  }

  /** Keys `_config_to_wizard_data` never copies from the configuration. */
  const SkippedKeys: set<string> := {"monitor_type", "type", "execution_count"}

  /**
   * Keys whose value the conversion chain of `_config_to_wizard_data`
   * rewrites (`str()`, `bool()`, `float()`, `int()` or an enum's value)
   * whatever the value is.
   */
  const ConvertedKeys: set<string> := {
    "keyword", "chat_id", "ai_prompt", "ai_reply_prompt", "button_keyword", "file_extension",
    "save_folder", "log_file", "execution_mode", "ai_model", "reply_delay_min", "reply_delay_max",
    "confidence_threshold", "min_size", "max_size", "max_download_size_mb", "max_executions",
    "priority", "reply_enabled", "email_notify", "auto_forward", "enhanced_forward", "active",
    "match_type", "reply_mode", "reply_content_type", "mode"}

  /** The type `_config_to_wizard_data` derives from the key, or from the configuration's own `monitor_type`. */
  function EditType(editKey: string, config: map<string, Value>): (string, Option<string>)
  {
    EditKeyTypeAsWritten(editKey, if "monitor_type" in config then Some(config["monitor_type"]) else None)
  }

  /** No key is both skipped and converted. */
  lemma ConvertedNotSkipped(k: string)
    requires k in ConvertedKeys
    ensures k !in SkippedKeys
  {
  }

  /** The account id is copied as is. */
  lemma AccountIdCopied()
    ensures "account_id" !in SkippedKeys && "account_id" !in ConvertedKeys
  {
  }

  /** The flow entries `_config_to_wizard_data` writes before its copy loop. */
  function EditFlowData(editKey: string, config: map<string, Value>, t: (string, Option<string>)): (d: map<string, Value>)
    ensures d.Keys <= {"edit_key", "monitor_type", "monitor_subtype", "account_id"}
    ensures "edit_key" in d && d["edit_key"] == Str(editKey)
    ensures "monitor_type" in d && d["monitor_type"] == Str(t.0)
    ensures "monitor_subtype" in d <==> t.1.Some?
    ensures ("account_id" in d <==> "account_id" in config) && ("account_id" in d ==> d["account_id"] == config["account_id"])
  {
    var d := map["edit_key" := Str(editKey), "monitor_type" := Str(t.0)];
    var d := if "account_id" in config then d["account_id" := config["account_id"]] else d;
    if t.1.Some? then d["monitor_subtype" := Str(t.1.value)] else d
  }

  /** The copy loop of `_config_to_wizard_data`: skipped keys dropped, chain keys converted, the rest copied. */
  function CopiedEntries(config: map<string, Value>, convert: (string, Value) -> Value): (m: map<string, Value>)
    ensures forall k :: k in m <==> k in config && k !in SkippedKeys
    ensures forall k :: k in config && k !in SkippedKeys && k !in ConvertedKeys ==> m[k] == config[k]
    ensures forall k :: k in config && k in ConvertedKeys ==> m[k] == convert(k, config[k])
  {
    map k | k in config && k !in SkippedKeys :: if k in ConvertedKeys then convert(k, config[k]) else config[k]
  }

  /**
   * `_config_to_wizard_data` as called by `start_wizard_edit_mode` (an empty
   * configuration gives no data): the edit key, the account and the type
   * derived from the key in the order the code tests it, then every
   * configuration entry but the skipped ones, converted by `convert` where
   * the chain rewrites the value and copied as is otherwise.
   */
  function EditData(editKey: string, config: map<string, Value>, convert: (string, Value) -> Value): (d: map<string, Value>)
    ensures |config| == 0 ==> d == map[]
    ensures |config| > 0 ==> Get(d, "monitor_type") == Str(EditType(editKey, config).0)
    ensures |config| > 0 && "monitor_subtype" !in config ==> ("monitor_subtype" in d <==> EditType(editKey, config).1.Some?)
    ensures |config| > 0 && "edit_key" !in config ==> Get(d, "edit_key") == Str(editKey)
    ensures |config| > 0 ==> Get(d, "account_id") == Get(config, "account_id")
    ensures forall k :: k in config && k !in SkippedKeys && k !in ConvertedKeys ==> k in d && d[k] == config[k]
    ensures forall k :: k in config && k in ConvertedKeys ==> k in d && d[k] == convert(k, config[k])
    ensures forall k :: k in d ==> k in config || k in {"edit_key", "monitor_type", "monitor_subtype"}
  {
    if |config| == 0 then map[]
    else
      var flow := EditFlowData(editKey, config, EditType(editKey, config));
      var copied := CopiedEntries(config, convert);
      assert forall k :: k in config && k in ConvertedKeys ==> k in copied && copied[k] == convert(k, config[k]) by {
        forall k | k in config && k in ConvertedKeys ensures k in copied && copied[k] == convert(k, config[k]) {
          ConvertedNotSkipped(k);
        }
      }
      AccountIdCopied();
      flow + copied
  }

  /** `collected_data.get('monitor_type', 'keyword')` when it is a string. */
  function EditMonitorType(d: map<string, Value>): string
  {
    if "monitor_type" in d then (if d["monitor_type"].Str? then d["monitor_type"].s else "") else "keyword"
  }

  // ---------------------------------------------------------------------
  // Sessions
  // ---------------------------------------------------------------------

  /** A `WizardSession`; its creation time is not modelled. */
  datatype Session = Session(current: StepType, collected: map<string, Value>, completed: seq<StepType>, errors: seq<FieldError>)

  /** Each step of the path lies strictly further along than the one before. */
  predicate Ascending(path: seq<StepType>)
  {
    forall i :: 0 <= i < |path| - 1 ==> Rank(path[i]) < Rank(path[i + 1])
  }

  /**
   * The history of a session: the completed steps followed by the current one
   * ascend, except that an edit session starts with the account and type steps
   * marked as completed whatever step it opens on.
   */
  predicate Orderly(completed: seq<StepType>, current: StepType)
  {
    Ascending(completed + [current])
    || (|completed| >= 2 && completed[..2] == [AccountSetup, MonitorType] && Ascending(completed[2..] + [current]))
  }

  predicate SessionOk(s: Session)
  {
    InTable(s.current)
    && (forall k :: 0 <= k < |s.completed| ==> InTable(s.completed[k]))
    && Orderly(s.completed, s.current)
  }

  lemma {:induction false} RankGrows(path: seq<StepType>, k: nat)
    requires Ascending(path) && k < |path|
    ensures Rank(path[k]) >= Rank(path[0]) + k
  {
    if k > 0 {
      RankGrows(path, k - 1);
    }
  }

  /** An ascending path of table steps has at most eight steps. */
  lemma AscendingLength(path: seq<StepType>)
    requires Ascending(path) && forall k :: 0 <= k < |path| ==> InTable(path[k])
    ensures |path| <= 8
  {
    if path != [] {
      RankGrows(path, |path| - 1);
      TableRanks(path[|path| - 1]);
    }
  }

  lemma AscendingPrefix(path: seq<StepType>, n: nat)
    requires Ascending(path) && n <= |path|
    ensures Ascending(path[..n])
  {
  }

  lemma AscendingSnoc(path: seq<StepType>, t: StepType)
    requires Ascending(path) && path != [] && Rank(path[|path| - 1]) < Rank(t)
    ensures Ascending(path + [t])
  {
  }

  /** `progress.current` and `progress.total` of `get_step_data`; the percentage is not modelled. */
  function Progress(s: Session): (nat, nat)
  {
    (|s.completed| + 1, StepCount)
  }

  /** The progress counter of a well-formed session never passes the total. */
  lemma ProgressWithinTotal(s: Session)
    requires SessionOk(s)
    ensures 1 <= Progress(s).0 <= 10 < Progress(s).1
  {
    var path := s.completed + [s.current];
    assert forall k :: 0 <= k < |path| ==> InTable(path[k]);
    if Ascending(path) {
      AscendingLength(path);
    } else {
      var tail := s.completed[2..] + [s.current];
      assert forall k :: 0 <= k < |tail| ==> tail[k] == path[k + 2];
      AscendingLength(tail);
    }
  }

  /** A fresh session of `start_wizard`. */
  function NewSession(): (s: Session)
    ensures SessionOk(s) && s.completed == [] && s.collected == map[]
  {
    Session(AccountSetup, map[], [], [])
  }

  /** The session of `start_wizard_edit_mode`. */
  function EditSession(editKey: string, config: map<string, Value>, convert: (string, Value) -> Value): (s: Session)
    ensures SessionOk(s) && s.completed == [AccountSetup, MonitorType]
    ensures s.collected == EditData(editKey, config, convert)
    ensures s.current == EditStartStep(EditMonitorType(s.collected))
  {
    var d := EditData(editKey, config, convert);
    Session(EditStartStep(EditMonitorType(d)), d, [AccountSetup, MonitorType], [])
  }

  /**
   * Editing an image-button monitor by its engine key, as written: the
   * session opens on the plain button step and its data carries the type
   * "button" without the image-button subtype.
   */
  lemma ImageButtonEditOpensButtonStep(c: TypedConfig, i: nat, config: map<string, Value>, convert: (string, Value) -> Value)
    requires c.ImageButtonCfg? && |config| > 0 && "monitor_subtype" !in config
    ensures var s := EditSession(MonitorKey(c, i), config, convert);
      s.current == ButtonStep && Get(s.collected, "monitor_type") == Str("button")
      && "monitor_subtype" !in s.collected
  {
    ImageButtonKeyReadAsButton(c, i, if "monitor_type" in config then Some(config["monitor_type"]) else None);
  }

  /** The result of `process_step`. */
  datatype StepOutcome =
    | SessionExpired
    | Invalid(errors: seq<FieldError>)
    | Advanced(next: StepType)
    | Completed(collected: map<string, Value>)

  /**
   * `process_step` on an existing session: the session after the call (None
   * once the configuration is completed and the session removed) and the
   * outcome.
   */
  function Processed(s: Session, d: map<string, Value>): (r: (Option<Session>, StepOutcome))
    requires InTable(s.current)
    ensures !r.1.SessionExpired?
    ensures r.1.Invalid? <==> ErrorsOf(StepOf(s.current).value.rules, d) != []
    ensures r.0.None? <==> r.1.Completed?
    ensures r.1.Invalid? ==> r.0 == Some(s.(errors := r.1.errors))
    ensures r.1.Advanced? ==>
      r.0.value.current == r.1.next && r.0.value.completed == s.completed + [s.current] && r.0.value.errors == []
      && r.0.value.collected == s.collected + d
    ensures r.1.Completed? ==> r.1.collected == s.collected + d
  {
    var step := StepOf(s.current).value;
    var errors := ErrorsOf(step.rules, d);
    if errors != [] then (Some(s.(errors := errors)), Invalid(errors))
    else
      match NextStep(step, d)
      case Some(next) => (Some(Session(next, s.collected + d, s.completed + [s.current], [])), Advanced(next))
      case None => (None, Completed(s.collected + d))
  }

  /** A step refused by validation changes nothing but the stored errors. */
  lemma RefusalKeepsProgress(s: Session, d: map<string, Value>)
    requires InTable(s.current) && ErrorsOf(StepOf(s.current).value.rules, d) != []
    ensures Processed(s, d).0 == Some(s.(errors := ErrorsOf(StepOf(s.current).value.rules, d)))
    ensures Processed(s, d).1.Invalid? && Processed(s, d).1.errors != []
  {
  }

  /** An accepted step records the step as completed and keeps every earlier value not resubmitted. */
  lemma AcceptedStepMerges(s: Session, d: map<string, Value>, key: string)
    requires InTable(s.current) && ErrorsOf(StepOf(s.current).value.rules, d) == []
    requires Processed(s, d).0.Some?
    ensures Processed(s, d).0.value.completed == s.completed + [s.current]
    ensures key in d ==> Processed(s, d).0.value.collected[key] == d[key]
    ensures key !in d && key in s.collected ==> Processed(s, d).0.value.collected[key] == s.collected[key]
  {
  }

  /** Recording the current step and moving further along keeps the history orderly. */
  lemma OrderlyAdvance(completed: seq<StepType>, current: StepType, next: StepType)
    requires Orderly(completed, current) && Rank(current) < Rank(next)
    ensures Orderly(completed + [current], next)
  {
    var done := completed + [current];
    if Ascending(done) {
      AscendingSnoc(done, next);
    } else {
      assert done[..2] == completed[..2];
      assert done[2..] == completed[2..] + [current];
      AscendingSnoc(done[2..], next);
      assert done[2..] + [next] == (done + [next])[2..];
    }
  }

  /** Processing a step keeps the session well formed. */
  lemma ProcessedKeepsSessionOk(s: Session, d: map<string, Value>)
    requires SessionOk(s)
    ensures Processed(s, d).0.Some? ==> SessionOk(Processed(s, d).0.value)
  {
    var step := StepOf(s.current).value;
    if ErrorsOf(step.rules, d) == [] && NextStep(step, d).Some? {
      NextStepAdvances(s.current, d);
      OrderlyAdvance(s.completed, s.current, NextStep(step, d).value);
    }
  }

  /** `go_to_previous_step` on an existing session: None on the first step. */
  function SteppedBack(s: Session): Option<Session>
  {
    if s.completed == [] then None
    else Some(s.(current := s.completed[|s.completed| - 1], completed := s.completed[..|s.completed| - 1]))
  }

  /** Taking the last completed step back as the current one keeps the history orderly. */
  lemma OrderlyBack(completed: seq<StepType>, current: StepType)
    requires Orderly(completed, current) && completed != []
    ensures Orderly(completed[..|completed| - 1], completed[|completed| - 1])
  {
    var n := |completed|;
    var before := completed[..n - 1];
    var last := completed[n - 1];
    assert before + [last] == completed;
    var path := completed + [current];
    assert completed == path[..n];
    if Ascending(path) {
      AscendingPrefix(path, n);
    } else if n == 2 {
      assert before + [last] == [AccountSetup, MonitorType];
    } else {
      var tail := completed[2..] + [current];
      AscendingPrefix(tail, n - 2);
      assert tail[..n - 2] == completed[2..];
      assert before[..2] == completed[..2];
      assert before[2..] + [last] == completed[2..];
    }
  }

  /** Going back keeps the session well formed. */
  lemma SteppedBackKeepsSessionOk(s: Session)
    requires SessionOk(s)
    ensures SteppedBack(s).Some? ==> SessionOk(SteppedBack(s).value)
  {
    if s.completed != [] {
      var n := |s.completed|;
      var before := s.completed[..n - 1];
      var last := s.completed[n - 1];
      OrderlyBack(s.completed, s.current);
      assert InTable(last);
      forall k | 0 <= k < |before| ensures InTable(before[k]) {
        assert before[k] == s.completed[k];
      }
      assert SteppedBack(s).value == s.(current := last, completed := before);
    }
  }

  /** Going back after an accepted step returns to that step with the history it had. */
  lemma BackUndoesAdvance(s: Session, d: map<string, Value>)
    requires InTable(s.current) && Processed(s, d).0.Some? && Processed(s, d).1.Advanced?
    ensures SteppedBack(Processed(s, d).0.value).Some?
    ensures SteppedBack(Processed(s, d).0.value).value.current == s.current
    ensures SteppedBack(Processed(s, d).0.value).value.completed == s.completed
  {
    var a := Processed(s, d).0.value;
    assert a.completed[..|a.completed| - 1] == s.completed;
  }

  /**
   * The merge of `process_step`: `update` with the step data, then the saved
   * type, account and edit key put back when they were truthy and the step
   * data lacks them. Putting them back changes nothing: keys absent from the
   * step data keep their earlier values under `update` already.
   */
  method MergeStepData(collected: map<string, Value>, d: map<string, Value>) returns (merged: map<string, Value>)
    ensures merged == collected + d
  {
    var monitorType := Get(collected, "monitor_type");
    var accountId := Get(collected, "account_id");
    var editKey := Get(collected, "edit_key");
    merged := collected + d;
    if Truthy(monitorType) && "monitor_type" !in d {
      merged := merged["monitor_type" := monitorType];
    }
    if Truthy(accountId) && "account_id" !in d {
      merged := merged["account_id" := accountId];
    }
    if Truthy(editKey) && "edit_key" !in d {
      merged := merged["edit_key" := editKey];
    }
  }

  /** The session store after `process_step` on an existing session, and the outcome. */
  function ProcessedStore(store: map<string, Session>, id: string, d: map<string, Value>): (map<string, Session>, StepOutcome)
    requires id in store && InTable(store[id].current)
  {
    var (after, outcome) := Processed(store[id], d);
    if after.Some? then (store[id := after.value], outcome) else (store - {id}, outcome)
  }

  /** Processing a step keeps every session of the store well formed. */
  lemma ProcessedStoreKeepsSessionsOk(store: map<string, Session>, id: string, d: map<string, Value>)
    requires id in store && SessionOk(store[id]) && forall k :: k in store ==> SessionOk(store[k])
    ensures var r := ProcessedStore(store, id, d).0; forall k :: k in r ==> SessionOk(r[k])
  {
    ProcessedKeepsSessionOk(store[id], d);
  }

  /** The wizard's session store. */
  class Wizard {
    var sessions: map<string, Session>

    ghost predicate Valid()
      reads this
    {
      forall id :: id in sessions ==> SessionOk(sessions[id])
    }

    constructor()
      ensures sessions == map[] && Valid()
    {
      sessions := map[];
    }

    /** `start_wizard`: a fresh session replaces any session with the same id. */
    method StartWizard(id: string)
      requires Valid()
      modifies this
      ensures sessions == old(sessions)[id := NewSession()] && Valid()
    {
      sessions := sessions[id := NewSession()];
    }

    /** `start_wizard_edit_mode`. */
    method StartWizardEditMode(id: string, editKey: string, config: map<string, Value>, convert: (string, Value) -> Value)
      requires Valid()
      modifies this
      ensures sessions == old(sessions)[id := EditSession(editKey, config, convert)] && Valid()
    {
      var d := EditData(editKey, config, convert);
      var start := EditStartStep(EditMonitorType(d));
      sessions := sessions[id := Session(start, d, [AccountSetup, MonitorType], [])];
    }

    /**
     * `process_step`: validate, store the errors, and on success merge the
     * data, record the step and move on or complete.
     */
    method ProcessStep(id: string, d: map<string, Value>) returns (outcome: StepOutcome)
      requires Valid()
      modifies this
      ensures Valid()
      ensures id !in old(sessions) ==> outcome == SessionExpired && sessions == old(sessions)
      ensures id in old(sessions) ==> (sessions, outcome) == ProcessedStore(old(sessions), id, d)
    {
      if id !in sessions {
        return SessionExpired;
      }
      var s := sessions[id];
      ProcessedStoreKeepsSessionsOk(sessions, id, d);
      var errors := ValidateStepData(StepOf(s.current).value.rules, d);
      if errors != [] {
        assert Processed(s, d) == (Some(s.(errors := errors)), Invalid(errors));
        sessions := sessions[id := s.(errors := errors)];
        return Invalid(errors);
      }
      var collected := MergeStepData(s.collected, d);
      var next := NextStep(StepOf(s.current).value, d);
      if next.Some? {
        var after := Session(next.value, collected, s.completed + [s.current], []);
        assert Processed(s, d) == (Some(after), Advanced(next.value));
        sessions := sessions[id := after];
        outcome := Advanced(next.value);
      } else {
        assert Processed(s, d) == (None, Completed(collected));
        sessions := sessions - {id};
        outcome := Completed(collected);
      }
    }

    /** `go_to_previous_step`: false for an unknown session or on the first step. */
    method GoToPreviousStep(id: string) returns (ok: bool)
      requires Valid()
      modifies this
      ensures Valid()
      ensures ok <==> id in old(sessions) && SteppedBack(old(sessions)[id]).Some?
      ensures sessions == (if ok then old(sessions)[id := SteppedBack(old(sessions)[id]).value] else old(sessions))
    {
      if id !in sessions {
        return false;
      }
      var s := sessions[id];
      if s.completed == [] {
        return false;
      }
      SteppedBackKeepsSessionOk(s);
      var last := s.completed[|s.completed| - 1];
      sessions := sessions[id := s.(current := last, completed := s.completed[..|s.completed| - 1])];
      ok := true;
    }
  }
}
