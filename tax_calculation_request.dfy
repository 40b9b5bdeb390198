/**
 * Validation of a tax calculation request: the raw JSON payload is normalised in
 * place, checked attribute by attribute against its rules, and then checked by
 * the request's own after-hook, which adds two cross-field messages.
 */
module TaxRequests {
  import opened Wrappers
  import opened Text

  /** A JSON scalar as it arrives in the payload. */
  datatype Input = Num(n: real) | Str(s: string) | Bool(b: bool) | Null

  /** The payload keys the request's rules and hooks read; other keys play no part. */
  datatype Attribute = AnnualIncome | MaritalStatus | HasChildren | SpouseIncome {
    /** The key as it appears in the JSON payload. */
    function Key(): string {
      match this
      case AnnualIncome => "annual_income"
      case MaritalStatus => "marital_status"
      case HasChildren => "has_children"
      case SpouseIncome => "spouse_income"
    }
  }

  type Payload = map<Attribute, Input>

  /** The value under `key`, if the key is present. */
  function Lookup(p: Payload, key: Attribute): (v: Option<Input>)
    ensures v.Some? <==> key in p
    ensures v.Some? ==> v.value == p[key]
  {
    if key in p then Some(p[key]) else None
  }

  /**
   * PHP's `filter_var($v, FILTER_VALIDATE_BOOLEAN)`: true for true, for 1, and for the
   * strings "1", "true", "on" and "yes" in any case; false for everything else.
   */
  function FilterBoolean(v: Input): bool {
    match v
    case Bool(b) => b
    case Num(n) => n == 1.0
    case Str(s) => ToLower(s) in {"1", "true", "on", "yes"}
    case Null => false
  }

  /** PHP truthiness: false, 0, "", "0" and null are false. */
  function Truthy(v: Option<Input>): bool {
    match v
    case None => false
    case Some(Null) => false
    case Some(Bool(b)) => b
    case Some(Num(n)) => n != 0.0
    case Some(Str(s)) => s != "" && s != "0"
  }

  /** The request's `boolean('has_children', false)`. */
  function HasChildrenFlag(p: Payload): bool {
    if HasChildren in p then FilterBoolean(p[HasChildren]) else false
  }

  /** The spouse income after preparation: an empty string or a missing key becomes null. */
  function SpouseIncomeInput(p: Payload): Input {
    if SpouseIncome in p && p[SpouseIncome] != Str("") then p[SpouseIncome] else Null
  }

  /** `prepareForValidation`: merges the normalised `has_children` and `spouse_income`. */
  function Prepared(p: Payload): Payload {
    p[HasChildren := Bool(HasChildrenFlag(p))][SpouseIncome := SpouseIncomeInput(p)]
  }

  // ---------------------------------------------------------------------------
  // Rules, attribute by attribute

  const MarriageStatuses: set<string> := {"single", "married", "single_parent"}

  /** What the `required` rule rejects: null and the empty string. */
  predicate Empty(v: Input) {
    v == Null || v == Str("")
  }

  /**
   * `annual_income`: required, numeric, min:0, max:10000000. A failed `required`
   * stops the attribute's other rules.
   */
  function AnnualIncomeErrors(v: Option<Input>): seq<string> {
    if v.None? || Empty(v.value) then ["Annual income is required."]
    else match v.value
      case Num(n) =>
        (if n < 0.0 then ["Annual income cannot be negative."] else [])
        + (if n > 10000000.0 then ["Annual income cannot exceed €10,000,000."] else [])
      case _ => ["Annual income must be a valid number."]
  }

  /** `marital_status`: required, string, in:single,married,single_parent. */
  function MaritalStatusErrors(v: Option<Input>): seq<string> {
    if v.None? || Empty(v.value) then ["Marital status is required."]
    else match v.value
      case Str(s) => if s in MarriageStatuses then [] else ["Marital status must be one of: single, married, single_parent."]
      case _ => ["The marital status field must be a string.",
                 "Marital status must be one of: single, married, single_parent."]
  }

  /** `has_children`: sometimes, boolean. */
  function HasChildrenErrors(v: Option<Input>): seq<string> {
    match v
    case None => []
    case Some(Bool(_)) => []
    case Some(Num(n)) => if n == 0.0 || n == 1.0 then [] else ["Has children must be true or false."]
    case Some(Str(s)) => if s == "0" || s == "1" then [] else ["Has children must be true or false."]
    case Some(Null) => ["Has children must be true or false."]
  }

  /**
   * `spouse_income`: sometimes, nullable, numeric, min:0, max:10000000,
   * required_if:marital_status,married. A null value skips every rule but `required_if`.
   */
  function SpouseIncomeErrors(v: Option<Input>, status: Option<Input>): seq<string> {
    if v.None? then []
    else if Empty(v.value) then
      if status == Some(Str("married")) then ["Spouse income is required when marital status is married."] else []
    else match v.value
      case Num(n) =>
        (if n < 0.0 then ["Spouse income cannot be negative."] else [])
        + (if n > 10000000.0 then ["Spouse income cannot exceed €10,000,000."] else [])
      case _ => ["Spouse income must be a valid number."]
  }

  /** The messages recorded under `key` so far. */
  function MessagesAt(bag: map<Attribute, seq<string>>, key: Attribute): seq<string> {
    if key in bag then bag[key] else []
  }

  /** The bag with `messages` appended under `key`; no key is recorded for no messages. */
  function Append(bag: map<Attribute, seq<string>>, key: Attribute, messages: seq<string>): map<Attribute, seq<string>> {
    if messages == [] then bag else bag[key := MessagesAt(bag, key) + messages]
  }

  /**
   * The message bag's `add`: `message` is appended under `key` unless that key
   * already holds the same message.
   */
  function AddMessage(bag: map<Attribute, seq<string>>, key: Attribute, message: string): map<Attribute, seq<string>> {
    if message in MessagesAt(bag, key) then bag else Append(bag, key, [message])
  }

  /** The messages of the rules for one attribute. */
  function RuleErrorsFor(p: Payload, key: Attribute): seq<string> {
    match key
    case AnnualIncome => AnnualIncomeErrors(Lookup(p, AnnualIncome))
    case MaritalStatus => MaritalStatusErrors(Lookup(p, MaritalStatus))
    case HasChildren => HasChildrenErrors(Lookup(p, HasChildren))
    case SpouseIncome => SpouseIncomeErrors(Lookup(p, SpouseIncome), Lookup(p, MaritalStatus))
  }

  /** The messages of the rules, attribute by attribute in the order the rules list them. */
  function RuleErrors(p: Payload): map<Attribute, seq<string>> {
    var m1 := Append(map[], AnnualIncome, RuleErrorsFor(p, AnnualIncome));
    var m2 := Append(m1, MaritalStatus, RuleErrorsFor(p, MaritalStatus));
    var m3 := Append(m2, HasChildren, RuleErrorsFor(p, HasChildren));
    Append(m3, SpouseIncome, RuleErrorsFor(p, SpouseIncome))
  }

  const SpouseHookMessage := "Spouse income is required for married status."
  const ChildrenHookMessage := "Single parent status requires having children."

  /** The after-hook's first check: married, and no spouse income after preparation. */
  predicate SpouseHookFires(p: Payload) {
    Lookup(p, MaritalStatus) == Some(Str("married"))
    && (Lookup(p, SpouseIncome).None? || Lookup(p, SpouseIncome) == Some(Null))
  }

  /** The after-hook's second check: a single parent whose `has_children` is falsy. */
  predicate ChildrenHookFires(p: Payload) {
    Lookup(p, MaritalStatus) == Some(Str("single_parent")) && !Truthy(Lookup(p, HasChildren))
  }

  /** The after-hook's messages, in the order it adds them. */
  function HookErrors(p: Payload): seq<(Attribute, string)> {
    (if SpouseHookFires(p) then [(SpouseIncome, SpouseHookMessage)] else [])
    + (if ChildrenHookFires(p) then [(HasChildren, ChildrenHookMessage)] else [])
  }

  /** The after-hook's messages under one key. */
  function HookErrorsFor(p: Payload, key: Attribute): seq<string> {
    match key
    case SpouseIncome => if SpouseHookFires(p) then [SpouseHookMessage] else []
    case HasChildren => if ChildrenHookFires(p) then [ChildrenHookMessage] else []
    case _ => []
  }

  /** The bag with each message added in turn. */
  function AddEach(bag: map<Attribute, seq<string>>, es: seq<(Attribute, string)>): map<Attribute, seq<string>>
    decreases |es|
  {
    if es == [] then bag else AddEach(AddMessage(bag, es[0].0, es[0].1), es[1..])
  }

  /** The messages of `es` under `key`, in order. */
  function MessagesFor(es: seq<(Attribute, string)>, key: Attribute): seq<string>
    decreases |es|
  {
    if es == [] then [] else (if es[0].0 == key then [es[0].1] else []) + MessagesFor(es[1..], key)
  }

  /** Every message of a validation of the raw payload: the rules', then the after-hook's. */
  function ValidationErrors(raw: Payload): map<Attribute, seq<string>> {
    var p := Prepared(raw);
    AddEach(RuleErrors(p), HookErrors(p))
  }

  // ---------------------------------------------------------------------------
  // The request and its message bag

  /** The validator's message bag: messages grouped by attribute. */
  class ErrorBag {
    var messages: map<Attribute, seq<string>>

    constructor (initial: map<Attribute, seq<string>>)
      ensures messages == initial
    {
      messages := initial;
    }

    /** `add`: appends one message under `key`, unless the key already holds it. */
    method Add(key: Attribute, message: string)
      modifies this
      ensures message in MessagesAt(old(messages), key) ==> messages == old(messages)
      ensures message !in MessagesAt(old(messages), key) ==>
        messages == old(messages)[key := MessagesAt(old(messages), key) + [message]]
      ensures messages == AddMessage(old(messages), key, message)
    {
      if message !in MessagesAt(messages, key) {
        messages := messages[key := MessagesAt(messages, key) + [message]];
      }
    }
  }

  /** The form request, holding its input, which preparation changes in place. */
  class TaxCalculationRequest {
    var input: Payload

    constructor (payload: Payload)
      ensures input == payload
    {
      input := payload;
    }

    /** `prepareForValidation` */
    method PrepareForValidation()
      modifies this
      ensures input == Prepared(old(input))
    {
      var hasChildren := HasChildrenFlag(input);
      var spouseIncome := SpouseIncomeInput(input);
      input := input[HasChildren := Bool(hasChildren)][SpouseIncome := spouseIncome];
    }

    /** The after-hook registered by `withValidator`. */
    method AfterHook(validator: ErrorBag)
      modifies validator
      ensures validator.messages == AddEach(old(validator.messages), HookErrors(input))
    {
      ghost var start := validator.messages;
      var first := SpouseHookFires(input);
      var second := ChildrenHookFires(input);
      if first {
        validator.Add(SpouseIncome, SpouseHookMessage);
      }
      ghost var firstErrors := if first then [(SpouseIncome, SpouseHookMessage)] else [];
      assert validator.messages == AddEach(start, firstErrors);
      if second {
        validator.Add(HasChildren, ChildrenHookMessage);
      }
      AddEachConcat(start, firstErrors, if second then [(HasChildren, ChildrenHookMessage)] else []);
    }

    /**
     * The form request's validation: prepare the input, apply the rules, then run
     * the after-hook on the same bag.
     */
    method ValidateResolved() returns (errors: ErrorBag)
      modifies this
      ensures input == Prepared(old(input))
      ensures fresh(errors)
      ensures errors.messages == ValidationErrors(old(input))
    {
      PrepareForValidation();
      errors := new ErrorBag(RuleErrors(input));
      AfterHook(errors);
    }
  }

  lemma {:induction false} AddEachConcat(bag: map<Attribute, seq<string>>, a: seq<(Attribute, string)>, b: seq<(Attribute, string)>)
    ensures AddEach(bag, a + b) == AddEach(AddEach(bag, a), b)
    decreases |a|
  {
    if a != [] {
      assert (a + b)[1..] == a[1..] + b;
      AddEachConcat(AddMessage(bag, a[0].0, a[0].1), a[1..], b);
    } else {
      assert a + b == b;
    }
  }

  // ---------------------------------------------------------------------------
  // Properties

  /** Appending touches only its own key, and records it exactly when there is something to add. */
  lemma AppendAt(bag: map<Attribute, seq<string>>, key: Attribute, messages: seq<string>, k: Attribute)
    ensures MessagesAt(Append(bag, key, messages), k)
         == if k == key then MessagesAt(bag, k) + messages else MessagesAt(bag, k)
    ensures k in Append(bag, key, messages) <==> k in bag || (k == key && messages != [])
  {
  }

  /** The rules record, under each attribute, exactly that attribute's messages. */
  lemma RuleErrorsAt(p: Payload, k: Attribute)
    ensures MessagesAt(RuleErrors(p), k) == RuleErrorsFor(p, k)
    ensures k in RuleErrors(p) <==> RuleErrorsFor(p, k) != []
  {
    var m1 := Append(map[], AnnualIncome, RuleErrorsFor(p, AnnualIncome));
    var m2 := Append(m1, MaritalStatus, RuleErrorsFor(p, MaritalStatus));
    var m3 := Append(m2, HasChildren, RuleErrorsFor(p, HasChildren));
    AppendAt(map[], AnnualIncome, RuleErrorsFor(p, AnnualIncome), k);
    AppendAt(m1, MaritalStatus, RuleErrorsFor(p, MaritalStatus), k);
    AppendAt(m2, HasChildren, RuleErrorsFor(p, HasChildren), k);
    AppendAt(m3, SpouseIncome, RuleErrorsFor(p, SpouseIncome), k);
  }

  /** Each message of `es`, added in turn, is not yet under its key when it is added. */
  predicate NewMessages(bag: map<Attribute, seq<string>>, es: seq<(Attribute, string)>)
    decreases |es|
  {
    es == [] || (es[0].1 !in MessagesAt(bag, es[0].0) && NewMessages(AddMessage(bag, es[0].0, es[0].1), es[1..]))
  }

  /**
   * Adding new messages one by one appends, under each key, that key's messages in
   * order: `add` drops none of them as a duplicate.
   */
  lemma {:induction false} AddEachAt(bag: map<Attribute, seq<string>>, es: seq<(Attribute, string)>, k: Attribute)
    requires NewMessages(bag, es)
    ensures MessagesAt(AddEach(bag, es), k) == MessagesAt(bag, k) + MessagesFor(es, k)
    ensures k in AddEach(bag, es) <==> k in bag || MessagesFor(es, k) != []
    decreases |es|
  {
    AddEachMessages(bag, es, k);
    AddEachKeys(bag, es, k);
  }

  lemma {:induction false} AddEachMessages(bag: map<Attribute, seq<string>>, es: seq<(Attribute, string)>, k: Attribute)
    requires NewMessages(bag, es)
    ensures MessagesAt(AddEach(bag, es), k) == MessagesAt(bag, k) + MessagesFor(es, k)
    decreases |es|
  {
    if es != [] {
      var rest := es[1..];
      var next := Append(bag, es[0].0, [es[0].1]);
      assert AddMessage(bag, es[0].0, es[0].1) == next;
      assert AddEach(bag, es) == AddEach(next, rest);
      AppendAt(bag, es[0].0, [es[0].1], k);
      AddEachMessages(next, rest, k);
      var head := if es[0].0 == k then [es[0].1] else [];
      assert MessagesFor(es, k) == head + MessagesFor(rest, k);
      ConcatAssoc(MessagesAt(bag, k), head, MessagesFor(rest, k));
    }
  }

  lemma ConcatAssoc(a: seq<string>, b: seq<string>, c: seq<string>)
    ensures (a + b) + c == a + (b + c)
  {
  }

  lemma {:induction false} AddEachKeys(bag: map<Attribute, seq<string>>, es: seq<(Attribute, string)>, k: Attribute)
    requires NewMessages(bag, es)
    ensures k in AddEach(bag, es) <==> k in bag || MessagesFor(es, k) != []
    decreases |es|
  {
    if es != [] {
      var next := Append(bag, es[0].0, [es[0].1]);
      assert AddMessage(bag, es[0].0, es[0].1) == next;
      AppendAt(bag, es[0].0, [es[0].1], k);
      AddEachKeys(next, es[1..], k);
      assert AddEach(bag, es) == AddEach(next, es[1..]);
      var head := if es[0].0 == k then [es[0].1] else [];
      assert MessagesFor(es, k) == head + MessagesFor(es[1..], k);
    }
  }

  /** A repeated message is kept once: adding it a second time changes nothing. */
  lemma AddMessageTwice(bag: map<Attribute, seq<string>>, key: Attribute, message: string)
    ensures AddMessage(AddMessage(bag, key, message), key, message) == AddMessage(bag, key, message)
    ensures MessagesAt(AddMessage(bag, key, message), key) == MessagesAt(bag, key) + (if message in MessagesAt(bag, key) then [] else [message])
  {
  }

  /** The after-hook's messages are new: no rule message repeats one, and each key gets at most one. */
  lemma HookMessagesNew(p: Payload)
    ensures NewMessages(RuleErrors(p), HookErrors(p))
  {
    var bag := RuleErrors(p);
    RuleErrorsAt(p, SpouseIncome);
    RuleErrorsAt(p, HasChildren);
    SpouseHookIsNew(Lookup(p, SpouseIncome), Lookup(p, MaritalStatus));
    ChildrenHookIsNew(Lookup(p, HasChildren));
    var spouse := if SpouseHookFires(p) then [(SpouseIncome, SpouseHookMessage)] else [];
    var children := if ChildrenHookFires(p) then [(HasChildren, ChildrenHookMessage)] else [];
    assert HookErrors(p) == spouse + children;
    assert SpouseHookMessage !in MessagesAt(bag, SpouseIncome);
    assert ChildrenHookMessage !in MessagesAt(bag, HasChildren);
  }

  /** No rule of `spouse_income` reports the after-hook's message. */
  lemma SpouseHookIsNew(v: Option<Input>, status: Option<Input>)
    ensures SpouseHookMessage !in SpouseIncomeErrors(v, status)
  {
    assert |SpouseHookMessage| == 45;
  }

  /** The `boolean` rule of `has_children` never reports the after-hook's message. */
  lemma ChildrenHookIsNew(v: Option<Input>)
    ensures ChildrenHookMessage !in HasChildrenErrors(v)
  {
    assert |ChildrenHookMessage| == 46;
  }

  /** The after-hook adds under each key exactly that key's messages. */
  lemma HookErrorsAt(p: Payload, k: Attribute)
    ensures MessagesFor(HookErrors(p), k) == HookErrorsFor(p, k)
  {
    var first := if SpouseHookFires(p) then [(SpouseIncome, SpouseHookMessage)] else [];
    var second := if ChildrenHookFires(p) then [(HasChildren, ChildrenHookMessage)] else [];
    MessagesForConcat(first, second, k);
  }

  lemma {:induction false} MessagesForConcat(a: seq<(Attribute, string)>, b: seq<(Attribute, string)>, k: Attribute)
    ensures MessagesFor(a + b, k) == MessagesFor(a, k) + MessagesFor(b, k)
    decreases |a|
  {
    if a == [] {
      assert a + b == b;
    } else {
      assert (a + b)[0] == a[0];
      assert (a + b)[1..] == a[1..] + b;
      MessagesForConcat(a[1..], b, k);
    }
  }

  /** Under each key, a validation reports the rules' messages and then the after-hook's. */
  lemma ValidationAt(raw: Payload, k: Attribute)
    ensures var p := Prepared(raw);
      MessagesAt(ValidationErrors(raw), k) == RuleErrorsFor(p, k) + HookErrorsFor(p, k)
    ensures var p := Prepared(raw);
      k in ValidationErrors(raw) <==> RuleErrorsFor(p, k) != [] || HookErrorsFor(p, k) != []
  {
    var p := Prepared(raw);
    RuleErrorsAt(p, k);
    HookMessagesNew(p);
    AddEachAt(RuleErrors(p), HookErrors(p), k);
    HookErrorsAt(p, k);
  }

  /**
   * Preparation makes `has_children` a boolean and `spouse_income` present and never
   * the empty string, and leaves every other key as it was.
   */
  lemma PreparedShape(raw: Payload)
    ensures var p := Prepared(raw);
      && p.Keys == raw.Keys + {HasChildren, SpouseIncome}
      && p[HasChildren] == Bool(HasChildrenFlag(raw))
      && p[SpouseIncome] != Str("")
      && (p[SpouseIncome] == Null <==> (SpouseIncome !in raw || raw[SpouseIncome] in {Null, Str("")}))
      && (forall k :: k in raw && k != HasChildren && k != SpouseIncome ==> p[k] == raw[k])
  {
  }

  /** Preparing twice is preparing once. */
  lemma PrepareIdempotent(raw: Payload)
    ensures Prepared(Prepared(raw)) == Prepared(raw)
  {
    var p := Prepared(raw);
    assert HasChildrenFlag(p) == HasChildrenFlag(raw);
    assert SpouseIncomeInput(p) == SpouseIncomeInput(raw);
  }

  /** After preparation the `boolean` rule on `has_children` can never fail. */
  lemma HasChildrenRuleSilent(raw: Payload)
    ensures RuleErrorsFor(Prepared(raw), HasChildren) == []
    ensures HasChildren !in RuleErrors(Prepared(raw))
  {
    RuleErrorsAt(Prepared(raw), HasChildren);
  }

  /** The spouse income an accepted request carries to the engine. */
  function SpouseIncomeArgument(raw: Payload): Option<real> {
    match SpouseIncomeInput(raw)
    case Num(n) => Some(n)
    case _ => None
  }

  /**
   * A request the validation accepts, stated directly: an income and, when present,
   * a spouse income between 0 and 10 000 000; one of the three marital statuses;
   * a spouse income when married; children when a single parent.
   */
  predicate Accepted(raw: Payload) {
    && AnnualIncome in raw && raw[AnnualIncome].Num?
    && 0.0 <= raw[AnnualIncome].n <= 10000000.0
    && MaritalStatus in raw && raw[MaritalStatus].Str?
    && raw[MaritalStatus].s in MarriageStatuses
    && (SpouseIncomeInput(raw) == Null
        || (SpouseIncomeInput(raw).Num? && 0.0 <= SpouseIncomeInput(raw).n <= 10000000.0))
    && (raw[MaritalStatus].s == "married" ==> SpouseIncomeInput(raw) != Null)
    && (raw[MaritalStatus].s == "single_parent" ==> HasChildrenFlag(raw))
  }

  /** The rules and the after-hook together accept exactly the requests described by `Accepted`. */
  lemma ValidationAcceptsExactly(raw: Payload)
    ensures ValidationErrors(raw) == map[] <==> Accepted(raw)
  {
    if Accepted(raw) {
      AcceptedHasNoErrors(raw);
    } else {
      RejectedHasErrors(raw);
    }
  }

  lemma AcceptedHasNoErrors(raw: Payload)
    requires Accepted(raw)
    ensures ValidationErrors(raw) == map[]
  {
    var p := Prepared(raw);
    PreparedLookups(raw);
    assert RuleErrorsFor(p, AnnualIncome) == [];
    assert RuleErrorsFor(p, MaritalStatus) == [];
    assert RuleErrorsFor(p, HasChildren) == [];
    assert RuleErrorsFor(p, SpouseIncome) == [];
    assert !SpouseHookFires(p) && !ChildrenHookFires(p);
    forall k: Attribute
      ensures k !in ValidationErrors(raw)
    {
      ValidationAt(raw, k);
    }
    assert ValidationErrors(raw).Keys == {};
  }

  /** What preparation leaves for the rules to look up. */
  lemma PreparedLookups(raw: Payload)
    ensures var p := Prepared(raw);
      && Lookup(p, AnnualIncome) == Lookup(raw, AnnualIncome)
      && Lookup(p, MaritalStatus) == Lookup(raw, MaritalStatus)
      && Lookup(p, HasChildren) == Some(Bool(HasChildrenFlag(raw)))
      && Lookup(p, SpouseIncome) == Some(SpouseIncomeInput(raw))
  {
  }

  lemma RejectedHasErrors(raw: Payload)
    requires !Accepted(raw)
    ensures ValidationErrors(raw) != map[]
  {
    var income, status := Lookup(raw, AnnualIncome), Lookup(raw, MaritalStatus);
    if !(income.Some? && income.value.Num? && 0.0 <= income.value.n <= 10000000.0) {
      ReportedUnder(raw, AnnualIncome);
    } else if !(status.Some? && status.value.Str? && status.value.s in MarriageStatuses) {
      ReportedUnder(raw, MaritalStatus);
    } else if status.value.s == "single_parent" && !HasChildrenFlag(raw) {
      var p := Prepared(raw);
      PreparedLookups(raw);
      assert ChildrenHookFires(p);
      ValidationAt(raw, HasChildren);
    } else {
      ReportedUnder(raw, SpouseIncome);
    }
  }

  /** A rule that fails leaves its attribute in the validation's messages. */
  lemma ReportedUnder(raw: Payload, k: Attribute)
    requires RuleErrorsFor(Prepared(raw), k) != []
    ensures ValidationErrors(raw) != map[]
  {
    ValidationAt(raw, k);
  }

  /** A negative income is rejected with the rule's own message, and with it alone. */
  lemma NegativeIncomeRejected(raw: Payload, n: real)
    requires AnnualIncome in raw && raw[AnnualIncome] == Num(n) && n < 0.0
    ensures MessagesAt(ValidationErrors(raw), AnnualIncome) == ["Annual income cannot be negative."]
  {
    var p := Prepared(raw);
    ValidationAt(raw, AnnualIncome);
  }

  /**
   * A married request without a spouse income (absent, null or empty) gets two
   * messages under `spouse_income`: the `required_if` rule's and the after-hook's.
   */
  lemma MarriedNeedsSpouseIncome(raw: Payload)
    requires MaritalStatus in raw && raw[MaritalStatus] == Str("married")
    requires SpouseIncome !in raw || raw[SpouseIncome] in {Null, Str("")}
    ensures MessagesAt(ValidationErrors(raw), SpouseIncome)
         == ["Spouse income is required when marital status is married.",
             "Spouse income is required for married status."]
  {
    var p := Prepared(raw);
    ValidationAt(raw, SpouseIncome);
    PreparedLookups(raw);
    assert SpouseHookFires(p);
  }

  /** A single parent without children is rejected by the after-hook under `has_children`. */
  lemma SingleParentNeedsChildren(raw: Payload)
    requires MaritalStatus in raw && raw[MaritalStatus] == Str("single_parent")
    requires !HasChildrenFlag(raw)
    ensures MessagesAt(ValidationErrors(raw), HasChildren) == ["Single parent status requires having children."]
  {
    var p := Prepared(raw);
    ValidationAt(raw, HasChildren);
    PreparedLookups(raw);
    assert ChildrenHookFires(p);
  }

  /**
   * A request that passes validation gives the engine a numeric income in range, one of
   * the three statuses and a usable spouse income.
   */
  lemma AcceptedArguments(raw: Payload)
    requires ValidationErrors(raw) == map[]
    ensures AnnualIncome in raw && raw[AnnualIncome].Num? && MaritalStatus in raw && raw[MaritalStatus].Str?
    ensures var income, status := raw[AnnualIncome].n, raw[MaritalStatus].s;
      var spouse := SpouseIncomeArgument(raw);
      && 0.0 <= income <= 10000000.0
      && (status == "single" || status == "married" || status == "single_parent")
      && (spouse.Some? ==> 0.0 <= spouse.value <= 10000000.0)
      && (status == "married" ==> spouse.Some?)
      && (status == "single_parent" ==> HasChildrenFlag(raw))
  {
    ValidationAcceptsExactly(raw);
  }

  /** Invalid income and status are both reported, each under its own key. */
  lemma InvalidIncomeAndStatus()
    ensures var errors := ValidationErrors(map[AnnualIncome := Num(-1000.0), MaritalStatus := Str("invalid_status")]);
      && AnnualIncome in errors && MaritalStatus in errors
  {
    var raw := map[AnnualIncome := Num(-1000.0), MaritalStatus := Str("invalid_status")];
    var p := Prepared(raw);
    assert Lookup(p, AnnualIncome) == Some(Num(-1000.0));
    assert Lookup(p, MaritalStatus) == Some(Str("invalid_status"));
    assert "invalid_status" !in MarriageStatuses;
    ValidationAt(raw, AnnualIncome);
    ValidationAt(raw, MaritalStatus);
  }

  /** A zero income is accepted. */
  lemma ZeroIncomeAccepted()
    ensures ValidationErrors(map[AnnualIncome := Num(0.0), MaritalStatus := Str("single")]) == map[]
  {
    var raw := map[AnnualIncome := Num(0.0), MaritalStatus := Str("single")];
    assert Accepted(raw);
    AcceptedHasNoErrors(raw);
  }
}
