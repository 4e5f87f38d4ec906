/**
 * The application logic around the calculation engine: building the plan's inputs from the
 * collected payload, recognising the assistant's "calculation ready" marker, the per-session
 * state and how one run of the page changes it, the what-if cards and the follow-up what-if.
 *
 * The assistant's replies, the JSON extraction and the age parsed from a follow-up question
 * come from outside (the language model, `json`, `re`) and are parameters here.
 */
module App {
  import opened Wrappers
  import opened Powers
  import opened Text
  import opened Calculations

  // ---------------------------------------------------------------------------
  // The collected payload and `perform_calculation`
  // ---------------------------------------------------------------------------

  /**
   * The JSON object the assistant sends once everything is collected, with its values already
   * of the right types. `otherKeys` counts keys the application does not read; `inflationRate`
   * is read by nobody, but the assistant may send it.
   */
  datatype Payload = Payload(
    currentAge: Option<int>,
    retirementAge: Option<int>,
    lifeExpectancy: Option<int>,
    currentAnnualExpenses: Option<real>,
    currentInvestments: Option<real>,
    currentAnnualIncome: Option<real>,
    riskProfile: Option<string>,
    dependents: Option<string>,
    inflationRate: Option<real>,
    otherKeys: nat)

  const EmptyPayload: Payload := Payload(None, None, None, None, None, None, None, None, None, 0)

  /** Python truthiness of the dictionary: it has at least one key. */
  predicate NonEmpty(data: Payload)
  {
    || data.currentAge.Some? || data.retirementAge.Some? || data.lifeExpectancy.Some?
    || data.currentAnnualExpenses.Some? || data.currentInvestments.Some? || data.currentAnnualIncome.Some?
    || data.riskProfile.Some? || data.dependents.Some? || data.inflationRate.Some?
    || data.otherKeys > 0
  }

  /** The inflation rate every plan uses, whatever the payload says. */
  const LockedInflation: real := 0.06

  /** The plan's inputs, each missing key replaced by its default; the risk profile is lower-cased. */
  function PayloadInputs(data: Payload): (inputs: RetirementInputs)
    ensures inputs.currentAge == data.currentAge.GetOr(30)
    ensures inputs.retirementAge == data.retirementAge.GetOr(60)
    ensures inputs.lifeExpectancy == data.lifeExpectancy.GetOr(85)
    ensures inputs.currentAnnualExpenses == data.currentAnnualExpenses.GetOr(600000.0)
    ensures inputs.currentInvestments == data.currentInvestments.GetOr(0.0)
    ensures inputs.currentAnnualIncome == data.currentAnnualIncome.GetOr(0.0)
    ensures inputs.riskProfile == Lower(data.riskProfile.GetOr("moderate"))
    ensures inputs.dependents == data.dependents.GetOr("self_spouse")
    ensures inputs.inflationRate == LockedInflation
  {
    RetirementInputs(
      currentAge := data.currentAge.GetOr(30),
      retirementAge := data.retirementAge.GetOr(60),
      lifeExpectancy := data.lifeExpectancy.GetOr(85),
      currentAnnualExpenses := data.currentAnnualExpenses.GetOr(600000.0),
      currentInvestments := data.currentInvestments.GetOr(0.0),
      currentAnnualIncome := data.currentAnnualIncome.GetOr(0.0),
      riskProfile := Lower(data.riskProfile.GetOr("moderate")),
      dependents := data.dependents.GetOr("self_spouse"),
      inflationRate := LockedInflation)
  }

  /** `perform_calculation`: the plan for the payload's inputs, and those inputs. */
  function PerformCalculation(data: Payload): (out: (RetirementResult, RetirementInputs))
    ensures out.1 == PayloadInputs(data)
    ensures out.0 == CalculateRetirementPlan(out.1)
    ensures out.0.currentAge == data.currentAge.GetOr(30) && out.0.retirementAge == data.retirementAge.GetOr(60)
    ensures out.0.inflationRate == LockedInflation
  {
    var inputs := PayloadInputs(data);
    (CalculateRetirementPlan(inputs), inputs)
  }

  /** With nothing collected, every input takes its default. */
  lemma EmptyPayloadInputs()
    ensures PayloadInputs(EmptyPayload)
            == RetirementInputs(30, 60, 85, 600000.0, 0.0, 0.0, "moderate", "self_spouse", 0.06)
  {
    var inputs := PayloadInputs(EmptyPayload);
    LowerOfNoUpper("moderate");
    assert inputs.riskProfile == "moderate";
    assert inputs.dependents == "self_spouse";
  }

  /** With nothing collected, the plan is for a 30-year-old retiring at 60 and living to 85. */
  lemma EmptyPayloadPlan()
    ensures var (result, inputs) := PerformCalculation(EmptyPayload);
      && inputs == RetirementInputs(30, 60, 85, 600000.0, 0.0, 0.0, "moderate", "self_spouse", 0.06)
      && result.yearsToRetirement == 30 && result.retirementDuration == 25
      && result.expectedReturnRate == 0.12
      && result.inflationRate == 0.06
      && !result.incomeExpenseFlag
  {
    EmptyPayloadInputs();
    ModerateRate();
  }

  /** An inflation rate sent by the assistant changes nothing. */
  lemma InflationIsLocked(data: Payload, rate: real)
    ensures PerformCalculation(data.(inflationRate := Some(rate))) == PerformCalculation(data)
    ensures PerformCalculation(data).0.inflationRate == LockedInflation
  {
  }

  /** The expected return follows the profile as the assistant wrote it, in any letter case. */
  lemma ReturnFollowsProfile(data: Payload)
    ensures PerformCalculation(data).0.expectedReturnRate == ReturnRate(data.riskProfile.GetOr("moderate"))
  {
    ReturnRateCaseInsensitive(data.riskProfile.GetOr("moderate"));
  }

  // ---------------------------------------------------------------------------
  // The "calculation ready" marker
  // ---------------------------------------------------------------------------

  /** The token with which the assistant announces that all the data is collected. */
  const Marker: string := "CALCULATION_READY"

  /**
   * `extract_calculation_data`: nothing without the marker; with it, whatever the JSON
   * extraction (`parsed`) found in the reply.
   */
  function ExtractCalculationData(response: string, parsed: Option<Payload>): (r: Option<Payload>)
    ensures !Contains(response, Marker) ==> r.None?
    ensures Contains(response, Marker) ==> r == parsed
  {
    if !Contains(response, Marker) then None else parsed
  }

  /** How a chat message is shown. */
  datatype Shown =
    | AsIs(content: string)              // the message as it is
    | Ready(before: Option<string>)      // the text before the marker, if any, then the "all collected" notice

  /** The chat history's rendering of a message: a message with the marker loses the marker and all after it. */
  function DisplayMessage(content: string): (d: Shown)
    ensures !Contains(content, Marker) ==> d == AsIs(content)
    ensures Contains(content, Marker) ==> d.Ready?
    ensures d.Ready? ==> d.before == (if Strip(BeforeFirst(content, Marker)) == [] then None
                                   else Some(Strip(BeforeFirst(content, Marker))))
  {
    if Contains(content, Marker) then
      var before := Strip(BeforeFirst(content, Marker));
      Ready(if before == [] then None else Some(before))
    else
      AsIs(content)
  }

  /** A slice of a string without `pat` has no `pat` either. */
  lemma SliceLacks(s: string, a: int, b: int, pat: string)
    requires 0 <= a <= b <= |s| && !Contains(s, pat)
    ensures !Contains(s[a..b], pat)
  {
    var t := s[a..b];
    forall j | OccursAt(t, pat, j) ensures OccursAt(s, pat, a + j) {
      var u, v := t[j..j + |pat|], s[a + j..a + j + |pat|];
      forall k | 0 <= k < |u| ensures u[k] == v[k] {
        assert u[k] == t[j + k] == s[a + j + k];
      }
    }
  }

  /**
   * What is shown of a message with the marker is non-blank text that came before the
   * marker's first occurrence, without its surrounding white space: the marker itself, and
   * the JSON after it, are never shown.
   */
  lemma ShownTextPrecedesMarker(content: string)
    requires Contains(content, Marker)
    ensures var d := DisplayMessage(content);
      d.before.Some? ==>
        && d.before.value != []
        && !Contains(d.before.value, Marker)
        && !IsSpace(d.before.value[0]) && !IsSpace(d.before.value[|d.before.value| - 1])
        && exists a, b :: 0 <= a <= b <= |content| && OccursAt(content, Marker, |BeforeFirst(content, Marker)|)
                          && b <= |BeforeFirst(content, Marker)| && d.before.value == content[a..b]
  {
    var before := BeforeFirst(content, Marker);
    var t := Strip(before);
    var a, b :| StripsTo(before, a, b, t);
    SliceLacks(before, a, b, Marker);
    assert t == content[a..b];
  }

  // ---------------------------------------------------------------------------
  // Session state
  // ---------------------------------------------------------------------------

  datatype Role = User | Assistant

  datatype ChatMessage = ChatMessage(role: Role, content: string)

  /** The language-model client: created from the environment's key, which is not part of this model. */
  datatype Client = Client(apiKey: string)

  /** The keys of the per-session state. */
  datatype Key =
    | Messages | CalculationDone | Result | Inputs | CollectedData | OpenAIClient | WhatIfMode | FollowupMessages

  const AllKeys: set<Key> :=
    {Messages, CalculationDone, Result, Inputs, CollectedData, OpenAIClient, WhatIfMode, FollowupMessages}

  /** The keys a reset writes: all but the client. */
  const ResetKeys: set<Key> := AllKeys - {OpenAIClient}

  /**
   * The per-session state: which keys are set (`present`) and the value under each key. The
   * value of a key that is not set means nothing.
   */
  datatype SessionState = SessionState(
    present: set<Key>,
    messages: seq<ChatMessage>,
    calculationDone: bool,
    result: Option<RetirementResult>,
    inputs: Option<RetirementInputs>,
    collectedData: Option<Payload>,
    openaiClient: Option<Client>,
    whatifMode: bool,
    followupMessages: seq<ChatMessage>)

  /** A session with no key set; its values are the ones initialisation gives each key. */
  const Blank: SessionState := SessionState({}, [], false, None, None, None, None, false, [])

  /** `s` and `t` hold the same value under `k`. */
  predicate SameAt(s: SessionState, t: SessionState, k: Key)
  {
    match k
    case Messages => s.messages == t.messages
    case CalculationDone => s.calculationDone == t.calculationDone
    case Result => s.result == t.result
    case Inputs => s.inputs == t.inputs
    case CollectedData => s.collectedData == t.collectedData
    case OpenAIClient => s.openaiClient == t.openaiClient
    case WhatIfMode => s.whatifMode == t.whatifMode
    case FollowupMessages => s.followupMessages == t.followupMessages
  }

  /** Sets the key `k` to its initial value unless it is already set: one `if` of `init_session_state`. */
  function SetDefaultState(s: SessionState, k: Key): (t: SessionState)
    ensures t.present == s.present + {k}
  {
    if k in s.present then s
    else
      var t := match k
        case Messages => s.(messages := [])
        case CalculationDone => s.(calculationDone := false)
        case Result => s.(result := None)
        case Inputs => s.(inputs := None)
        case CollectedData => s.(collectedData := None)
        case OpenAIClient => s.(openaiClient := None)
        case WhatIfMode => s.(whatifMode := false)
        case FollowupMessages => s.(followupMessages := []);
      t.(present := s.present + {k})
  }

  /** A default leaves every other key, and a key already set, as it was; an unset key gets its initial value. */
  lemma SetDefaultAgrees(s: SessionState, j: Key, k: Key)
    ensures k != j || k in s.present ==> SameAt(SetDefaultState(s, j), s, k)
    ensures k == j && k !in s.present ==> SameAt(SetDefaultState(s, j), Blank, k)
  {
  }

  /** `init_session_state`: the eight keys' defaults, in the order the function sets them. */
  function InitState(s: SessionState): (t: SessionState)
    ensures t.present == s.present + AllKeys
  {
    var s1 := SetDefaultState(s, Messages);
    var s2 := SetDefaultState(s1, CalculationDone);
    var s3 := SetDefaultState(s2, Result);
    var s4 := SetDefaultState(s3, Inputs);
    var s5 := SetDefaultState(s4, CollectedData);
    var s6 := SetDefaultState(s5, OpenAIClient);
    var s7 := SetDefaultState(s6, WhatIfMode);
    SetDefaultState(s7, FollowupMessages)
  }

  lemma AllKeysComplete(k: Key)
    ensures k in AllKeys
  {
  }

  /**
   * One default, seen from a single key `k`: before the key is set it still holds the value it
   * had in `s`, and once set it holds `ref`'s (the old value when `s` had the key, else the initial one).
   */
  lemma SetDefaultTracks(s: SessionState, prev: SessionState, j: Key, k: Key)
    requires s.present <= prev.present
    requires SameAt(prev, if k in prev.present then (if k in s.present then s else Blank) else s, k)
    ensures var next := SetDefaultState(prev, j);
      s.present <= next.present
      && SameAt(next, if k in next.present then (if k in s.present then s else Blank) else s, k)
  {
    SetDefaultAgrees(prev, j, k);
  }

  /** After initialisation the key `k` holds its old value if it was set, and its initial value if not. */
  lemma InitAt(s: SessionState, k: Key)
    ensures SameAt(InitState(s), if k in s.present then s else Blank, k)
  {
    var s1 := SetDefaultState(s, Messages);
    var s2 := SetDefaultState(s1, CalculationDone);
    var s3 := SetDefaultState(s2, Result);
    var s4 := SetDefaultState(s3, Inputs);
    var s5 := SetDefaultState(s4, CollectedData);
    var s6 := SetDefaultState(s5, OpenAIClient);
    var s7 := SetDefaultState(s6, WhatIfMode);
    SetDefaultTracks(s, s, Messages, k);
    SetDefaultTracks(s, s1, CalculationDone, k);
    SetDefaultTracks(s, s2, Result, k);
    SetDefaultTracks(s, s3, Inputs, k);
    SetDefaultTracks(s, s4, CollectedData, k);
    SetDefaultTracks(s, s5, OpenAIClient, k);
    SetDefaultTracks(s, s6, WhatIfMode, k);
    SetDefaultTracks(s, s7, FollowupMessages, k);
    AllKeysComplete(k);
  }

  /** Initialisation leaves every key that is set alone and gives every other key its initial value. */
  lemma InitOnlyFillsGaps(s: SessionState)
    ensures forall k :: k in s.present ==> SameAt(InitState(s), s, k)
    ensures forall k :: k !in s.present ==> SameAt(InitState(s), Blank, k)
  {
    forall k
      ensures k in s.present ==> SameAt(InitState(s), s, k)
      ensures k !in s.present ==> SameAt(InitState(s), Blank, k)
    {
      InitAt(s, k);
    }
  }

  /** Once every key is set, initialisation changes nothing. */
  lemma InitOfInitialised(s: SessionState)
    requires AllKeys <= s.present
    ensures InitState(s) == s
  {
  }

  /** A second initialisation changes nothing. */
  lemma InitIdempotent(s: SessionState)
    ensures InitState(InitState(s)) == InitState(s)
  {
    InitOfInitialised(InitState(s));
  }

  /** A session seen for the first time starts from the initial values. */
  lemma InitOfNewSession(s: SessionState)
    requires s.present == {}
    ensures InitState(s) == Blank.(present := AllKeys)
  {
  }

  /** `reset_chat`: every key but the client gets its initial value. */
  function ResetState(s: SessionState): (t: SessionState)
    ensures t.present == s.present + ResetKeys
  {
    Blank.(present := s.present + ResetKeys, openaiClient := s.openaiClient)
  }

  /** A reset gives every key but the client its initial value and keeps the client. */
  lemma ResetKeepsOnlyClient(s: SessionState)
    ensures forall k :: k in ResetKeys ==> SameAt(ResetState(s), Blank, k)
    ensures SameAt(ResetState(s), s, OpenAIClient)
  {
  }

  /** After a reset, the session is what a new session that already holds the client starts as. */
  lemma ResetIsFreshStart(s: SessionState)
    requires OpenAIClient in s.present
    ensures InitState(ResetState(s)) == InitState(Blank.(present := {OpenAIClient}, openaiClient := s.openaiClient))
  {
    assert s.present + ResetKeys == AllKeys by {
      forall k | k in s.present ensures k in AllKeys {
        AllKeysComplete(k);
      }
    }
    InitOfInitialised(ResetState(s));
  }

  /**
   * The session's invariant: all keys set, and `calculation_done` holds exactly when the result,
   * the inputs and the collected data are set, which then belong together.
   */
  predicate PlanConsistent(s: SessionState)
  {
    && AllKeys <= s.present
    && (s.calculationDone <==> s.result.Some?)
    && (s.result.Some? <==> s.inputs.Some?)
    && (s.inputs.Some? <==> s.collectedData.Some?)
    && (s.calculationDone ==>
          && NonEmpty(s.collectedData.value)
          && (s.result.value, s.inputs.value) == PerformCalculation(s.collectedData.value))
  }

  /** One run of the page: what the user did and what came back from outside. */
  datatype Run = Run(
    resetPressed: bool,            // the sidebar's "Start New Plan" button
    apiKey: string,                // the environment's language-model key; empty when it is not set
    prompt: Option<string>,        // what the user typed in the chat box, if anything
    reply: string,                 // the assistant's reply to it
    parsed: Option<Payload>)       // the JSON object found in that reply, if any

  /** `os.getenv("OPENAI_API_KEY")` is truthy: set and not empty. */
  predicate HasApiKey(run: Run)
  {
    run.apiKey != []
  }

  /** The chat box returned something truthy: a message that is not empty. */
  predicate Typed(run: Run)
  {
    run.prompt.Some? && run.prompt.value != []
  }

  /** `get_openai_client`: the session's client, created from the key the first time there is one. */
  function CachedClient(client: Option<Client>, apiKey: string): (c: Option<Client>)
    ensures client.Some? ==> c == client
    ensures client.None? && apiKey != [] ==> c == Some(Client(apiKey))
    ensures apiKey == [] ==> c == client
  {
    if client.None? && apiKey != [] then Some(Client(apiKey)) else client
  }

  /** The plan recorded when the reply carries a non-empty object; otherwise nothing changes. */
  function RecordPlan(s: SessionState, reply: string, parsed: Option<Payload>): SessionState
  {
    var calcData := ExtractCalculationData(reply, parsed);
    if calcData.Some? && NonEmpty(calcData.value) then
      var (result, inputs) := PerformCalculation(calcData.value);
      s.(collectedData := calcData, result := Some(result), inputs := Some(inputs), calculationDone := true)
    else s
  }

  /**
   * A collection-phase turn: the user's answer, the reply, and the plan when the reply carries
   * the data. The chat call caches the client on the way.
   */
  function CollectionTurn(s: SessionState, apiKey: string, prompt: string, reply: string, parsed: Option<Payload>)
    : (t: SessionState)
    ensures t.messages == s.messages + [ChatMessage(User, prompt), ChatMessage(Assistant, reply)]
    ensures t.followupMessages == s.followupMessages && t.present == s.present
    ensures t.openaiClient == CachedClient(s.openaiClient, apiKey)
    ensures t.calculationDone == (s.calculationDone || (ExtractCalculationData(reply, parsed).Some? && NonEmpty(parsed.value)))
    ensures var u := s.(messages := t.messages, openaiClient := t.openaiClient);
      if Contains(reply, Marker) && parsed.Some? && NonEmpty(parsed.value) then
        t == u.(collectedData := parsed, result := Some(PerformCalculation(parsed.value).0),
                inputs := Some(PerformCalculation(parsed.value).1), calculationDone := true)
      else t == u
  {
    var s1 := s.(messages := s.messages + [ChatMessage(User, prompt)]);
    var s2 := s1.(openaiClient := CachedClient(s1.openaiClient, apiKey));
    var s3 := RecordPlan(s2, reply, parsed);
    s3.(messages := s3.messages + [ChatMessage(Assistant, reply)])
  }

  /**
   * A follow-up turn: the question and its answer are added to the follow-up conversation, and
   * the chat call caches the client.
   */
  function FollowupTurn(s: SessionState, apiKey: string, prompt: string, reply: string): (t: SessionState)
    ensures t.followupMessages == s.followupMessages + [ChatMessage(User, prompt), ChatMessage(Assistant, reply)]
    ensures t == s.(followupMessages := t.followupMessages, openaiClient := CachedClient(s.openaiClient, apiKey))
  {
    s.(followupMessages := s.followupMessages + [ChatMessage(User, prompt), ChatMessage(Assistant, reply)],
       openaiClient := CachedClient(s.openaiClient, apiKey))
  }

  /** What one run of `main` does once the session is initialised. */
  function Dispatch(s0: SessionState, run: Run, greeting: string): (t: SessionState)
    ensures !run.resetPressed ==> s0.messages <= t.messages && s0.followupMessages <= t.followupMessages
    ensures !run.resetPressed && s0.calculationDone ==>
              t.calculationDone && t.result == s0.result && t.inputs == s0.inputs
    ensures run.resetPressed ==> t.messages == [] && !t.calculationDone && t.result.None?
    ensures s0.openaiClient.Some? ==> t.openaiClient == s0.openaiClient
  {
    if run.resetPressed then ResetState(s0)
    else if !HasApiKey(run) then s0
    else if s0.messages == [] then s0.(messages := [ChatMessage(Assistant, greeting)])
    else if !Typed(run) then s0
    else if !s0.calculationDone then CollectionTurn(s0, run.apiKey, run.prompt.value, run.reply, run.parsed)
    else FollowupTurn(s0, run.apiKey, run.prompt.value, run.reply)
  }

  /** The state after one run of `main`. */
  function MainRun(s: SessionState, run: Run, greeting: string): (t: SessionState)
    ensures AllKeys <= t.present
    ensures OpenAIClient in s.present && s.openaiClient.Some? ==> t.openaiClient == s.openaiClient
    ensures run.resetPressed ==> t.messages == [] && !t.calculationDone
  {
    InitAt(s, OpenAIClient);
    Dispatch(InitState(s), run, greeting)
  }

  /**
   * The conversation sent to the assistant once the session is initialised, if one is, as the
   * page sends it: in the follow-up phase the question is already stored when `chat_followup`
   * adds it again.
   */
  function DispatchRequest(s0: SessionState, run: Run): (r: Option<seq<ChatMessage>>)
    ensures r.Some? <==> !run.resetPressed && HasApiKey(run) && s0.messages != [] && Typed(run)
    ensures r.Some? ==> |r.value| >= 1 && r.value[|r.value| - 1] == ChatMessage(User, run.prompt.value)
  {
    if run.resetPressed || !HasApiKey(run) || s0.messages == [] || !Typed(run) then None
    else if !s0.calculationDone then Some(s0.messages + [ChatMessage(User, run.prompt.value)])
    else Some(FollowupRequestAsWritten(s0.followupMessages + [ChatMessage(User, run.prompt.value)], run.prompt.value))
  }

  /** The conversation sent to the assistant during the run, if one is (the system prompt not included). */
  function MainRequest(s: SessionState, run: Run): (r: Option<seq<ChatMessage>>)
    ensures r.Some? ==> !run.resetPressed && HasApiKey(run) && Typed(run)
    ensures r.Some? ==> |r.value| >= 1 && r.value[|r.value| - 1] == ChatMessage(User, run.prompt.value)
  {
    DispatchRequest(InitState(s), run)
  }

  /**
   * The conversation the page evidently means to send: the stored conversation of the current
   * phase followed by the user's message, once.
   */
  function IntendedRequest(s0: SessionState, run: Run): (r: Option<seq<ChatMessage>>)
    ensures r.Some? <==> DispatchRequest(s0, run).Some?
    ensures r.Some? ==> r.value == (if s0.calculationDone then s0.followupMessages else s0.messages)
                                   + [ChatMessage(User, run.prompt.value)]
  {
    if run.resetPressed || !HasApiKey(run) || s0.messages == [] || !Typed(run) then None
    else if !s0.calculationDone then Some(s0.messages + [ChatMessage(User, run.prompt.value)])
    else Some(s0.followupMessages + [ChatMessage(User, run.prompt.value)])
  }

  /** Every step after initialisation keeps the invariant. */
  lemma DispatchConsistent(s0: SessionState, run: Run, greeting: string)
    requires PlanConsistent(s0)
    ensures PlanConsistent(Dispatch(s0, run, greeting))
  {
    if !run.resetPressed && HasApiKey(run) && s0.messages != [] && Typed(run) && !s0.calculationDone {
      var calcData := ExtractCalculationData(run.reply, run.parsed);
      if calcData.Some? && NonEmpty(calcData.value) {
        var t := Dispatch(s0, run, greeting);
        assert t.collectedData == calcData;
        assert (t.result.value, t.inputs.value) == PerformCalculation(calcData.value);
      }
    }
  }

  /** Every run keeps the invariant; a new session has it after its first run. */
  lemma MainRunConsistent(s: SessionState, run: Run, greeting: string)
    requires s.present == {} || PlanConsistent(s)
    ensures PlanConsistent(MainRun(s, run, greeting))
  {
    if s.present == {} {
      InitOfNewSession(s);
    } else {
      InitOfInitialised(s);
    }
    DispatchConsistent(InitState(s), run, greeting);
  }

  /**
   * In the collection phase a typed answer adds the answer and the reply to the conversation;
   * the plan is made exactly when the reply carries the marker and the extraction found a
   * non-empty object, and then from that object.
   */
  lemma CollectionPhase(s: SessionState, run: Run, greeting: string)
    requires PlanConsistent(s) && !s.calculationDone && s.messages != []
    requires !run.resetPressed && HasApiKey(run) && Typed(run)
    ensures var t := MainRun(s, run, greeting);
      && t.messages == s.messages + [ChatMessage(User, run.prompt.value), ChatMessage(Assistant, run.reply)]
      && t.followupMessages == s.followupMessages
      && t.openaiClient == CachedClient(s.openaiClient, run.apiKey) && t.openaiClient.Some?
      && (t.calculationDone <==> Contains(run.reply, Marker) && run.parsed.Some? && NonEmpty(run.parsed.value))
      && (t.calculationDone ==>
            t.collectedData == run.parsed && t.result == Some(PerformCalculation(run.parsed.value).0))
  {
    InitOfInitialised(s);
  }

  /** Once the plan is made, typed questions go to the follow-up conversation and the plan stays. */
  lemma FollowupPhase(s: SessionState, run: Run, greeting: string)
    requires PlanConsistent(s) && s.calculationDone && s.messages != []
    requires !run.resetPressed && HasApiKey(run) && Typed(run)
    ensures var t := MainRun(s, run, greeting);
      && t == s.(followupMessages := s.followupMessages + [ChatMessage(User, run.prompt.value),
                                                          ChatMessage(Assistant, run.reply)],
                 openaiClient := CachedClient(s.openaiClient, run.apiKey))
      && t.openaiClient.Some?
  {
    InitOfInitialised(s);
  }

  /** The greeting opens an empty conversation, and nothing else happens in that run. */
  lemma GreetingOpens(s: SessionState, run: Run, greeting: string)
    requires PlanConsistent(s) && s.messages == []
    requires !run.resetPressed && HasApiKey(run)
    ensures MainRun(s, run, greeting) == s.(messages := [ChatMessage(Assistant, greeting)])
    ensures MainRequest(s, run).None?
  {
    InitOfInitialised(s);
  }

  /**
   * A run without a key, or with an opened conversation and nothing typed, only initialises the
   * session and sends nothing.
   */
  lemma IdleRunOnlyInitialises(s: SessionState, run: Run, greeting: string)
    requires !run.resetPressed
    requires !HasApiKey(run) || (InitState(s).messages != [] && !Typed(run))
    ensures MainRun(s, run, greeting) == InitState(s)
    ensures MainRequest(s, run).None?
  {
  }

  /** Only the reset button ends the follow-up phase. */
  lemma PlanStaysUntilReset(s: SessionState, run: Run, greeting: string)
    requires PlanConsistent(s) && s.calculationDone
    ensures var t := MainRun(s, run, greeting);
      !run.resetPressed ==> t.calculationDone && t.result == s.result && t.inputs == s.inputs
    ensures run.resetPressed ==> !MainRun(s, run, greeting).calculationDone
  {
    InitOfInitialised(s);
  }

  /**
   * In the corrected page, what is sent to the assistant is the stored conversation as it stands
   * after the user's message.
   */
  lemma RequestIsStoredConversation(s: SessionState, run: Run, greeting: string)
    requires PlanConsistent(s) && s.messages != []
    requires !run.resetPressed && HasApiKey(run) && Typed(run)
    ensures var t := MainRun(s, run, greeting);
      var r := IntendedRequest(InitState(s), run);
      && r.Some?
      && (if s.calculationDone then t.followupMessages else t.messages)
         == r.value + [ChatMessage(Assistant, run.reply)]
  {
    InitOfInitialised(s);
    var q := run.prompt.value;
    if s.calculationDone {
      assert MainRun(s, run, greeting) == FollowupTurn(s, run.apiKey, q, run.reply);
    } else {
      assert MainRun(s, run, greeting) == CollectionTurn(s, run.apiKey, q, run.reply, run.parsed);
    }
  }

  /**
   * As written, the collection phase sends the intended conversation, and the follow-up phase
   * sends it with the question once more at the end.
   */
  lemma MainRequestAgainstIntended(s: SessionState, run: Run)
    requires PlanConsistent(s)
    ensures var i := IntendedRequest(InitState(s), run);
      && (MainRequest(s, run).Some? <==> i.Some?)
      && (i.Some? && !s.calculationDone ==> MainRequest(s, run) == i)
      && (i.Some? && s.calculationDone ==>
            MainRequest(s, run).value == i.value + [ChatMessage(User, run.prompt.value)])
  {
    InitOfInitialised(s);
  }

  /** A run that talks to the assistant leaves the session with a client, and a client once made is kept. */
  lemma ClientIsCachedOnce(s: SessionState, run: Run, greeting: string)
    requires PlanConsistent(s)
    ensures MainRequest(s, run).Some? ==> MainRun(s, run, greeting).openaiClient.Some?
    ensures s.openaiClient.Some? ==> MainRun(s, run, greeting).openaiClient == s.openaiClient
    ensures MainRequest(s, run).Some? && s.openaiClient.None? ==>
              MainRun(s, run, greeting).openaiClient == Some(Client(run.apiKey))
  {
    InitOfInitialised(s);
  }

  /** The session's state, kept in place and updated by the page's handlers. */
  class Session {
    var present: set<Key>
    var messages: seq<ChatMessage>
    var calculationDone: bool
    var result: Option<RetirementResult>
    var inputs: Option<RetirementInputs>
    var collectedData: Option<Payload>
    var openaiClient: Option<Client>
    var whatifMode: bool
    var followupMessages: seq<ChatMessage>

    function State(): SessionState
      reads this
    {
      SessionState(present, messages, calculationDone, result, inputs, collectedData,
                   openaiClient, whatifMode, followupMessages)
    }

    /** A session in which no key is set yet. */
    constructor ()
      ensures State() == Blank
    {
      present, messages, calculationDone, result, inputs := {}, [], false, None, None;
      collectedData, openaiClient, whatifMode, followupMessages := None, None, false, [];
    }

    /** Gives the key `k` its initial value when it is not set: one `if` of `init_session_state`. */
    method SetDefault(k: Key)
      modifies this
      ensures State() == SetDefaultState(old(State()), k)
    {
      if k !in present {
        match k {
          case Messages => messages := [];
          case CalculationDone => calculationDone := false;
          case Result => result := None;
          case Inputs => inputs := None;
          case CollectedData => collectedData := None;
          case OpenAIClient => openaiClient := None;
          case WhatIfMode => whatifMode := false;
          case FollowupMessages => followupMessages := [];
        }
        present := present + {k};
      }
    }

    method InitSessionState()
      modifies this
      ensures State() == InitState(old(State()))
    {
      SetDefault(Messages);
      SetDefault(CalculationDone);
      SetDefault(Result);
      SetDefault(Inputs);
      SetDefault(CollectedData);
      SetDefault(OpenAIClient);
      SetDefault(WhatIfMode);
      SetDefault(FollowupMessages);
    }

    method ResetChat()
      modifies this
      ensures State() == ResetState(old(State()))
    {
      messages := [];
      calculationDone := false;
      result := None;
      inputs := None;
      collectedData := None;
      whatifMode := false;
      followupMessages := [];
      present := present + ResetKeys;
    }

    /** `get_openai_client`: creates the client from the key the first time there is one. */
    method GetOpenAIClient(apiKey: string) returns (client: Option<Client>)
      modifies this`openaiClient
      ensures openaiClient == CachedClient(old(openaiClient), apiKey)
      ensures client == openaiClient
    {
      if openaiClient.None? {
        if apiKey != [] {
          openaiClient := Some(Client(apiKey));
        }
      }
      client := openaiClient;
    }

    /** Records the plan when the reply carries a non-empty object. */
    method RecordCalculation(reply: string, parsed: Option<Payload>)
      modifies this
      ensures State() == RecordPlan(old(State()), reply, parsed)
    {
      var calcData := ExtractCalculationData(reply, parsed);
      if calcData.Some? && NonEmpty(calcData.value) {
        collectedData := calcData;
        var (r, i) := PerformCalculation(calcData.value);
        result := Some(r);
        inputs := Some(i);
        calculationDone := true;
      }
    }

    /** A collection-phase turn of `main`; `request` is the conversation sent to the assistant. */
    method CollectAnswer(apiKey: string, prompt: string, reply: string, parsed: Option<Payload>)
      returns (request: seq<ChatMessage>)
      modifies this
      ensures State() == CollectionTurn(old(State()), apiKey, prompt, reply, parsed)
      ensures request == old(messages) + [ChatMessage(User, prompt)]
    {
      messages := messages + [ChatMessage(User, prompt)];
      request := messages;
      var _ := GetOpenAIClient(apiKey);
      RecordCalculation(reply, parsed);
      messages := messages + [ChatMessage(Assistant, reply)];
    }

    /**
     * A follow-up turn of `main`; `request` is the follow-up conversation sent to the assistant,
     * which `chat_followup` builds from the stored messages, the question already among them.
     */
    method AnswerFollowup(apiKey: string, prompt: string, reply: string) returns (request: seq<ChatMessage>)
      modifies this
      ensures State() == FollowupTurn(old(State()), apiKey, prompt, reply)
      ensures request == FollowupRequestAsWritten(old(followupMessages) + [ChatMessage(User, prompt)], prompt)
    {
      followupMessages := followupMessages + [ChatMessage(User, prompt)];
      var _ := GetOpenAIClient(apiKey);
      request := FollowupRequestAsWritten(followupMessages, prompt);
      followupMessages := followupMessages + [ChatMessage(Assistant, reply)];
    }

    /** One run of `main`; `request` is the conversation sent to the assistant, if one is. */
    method RunMain(run: Run, greeting: string) returns (request: Option<seq<ChatMessage>>)
      modifies this
      ensures State() == MainRun(old(State()), run, greeting)
      ensures request == MainRequest(old(State()), run)
    {
      InitSessionState();
      ghost var s0 := State();
      assert MainRun(old(State()), run, greeting) == Dispatch(s0, run, greeting);
      assert MainRequest(old(State()), run) == DispatchRequest(s0, run);
      request := None;
      if run.resetPressed {
        ResetChat();
      } else if !HasApiKey(run) {
      } else if messages == [] {
        messages := messages + [ChatMessage(Assistant, greeting)];
      } else if !Typed(run) {
      } else if !calculationDone {
        var sent := CollectAnswer(run.apiKey, run.prompt.value, run.reply, run.parsed);
        request := Some(sent);
      } else {
        var sent := AnswerFollowup(run.apiKey, run.prompt.value, run.reply);
        request := Some(sent);
      }
    }
  }

  // ---------------------------------------------------------------------------
  // What-if scenarios on the dashboard
  // ---------------------------------------------------------------------------

  datatype Scenario = Scenario(age: int, result: RetirementResult)

  /** One scenario per age of `ages` later than the current age and other than the planned one, in order. */
  method ScenariosAmong(inputs: RetirementInputs, ages: seq<int>) returns (scenarios: seq<Scenario>)
    ensures var selected := SelectAges(ages, inputs.currentAge, Some(inputs.retirementAge));
      && |scenarios| == |selected|
      && forall i :: 0 <= i < |scenarios| ==> scenarios[i] == Scenario(selected[i], CalculateWhatIfScenario(inputs, selected[i]))
  {
    var exclude := Some(inputs.retirementAge);
    scenarios := [];
    ghost var selected: seq<int> := [];
    for k := 0 to |ages|
      invariant selected == SelectAges(ages[..k], inputs.currentAge, exclude)
      invariant |scenarios| == |selected|
      invariant forall i :: 0 <= i < |scenarios| ==> scenarios[i] == Scenario(selected[i], CalculateWhatIfScenario(inputs, selected[i]))
    {
      assert ages[..k + 1][..k] == ages[..k];
      var age := ages[k];
      if age > inputs.currentAge && age != inputs.retirementAge {
        scenarios := scenarios + [Scenario(age, CalculateWhatIfScenario(inputs, age))];
        selected := selected + [age];
      }
    }
    assert ages[..|ages|] == ages;
  }

  /** The dashboard's scenarios: one per candidate age later than the current age and other than the planned one. */
  method WhatIfScenarios(inputs: RetirementInputs) returns (scenarios: seq<Scenario>)
    ensures var ages := SelectAges(WhatIfAges, inputs.currentAge, Some(inputs.retirementAge));
      && |scenarios| == |ages|
      && forall i :: 0 <= i < |scenarios| ==> scenarios[i] == Scenario(ages[i], CalculateWhatIfScenario(inputs, ages[i]))
  {
    scenarios := ScenariosAmong(inputs, WhatIfAges);
  }

  /** The dashboard's ages are exactly the candidates later than the current age other than the planned one, in increasing order. */
  lemma DashboardAges(inputs: RetirementInputs, a: int)
    ensures var ages := SelectAges(WhatIfAges, inputs.currentAge, Some(inputs.retirementAge));
      && (a in ages <==> a in WhatIfAges && a > inputs.currentAge && a != inputs.retirementAge)
      && Increasing(ages)
  {
    SelectAgesMembership(WhatIfAges, inputs.currentAge, Some(inputs.retirementAge), a);
    SelectAgesIncreasing(WhatIfAges, inputs.currentAge, Some(inputs.retirementAge));
  }

  /** For the default plan (30, retiring at 60) the dashboard offers 55, 58, 62 and 65. */
  lemma DefaultPlanScenarioAges()
    ensures SelectAges(WhatIfAges, 30, Some(60)) == [55, 58, 62, 65]
  {
    var c, e := 30, Some(60);
    assert SelectAges(WhatIfAges[..1], c, e) == [55];
    assert WhatIfAges[..2][..1] == WhatIfAges[..1];
    assert SelectAges(WhatIfAges[..2], c, e) == [55, 58];
    assert WhatIfAges[..3][..2] == WhatIfAges[..2];
    assert SelectAges(WhatIfAges[..3], c, e) == [55, 58];
    assert WhatIfAges[..4][..3] == WhatIfAges[..3];
    assert SelectAges(WhatIfAges[..4], c, e) == [55, 58, 62];
    assert WhatIfAges[..4] == WhatIfAges[..|WhatIfAges| - 1];
  }

  /** The prefix shown before a difference: "+" for an increase, nothing otherwise. */
  function SignOf(diff: real): (sign: string)
    ensures sign == "+" <==> diff > 0.0
    ensures sign == "" <==> diff <= 0.0
  {
    if diff > 0.0 then "+" else ""
  }

  /** The sign and the magnitude shown together determine the difference. */
  lemma SignAndMagnitudeGiveDiff(diff: real)
    ensures diff == (if SignOf(diff) == "+" then Abs(diff) else -Abs(diff))
  {
  }

  /** A scenario card: its SIP, its difference from the base plan shown as a sign and a magnitude, and a reason. */
  datatype Card = Card(age: int, monthlySip: real, diff: real, sign: string, magnitude: real, reason: string)

  const ShorterAccumulation: string := "Shorter accumulation period"
  const LongerAccumulation: string := "Longer accumulation period"

  function CardFor(scenario: Scenario, base: RetirementResult): (c: Card)
    ensures c.age == scenario.age && c.monthlySip == scenario.result.monthlySavingsRounded
    ensures c.diff == scenario.result.monthlySavingsRounded - base.monthlySavingsRounded
    ensures c.sign == "+" <==> c.diff > 0.0
    ensures c.magnitude == Abs(c.diff)
    ensures c.reason == ShorterAccumulation <==> scenario.age < base.retirementAge
    ensures c.reason == LongerAccumulation <==> scenario.age >= base.retirementAge
  {
    var diff := scenario.result.monthlySavingsRounded - base.monthlySavingsRounded;
    Card(scenario.age, scenario.result.monthlySavingsRounded, diff, SignOf(diff), Abs(diff),
         if scenario.age < base.retirementAge then ShorterAccumulation else LongerAccumulation)
  }

  /** The number of columns the dashboard asks for: `min(len(scenarios), 3)`. */
  function ColumnCount(scenarios: seq<Scenario>): (c: nat)
    ensures c <= 3 && c <= |scenarios|
    ensures c == 3 || c == |scenarios|
  {
    if |scenarios| < 3 then |scenarios| else 3
  }

  /** The cards shown: those of the first three scenarios, in order. */
  function Cards(scenarios: seq<Scenario>, base: RetirementResult): (cards: seq<Card>)
    ensures |cards| == ColumnCount(scenarios) && |cards| <= 3
    ensures forall i :: 0 <= i < |cards| ==> cards[i] == CardFor(scenarios[i], base)
  {
    seq(ColumnCount(scenarios), i requires 0 <= i < ColumnCount(scenarios) => CardFor(scenarios[i], base))
  }

  /** A user whose working life ends at or after every later candidate gets no scenario, and the dashboard asks for zero columns. */
  lemma NoScenarioColumns(inputs: RetirementInputs, scenarios: seq<Scenario>)
    requires inputs.currentAge >= 65 || (inputs.currentAge == 64 && inputs.retirementAge == 65)
    requires |scenarios| == |SelectAges(WhatIfAges, inputs.currentAge, Some(inputs.retirementAge))|
    ensures SelectAges(WhatIfAges, inputs.currentAge, Some(inputs.retirementAge)) == []
    ensures ColumnCount(scenarios) == 0
  {
    var c, e := inputs.currentAge, Some(inputs.retirementAge);
    assert SelectAges(WhatIfAges[..1], c, e) == [];
    assert WhatIfAges[..2][..1] == WhatIfAges[..1];
    assert SelectAges(WhatIfAges[..2], c, e) == [];
    assert WhatIfAges[..3][..2] == WhatIfAges[..2];
    assert SelectAges(WhatIfAges[..3], c, e) == [];
    assert WhatIfAges[..4][..3] == WhatIfAges[..3];
    assert SelectAges(WhatIfAges[..4], c, e) == [];
    assert WhatIfAges[..4] == WhatIfAges[..|WhatIfAges| - 1];
  }

  /** Card `i` goes to column `i % 3`, which is one of `n` columns. */
  predicate InColumns(i: int, n: nat)
  {
    0 <= i % 3 < n
  }

  /** The columns the corrected dashboard lays the cards out in: none at all when there is no scenario. */
  function CardColumns(scenarios: seq<Scenario>): (columns: Option<nat>)
    ensures columns.None? <==> scenarios == []
    ensures columns.Some? ==> 1 <= columns.value <= 3 && columns.value == ColumnCount(scenarios)
    ensures columns.Some? ==> forall i :: 0 <= i < ColumnCount(scenarios) ==> InColumns(i, columns.value)
  {
    if scenarios == [] then None else Some(ColumnCount(scenarios))
  }

  /** The default plan's dashboard shows the cards for 55, 58 and 62 and leaves out 65. */
  lemma DefaultPlanCards(inputs: RetirementInputs, scenarios: seq<Scenario>, base: RetirementResult)
    requires inputs.currentAge == 30 && inputs.retirementAge == 60
    requires var ages := SelectAges(WhatIfAges, inputs.currentAge, Some(inputs.retirementAge));
      |scenarios| == |ages| && forall i :: 0 <= i < |scenarios| ==> scenarios[i].age == ages[i]
    ensures var cards := Cards(scenarios, base);
      |cards| == 3 && cards[0].age == 55 && cards[1].age == 58 && cards[2].age == 62
  {
    DefaultPlanScenarioAges();
  }

  // ---------------------------------------------------------------------------
  // The follow-up what-if
  // ---------------------------------------------------------------------------

  const ShorterAndLongerRetirement: string := "shorter accumulation period and longer retirement"
  const LongerAndShorterRetirement: string := "longer accumulation period and shorter retirement"

  /** The what-if added to the follow-up prompt. */
  datatype FollowupWhatIf = FollowupWhatIf(
    newAge: int, scenario: RetirementResult, diff: real, sign: string, magnitude: real, reason: string)

  /**
   * The what-if `chat_followup` computes for the age found in the question, if any: only for
   * an age later than the current age and other than the planned one.
   */
  function FollowupWhatIfFor(requestedAge: Option<int>, result: RetirementResult, inputs: RetirementInputs)
    : (w: Option<FollowupWhatIf>)
    ensures w.Some? <==>
              requestedAge.Some? && requestedAge.value > inputs.currentAge && requestedAge.value != result.retirementAge
    ensures w.Some? ==>
      && w.value.newAge == requestedAge.value
      && w.value.scenario == CalculateWhatIfScenario(inputs, requestedAge.value)
      && w.value.diff == w.value.scenario.monthlySavingsRounded - result.monthlySavingsRounded
      && (w.value.sign == "+" <==> w.value.diff > 0.0)
      && w.value.magnitude == Abs(w.value.diff)
      && (w.value.reason == ShorterAndLongerRetirement <==> w.value.newAge < result.retirementAge)
      && (w.value.reason == LongerAndShorterRetirement <==> w.value.newAge > result.retirementAge)
  {
    match requestedAge
    case None => None
    case Some(newAge) =>
      if newAge > inputs.currentAge && newAge != result.retirementAge then
        var whatif := CalculateWhatIfScenario(inputs, newAge);
        var diff := whatif.monthlySavingsRounded - result.monthlySavingsRounded;
        Some(FollowupWhatIf(newAge, whatif, diff, SignOf(diff), Abs(diff),
                            if newAge < result.retirementAge then ShorterAndLongerRetirement
                            else LongerAndShorterRetirement))
      else None
  }

  /** The one later age the guard turns away is the planned one, whose what-if would only repeat the plan. */
  lemma FollowupSkipsOnlyThePlan(requestedAge: int, result: RetirementResult, inputs: RetirementInputs)
    requires result == CalculateRetirementPlan(inputs) && requestedAge > inputs.currentAge
    ensures FollowupWhatIfFor(Some(requestedAge), result, inputs).None? ==>
              CalculateWhatIfScenario(inputs, requestedAge) == result
  {
    if requestedAge == result.retirementAge {
      WhatIfAtBaseAge(inputs);
    }
  }

  // ---------------------------------------------------------------------------
  // The follow-up request as written
  // ---------------------------------------------------------------------------

  /**
   * The follow-up conversation `chat_followup` sends: the stored follow-up messages, to which
   * `main` has already appended the question, and then the question again.
   */
  function FollowupRequestAsWritten(stored: seq<ChatMessage>, question: string): (r: seq<ChatMessage>)
    ensures |r| == |stored| + 1 && r[..|stored|] == stored
    ensures r[|stored|] == ChatMessage(User, question)
  {
    stored + [ChatMessage(User, question)]
  }

  /** As written, the question reaches the assistant twice in a row. */
  lemma FollowupRequestRepeatsQuestion(history: seq<ChatMessage>, question: string)
    ensures var r := FollowupRequestAsWritten(history + [ChatMessage(User, question)], question);
      && |r| == |history| + 2
      && r[|r| - 2] == r[|r| - 1] == ChatMessage(User, question)
      && r != history + [ChatMessage(User, question)]
  {
    var r := FollowupRequestAsWritten(history + [ChatMessage(User, question)], question);
    assert |r| != |history + [ChatMessage(User, question)]|;
  }
}
