/** The AutoGuard actions: the process-wide task configuration table that
    every builder writes into, the four `*_infer` calls (key check, build,
    request, status check, scan) and the validation the exposed actions do
    before calling them. The network exchange is a parameter: the request the
    call would send is returned, and the service's reply is given. */
module Actions {
  import opened Types
  import opened Config
  import opened Scan
  import Text

  const MissingApiKeyMessage := "AUTOGUARD_API_KEY environment variable not set."
  const MissingEndpointMessage := "Provide the autoguard endpoint in the config"
  const MissingFactcheckEndpointMessage := "Provide the autoguard factcheck endpoint in the config"
  const MissingGuardrailsMessage := "Provide the guardrails in the config"
  const BadDocumentsMessage := "Provide relevant documents in proper format"
  const ServiceFailurePrefix := "AutoGuard call failed with status code "
  const ServiceFailureInfix := ".\nDetails: "

  /** The status code the service answers with when it accepts a request. */
  const OkStatus: nat := 200

  /** The body of the POST a call sends to `url`. */
  datatype Request =
    | GuardRequest(url: string, prompt: string, config: Table)
    | FactcheckRequest(url: string, prompt: string, documents: seq<string>, matchingScores: map<string, real>)

  /** The service's answer: the status code, the body as text (reported on
      failure) and the body's lines, already parsed. */
  datatype Reply = Reply(status: nat, details: string, lines: seq<Line>)

  /** The `relevant_chunks` context entry: one text, a list of texts, or
      something else. An absent entry is the empty list. */
  datatype Chunks = ChunkText(text: string) | ChunkList(items: seq<string>) | ChunkOther

  /** The error raised for a status other than 200: it names the status code
      and ends with the body text. */
  function ServiceFailure(status: nat, details: string): (e: Error)
    ensures e.ValueError?
  {
    ValueError(ServiceFailurePrefix + Text.Decimal(status) + ServiceFailureInfix + details)
  }

  /** The failure message determines the status code and the body text. */
  lemma ServiceFailureDetermines(status1: nat, details1: string, status2: nat, details2: string)
    requires ServiceFailure(status1, details1) == ServiceFailure(status2, details2)
    ensures status1 == status2 && details1 == details2
  {
    var d1, d2 := Text.Decimal(status1), Text.Decimal(status2);
    var tail1, tail2 := ServiceFailureInfix + details1, ServiceFailureInfix + details2;
    assert ServiceFailurePrefix + d1 + ServiceFailureInfix + details1 == ServiceFailurePrefix + (d1 + tail1);
    assert ServiceFailurePrefix + d2 + ServiceFailureInfix + details2 == ServiceFailurePrefix + (d2 + tail2);
    DropPrefix(ServiceFailurePrefix, d1 + tail1, d2 + tail2);
    Text.DigitRunUnique(d1, tail1, d2, tail2);
    DropPrefix(ServiceFailureInfix, details1, details2);
    Text.DecimalRoundTrip(status1);
    Text.DecimalRoundTrip(status2);
  }

  lemma DropPrefix(prefix: string, a: string, b: string)
    requires prefix + a == prefix + b
    ensures a == b
  {
    assert a == (prefix + a)[|prefix|..];
    assert b == (prefix + b)[|prefix|..];
  }

  /** What a call returns once its request is sent: the service failure for
      a status other than 200, else what its scan makes of the lines. */
  function Answered<T>(reply: Reply, verdict: Result<T>): (r: Result<T>)
    ensures reply.status != OkStatus ==> r == Failure(ServiceFailure(reply.status, reply.details))
    ensures reply.status == OkStatus ==> r == verdict
  {
    if reply.status != OkStatus then Failure(ServiceFailure(reply.status, reply.details)) else verdict
  }

  /** `not url`: the endpoint is absent or empty. */
  predicate NoEndpoint(endpoint: Option<string>): (falsy: bool)
    ensures falsy <==> endpoint.None? || |endpoint.value| == 0
  {
    endpoint.None? || endpoint.value == ""
  }

  /** The fact-check action's document list: a text is split into its lines,
      a list is taken as it is, and only a non-empty list is accepted. */
  function NormalizeDocuments(chunks: Chunks): (r: Result<seq<string>>)
    ensures chunks.ChunkText? ==>
      r.Success? && |r.value| >= 1 && Text.Join(r.value, '\n') == chunks.text
      && forall i | 0 <= i < |r.value| :: '\n' !in r.value[i]
    ensures chunks.ChunkList? ==> (r.Success? <==> chunks.items != []) && (r.Success? ==> r.value == chunks.items)
    ensures r.Failure? ==> r.error == ValueError(BadDocumentsMessage)
    ensures chunks.ChunkOther? ==> r.Failure?
  {
    match chunks
    case ChunkText(text) => Success(Text.Split(text, '\n'))
    case ChunkList(items) => if items != [] then Success(items) else Failure(ValueError(BadDocumentsMessage))
    case ChunkOther => Failure(ValueError(BadDocumentsMessage))
  }

  /** `autoguard_factcheck_infer`: the key check, the request (the caller's
      documents and the fact-check thresholds, no task table), the status
      check and the fact-check scan. */
  method FactcheckInfer(apiKey: Option<string>, url: string, text: string, documents: seq<string>,
                        scores: MatchingScores, reply: Reply, parse: string -> Option<real>)
    returns (r: Result<real>, sent: Option<Request>)
    ensures apiKey.None? ==> r == Failure(ValueError(MissingApiKeyMessage)) && sent.None?
    ensures apiKey.Some? ==>
      sent == Some(FactcheckRequest(url, text, documents, ScoresFor(scores, FactcheckTask)))
      && r == Answered(reply, FactcheckScoreOf(reply.lines, parse))
  {
    if apiKey.None? {
      return Failure(ValueError(MissingApiKeyMessage)), None;
    }
    sent := Some(FactcheckRequest(url, text, documents, ScoresFor(scores, FactcheckTask)));
    if reply.status != OkStatus {
      return Failure(ServiceFailure(reply.status, reply.details)), sent;
    }
    r := ScanFactcheck(reply.lines, parse);
  }

  /** `autoguard_factcheck_api`: the key, the fact-check endpoint and the
      documents are checked, in that order, before any request. */
  method FactcheckApi(apiKey: Option<string>, botMessage: string, chunks: Chunks, endpoint: Option<string>,
                      scores: MatchingScores, reply: Reply, parse: string -> Option<real>)
    returns (r: Result<real>, sent: Option<Request>)
    ensures apiKey.None? ==> r == Failure(ValueError(MissingApiKeyMessage)) && sent.None?
    ensures apiKey.Some? && NoEndpoint(endpoint) ==>
      r == Failure(ValueError(MissingFactcheckEndpointMessage)) && sent.None?
    ensures apiKey.Some? && !NoEndpoint(endpoint) && NormalizeDocuments(chunks).Failure? ==>
      r == Failure(ValueError(BadDocumentsMessage)) && sent.None?
    ensures apiKey.Some? && !NoEndpoint(endpoint) && NormalizeDocuments(chunks).Success? ==>
      sent == Some(FactcheckRequest(endpoint.value, botMessage, NormalizeDocuments(chunks).value,
                                    ScoresFor(scores, FactcheckTask)))
      && r == Answered(reply, FactcheckScoreOf(reply.lines, parse))
  {
    if apiKey.None? {
      return Failure(ValueError(MissingApiKeyMessage)), None;
    }
    if NoEndpoint(endpoint) {
      return Failure(ValueError(MissingFactcheckEndpointMessage)), None;
    }
    var documents := NormalizeDocuments(chunks);
    if documents.Failure? {
      return Failure(documents.error), None;
    }
    r, sent := FactcheckInfer(apiKey, endpoint.value, botMessage, documents.value, scores, reply, parse);
  }

  /** The module's state: the one `DEFAULT_CONFIG` table. The builders write
      into it instead of into a copy, so what one call activates is still
      there when the next call builds its request. */
  class AutoGuard {
    var defaultConfig: Table

    ghost predicate Valid()
      reads this
    {
      WellFormed(defaultConfig)
    }

    constructor ()
      ensures Valid() && defaultConfig == DefaultConfig()
    {
      defaultConfig := DefaultConfig();
    }

    /** The generic build loop: every listed task outside the dedicated three
        gets a fresh DETECT record (with its thresholds when any are
        configured), and every listed task gets the override merged in. A
        merge into a task without an entry raises `KeyError`, keeping the
        changes already made. */
    method ActivateGeneric(tasks: seq<string>, scores: MatchingScores, override: Settings)
      returns (failedOn: Option<string>)
      requires Valid()
      modifies this
      ensures Valid()
      ensures Activation(defaultConfig, failedOn) == GenericRun(old(defaultConfig), tasks, scores, override)
    {
      ghost var start := defaultConfig;
      var i := 0;
      while i < |tasks|
        invariant i <= |tasks|
        invariant GenericRun(start, tasks[..i], scores, override) == Activation(defaultConfig, None)
      {
        var task := tasks[i];
        ghost var step := GenericStep(defaultConfig, task, scores, override);
        assert tasks[..i + 1][..i] == tasks[..i];
        assert GenericRun(start, tasks[..i + 1], scores, override) == step;
        if task !in DedicatedTasks {
          var record := map["mode" := Detect];
          if scores != map[] {
            record := record["matching_scores" := Scores(ScoresFor(scores, task))];
          }
          defaultConfig := defaultConfig[task := record];
        }
        if override != map[] {
          if task !in defaultConfig {
            assert step == Activation(defaultConfig, Some(task));
            GenericRunStops(start, tasks, i + 1, scores, override);
            GenericRunFromWellFormed(start, tasks, scores, override);
            return Some(task);
          }
          defaultConfig := defaultConfig[task := defaultConfig[task] + override];
        }
        assert step == Activation(defaultConfig, None);
        i := i + 1;
      }
      assert tasks[..|tasks|] == tasks;
      GenericRunFromWellFormed(start, tasks, scores, override);
      return None;
    }

    /** The toxicity builder: replaces the toxicity record with a fresh
        DETECT record, merges the override into it and then attaches the
        thresholds. (The source installs the fresh record first and fills it
        through the table; nothing observes the table in between, so the
        record is filled here and installed once.) */
    method ActivateToxicity(scores: MatchingScores, override: Settings)
      requires Valid()
      modifies this
      ensures Valid()
      ensures defaultConfig == old(defaultConfig)[ToxicityTask := ToxicityRecord(scores, override)]
    {
      var record := map["mode" := Detect];
      if override != map[] {
        record := record + override;
      }
      if scores != map[] {
        record := record["matching_scores" := Scores(ScoresFor(scores, ToxicityTask))];
      }
      defaultConfig := defaultConfig[ToxicityTask := record];
    }

    /** The PII builder: replaces the PII record with a fresh DETECT record,
        merges the override, writes the caller's entity types and contextual
        rules and then attaches the thresholds. */
    method ActivatePii(entities: seq<string>, rules: seq<seq<string>>, scores: MatchingScores, override: Settings)
      requires Valid()
      modifies this
      ensures Valid()
      ensures defaultConfig == old(defaultConfig)[PiiTask := PiiRecord(entities, rules, scores, override)]
    {
      var record := map["mode" := Detect];
      if override != map[] {
        record := record + override;
      }
      record := record["enabled_types" := StrList(entities)];
      record := record["contextual_rules" := RuleList(rules)];
      if scores != map[] {
        record := record["matching_scores" := Scores(ScoresFor(scores, PiiTask))];
      }
      defaultConfig := defaultConfig[PiiTask := record];
    }

    /** `autoguard_infer`: the key check, the generic build, the request with
        the whole table, the status check and the generic scan. */
    method Infer(apiKey: Option<string>, url: string, text: string, tasks: seq<string>,
                 scores: MatchingScores, override: Settings, reply: Reply)
      returns (r: Result<GenericVerdict>, sent: Option<Request>)
      requires Valid()
      modifies this
      ensures Valid()
      ensures apiKey.None? ==>
        r == Failure(ValueError(MissingApiKeyMessage)) && sent.None? && defaultConfig == old(defaultConfig)
      ensures apiKey.Some? ==> defaultConfig == GenericRun(old(defaultConfig), tasks, scores, override).table
      ensures apiKey.Some? && override != map[] && FactcheckTask in tasks ==>
        r == Failure(KeyError(FactcheckTask)) && sent.None?
      ensures apiKey.Some? && (override == map[] || FactcheckTask !in tasks) ==>
        sent == Some(GuardRequest(url, text, defaultConfig))
        && r == Answered(reply, GenericVerdictOf(reply.lines))
    {
      if apiKey.None? {
        return Failure(ValueError(MissingApiKeyMessage)), None;
      }
      GenericRunFromWellFormed(defaultConfig, tasks, scores, override);
      var failedOn := ActivateGeneric(tasks, scores, override);
      if failedOn.Some? {
        return Failure(KeyError(failedOn.value)), None;
      }
      sent := Some(GuardRequest(url, text, defaultConfig));
      if reply.status != OkStatus {
        return Failure(ServiceFailure(reply.status, reply.details)), sent;
      }
      r := ScanGeneric(reply.lines);
    }

    /** `autoguard_toxicity_infer`: the key check, the toxicity build, the
        request, the status check and the toxicity scan. */
    method ToxicityInfer(apiKey: Option<string>, url: string, text: string,
                         scores: MatchingScores, override: Settings, reply: Reply)
      returns (r: Result<ToxicityVerdict>, sent: Option<Request>)
      requires Valid()
      modifies this
      ensures Valid()
      ensures apiKey.None? ==>
        r == Failure(ValueError(MissingApiKeyMessage)) && sent.None? && defaultConfig == old(defaultConfig)
      ensures apiKey.Some? ==>
        defaultConfig == old(defaultConfig)[ToxicityTask := ToxicityRecord(scores, override)]
        && sent == Some(GuardRequest(url, text, defaultConfig))
        && r == Answered(reply, ToxicityVerdictOf(reply.lines))
    {
      if apiKey.None? {
        return Failure(ValueError(MissingApiKeyMessage)), None;
      }
      ActivateToxicity(scores, override);
      sent := Some(GuardRequest(url, text, defaultConfig));
      if reply.status != OkStatus {
        return Failure(ServiceFailure(reply.status, reply.details)), sent;
      }
      r := ScanToxicity(reply.lines);
    }

    /** `autoguard_pii_infer`: the key check, the PII build, the request, the
        status check and the PII scan. */
    method PiiInfer(apiKey: Option<string>, url: string, text: string, entities: seq<string>,
                    rules: seq<seq<string>>, scores: MatchingScores, override: Settings, reply: Reply)
      returns (r: Result<PiiVerdict>, sent: Option<Request>)
      requires Valid()
      modifies this
      ensures Valid()
      ensures apiKey.None? ==>
        r == Failure(ValueError(MissingApiKeyMessage)) && sent.None? && defaultConfig == old(defaultConfig)
      ensures apiKey.Some? ==>
        defaultConfig == old(defaultConfig)[PiiTask := PiiRecord(entities, rules, scores, override)]
        && sent == Some(GuardRequest(url, text, defaultConfig))
        && r == Answered(reply, PiiVerdictOf(reply.lines))
    {
      if apiKey.None? {
        return Failure(ValueError(MissingApiKeyMessage)), None;
      }
      ActivatePii(entities, rules, scores, override);
      sent := Some(GuardRequest(url, text, defaultConfig));
      if reply.status != OkStatus {
        return Failure(ServiceFailure(reply.status, reply.details)), sent;
      }
      r := ScanPii(reply.lines);
    }

    /** `autoguard_input_api`: the endpoint and the configured guardrails are
        checked before the generic call, which gets no override and so can
        never fail on a missing entry. */
    method InputApi(apiKey: Option<string>, userMessage: string, endpoint: Option<string>,
                    guardrails: seq<string>, scores: MatchingScores, reply: Reply)
      returns (r: Result<GenericVerdict>, sent: Option<Request>)
      requires Valid()
      modifies this
      ensures Valid()
      ensures NoEndpoint(endpoint) ==>
        r == Failure(ValueError(MissingEndpointMessage)) && sent.None? && defaultConfig == old(defaultConfig)
      ensures !NoEndpoint(endpoint) && guardrails == [] ==>
        r == Failure(ValueError(MissingGuardrailsMessage)) && sent.None? && defaultConfig == old(defaultConfig)
      ensures !NoEndpoint(endpoint) && guardrails != [] && apiKey.None? ==>
        r == Failure(ValueError(MissingApiKeyMessage)) && sent.None? && defaultConfig == old(defaultConfig)
      ensures !NoEndpoint(endpoint) && guardrails != [] && apiKey.Some? ==>
        defaultConfig == GenericRun(old(defaultConfig), guardrails, scores, map[]).table
        && sent == Some(GuardRequest(endpoint.value, userMessage, defaultConfig))
        && r == Answered(reply, GenericVerdictOf(reply.lines))
    {
      if NoEndpoint(endpoint) {
        return Failure(ValueError(MissingEndpointMessage)), None;
      }
      if guardrails == [] {
        return Failure(ValueError(MissingGuardrailsMessage)), None;
      }
      r, sent := Infer(apiKey, endpoint.value, userMessage, guardrails, scores, map[], reply);
    }

    /** `autoguard_toxicity_input_api`: the toxicity endpoint is checked
        before the toxicity call, which gets no override. */
    method ToxicityInputApi(apiKey: Option<string>, userMessage: string, endpoint: Option<string>,
                            scores: MatchingScores, reply: Reply)
      returns (r: Result<ToxicityVerdict>, sent: Option<Request>)
      requires Valid()
      modifies this
      ensures Valid()
      ensures NoEndpoint(endpoint) ==>
        r == Failure(ValueError(MissingEndpointMessage)) && sent.None? && defaultConfig == old(defaultConfig)
      ensures !NoEndpoint(endpoint) && apiKey.None? ==>
        r == Failure(ValueError(MissingApiKeyMessage)) && sent.None? && defaultConfig == old(defaultConfig)
      ensures !NoEndpoint(endpoint) && apiKey.Some? ==>
        defaultConfig == old(defaultConfig)[ToxicityTask := ToxicityRecord(scores, map[])]
        && sent == Some(GuardRequest(endpoint.value, userMessage, defaultConfig))
        && r == Answered(reply, ToxicityVerdictOf(reply.lines))
    {
      if NoEndpoint(endpoint) {
        return Failure(ValueError(MissingEndpointMessage)), None;
      }
      r, sent := ToxicityInfer(apiKey, endpoint.value, userMessage, scores, map[], reply);
    }

    /** `autoguard_pii_api`: the endpoint is checked before the PII call,
        which gets the configured entity types and rules and no override. */
    method PiiApi(apiKey: Option<string>, userMessage: string, endpoint: Option<string>,
                  entities: seq<string>, rules: seq<seq<string>>, scores: MatchingScores, reply: Reply)
      returns (r: Result<PiiVerdict>, sent: Option<Request>)
      requires Valid()
      modifies this
      ensures Valid()
      ensures NoEndpoint(endpoint) ==>
        r == Failure(ValueError(MissingEndpointMessage)) && sent.None? && defaultConfig == old(defaultConfig)
      ensures !NoEndpoint(endpoint) && apiKey.None? ==>
        r == Failure(ValueError(MissingApiKeyMessage)) && sent.None? && defaultConfig == old(defaultConfig)
      ensures !NoEndpoint(endpoint) && apiKey.Some? ==>
        defaultConfig == old(defaultConfig)[PiiTask := PiiRecord(entities, rules, scores, map[])]
        && sent == Some(GuardRequest(endpoint.value, userMessage, defaultConfig))
        && r == Answered(reply, PiiVerdictOf(reply.lines))
    {
      if NoEndpoint(endpoint) {
        return Failure(ValueError(MissingEndpointMessage)), None;
      }
      r, sent := PiiInfer(apiKey, endpoint.value, userMessage, entities, rules, scores, map[], reply);
    }
  }
}
