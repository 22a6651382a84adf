/** Interpretation of the guard service's streamed answer. Each line of the
    newline-delimited JSON body is taken already parsed: `Blank` for a line
    that is empty once stripped, `Rec` for a record. Each action scans the
    lines in arrival order and returns at its own first match. */
module Scan {
  import opened Types
  import opened Config
  import Text

  /** One line of the streamed response. `outputData` and `response` are
      `None` when the record lacks the `output_data` or `response` key. */
  datatype Line =
    | Blank
    | Rec(task: string, guarded: bool, outputData: Option<seq<string>>, response: Option<Value>)

  /** (True, description) or (False, None). */
  datatype GenericVerdict = Violation(description: string) | NoViolation

  /** (guarded, "Toxicity in text", phrases), or (False, None) when the
      toxicity record never arrives. */
  datatype ToxicityVerdict = ToxicityReport(guarded: bool, description: string, phrases: string) | NoToxicityReport

  /** (guarded, response payload), or (False, None) when the PII record never arrives. */
  datatype PiiVerdict = PiiReport(guarded: bool, payload: Value) | NoPiiReport

  /** Number of characters of label in front of the fact-check score. */
  const ScoreLabelLength := 17

  /** The score reported when the fact-check record never arrives. */
  const FullConsistency: real := 1.0

  /** The position of the first line satisfying `p`, or `|s|` when there is none. */
  function FirstWhere(s: seq<Line>, p: Line -> bool): (i: nat)
    ensures i <= |s|
    ensures forall j | 0 <= j < i :: !p(s[j])
    ensures i < |s| ==> p(s[i])
  {
    if s == [] then 0
    else if p(s[0]) then 0
    else 1 + FirstWhere(s[1..], p)
  }

  lemma FirstWhereAt(s: seq<Line>, p: Line -> bool, i: nat)
    requires i <= |s|
    requires forall j | 0 <= j < i :: !p(s[j])
    requires i < |s| ==> p(s[i])
    ensures FirstWhere(s, p) == i
  {
  }

  /** Where the first match of `a + b` lies: in `a` if `a` has one, else in `b`. */
  lemma FirstWhereConcat(a: seq<Line>, b: seq<Line>, p: Line -> bool)
    ensures FirstWhere(a + b, p) ==
      if FirstWhere(a, p) < |a| then FirstWhere(a, p) else |a| + FirstWhere(b, p)
  {
    var i := FirstWhere(a, p);
    if i < |a| {
      FirstWhereAt(a + b, p, i);
    } else {
      var k := FirstWhere(b, p);
      assert forall j | 0 <= j < |a| + k :: (a + b)[j] == if j < |a| then a[j] else b[j - |a|];
      FirstWhereAt(a + b, p, |a| + k);
    }
  }

  predicate Guarded(l: Line) { l.Rec? && l.guarded }

  predicate ReportsToxicity(l: Line) { l.Rec? && l.task == ToxicityTask }

  predicate ReportsPii(l: Line) { l.Rec? && l.task == PiiTask }

  /** The fact-check scan stops at its record, or fails on a blank line,
      which it hands to the JSON decoder without stripping it. */
  predicate StopsFactcheck(l: Line) { l.Blank? || l.task == FactcheckTask }

  /** `GUARDRAIL_RESPONSE_TEXT[task]` for a guarded record. */
  function Describe(task: string): (r: Result<GenericVerdict>)
    ensures r.Success? <==> task in Descriptions
    ensures r.Success? ==> r.value == Violation(Descriptions[task])
    ensures r.Failure? ==> r.error == KeyError(task)
  {
    if task in Descriptions then Success(Violation(Descriptions[task])) else Failure(KeyError(task))
  }

  /** What the generic check makes of the stream. */
  function GenericVerdictOf(s: seq<Line>): (r: Result<GenericVerdict>)
    ensures r == Success(NoViolation) <==> forall j | 0 <= j < |s| :: !Guarded(s[j])
  {
    var i := FirstWhere(s, Guarded);
    if i == |s| then Success(NoViolation) else Describe(s[i].task)
  }

  /** What the toxicity check makes of the toxicity record. */
  function ToxicityOf(l: Line): (r: Result<ToxicityVerdict>)
    requires l.Rec?
    ensures r.Success? <==> l.outputData.Some?
    ensures r.Failure? ==> r.error == KeyError("output_data")
    ensures r.Success? ==> r.value.ToxicityReport? && r.value.guarded == l.guarded
                           && r.value.description == "Toxicity in text"
  {
    match l.outputData
    case None => Failure(KeyError("output_data"))
    case Some(phrases) => Success(ToxicityReport(l.guarded, Descriptions[ToxicityTask], Text.Join(phrases, ' ')))
  }

  /** The reported phrases string gives back the extracted phrases when it is
      split on spaces, provided there is at least one and none has a space. */
  lemma ToxicityPhrasesRecoverable(l: Line)
    requires l.Rec? && l.outputData.Some? && |l.outputData.value| >= 1
    requires forall i | 0 <= i < |l.outputData.value| :: ' ' !in l.outputData.value[i]
    ensures ToxicityOf(l).Success? && Text.Split(ToxicityOf(l).value.phrases, ' ') == l.outputData.value
  {
    Text.SplitJoin(l.outputData.value, ' ');
  }

  /** What the toxicity check makes of the stream. */
  function ToxicityVerdictOf(s: seq<Line>): (r: Result<ToxicityVerdict>)
    ensures r == Success(NoToxicityReport) <==> forall j | 0 <= j < |s| :: !ReportsToxicity(s[j])
  {
    var i := FirstWhere(s, ReportsToxicity);
    if i == |s| then Success(NoToxicityReport) else ToxicityOf(s[i])
  }

  /** What the PII check makes of the PII record: its payload, verbatim. */
  function PiiOf(l: Line): (r: Result<PiiVerdict>)
    requires l.Rec?
    ensures l.response.Some? ==> r == Success(PiiReport(l.guarded, l.response.value))
    ensures l.response.None? ==> r == Failure(KeyError("response"))
  {
    match l.response
    case None => Failure(KeyError("response"))
    case Some(payload) => Success(PiiReport(l.guarded, payload))
  }

  /** What the PII check makes of the stream. */
  function PiiVerdictOf(s: seq<Line>): (r: Result<PiiVerdict>)
    ensures r == Success(NoPiiReport) <==> forall j | 0 <= j < |s| :: !ReportsPii(s[j])
  {
    var i := FirstWhere(s, ReportsPii);
    if i == |s| then Success(NoPiiReport) else PiiOf(s[i])
  }

  /** `response[17:]`: the text after the score label; empty when the
      response is no longer than the label. */
  function AfterLabel(response: string): (tail: string)
    ensures |response| >= ScoreLabelLength ==> response == response[..ScoreLabelLength] + tail
    ensures |response| <= ScoreLabelLength ==> tail == ""
  {
    if |response| <= ScoreLabelLength then "" else response[ScoreLabelLength..]
  }

  /** `float(resp["response"][17:])`, with `parse` standing for `float`
      (`None` when it raises). A response that is not a string cannot be
      converted. */
  function ScoreOf(response: Option<Value>, parse: string -> Option<real>): (r: Result<real>)
    ensures response.None? ==> r == Failure(KeyError("response"))
    ensures response.Some? && !response.value.Str? ==> r == Failure(TypeError)
    ensures response.Some? && response.value.Str? ==>
      var tail := AfterLabel(response.value.s);
      r == if parse(tail).Some? then Success(parse(tail).value) else Failure(FloatConversionError(tail))
  {
    match response
    case None => Failure(KeyError("response"))
    case Some(Str(text)) =>
      var tail := AfterLabel(text);
      (match parse(tail)
       case Some(score) => Success(score)
       case None => Failure(FloatConversionError(tail)))
    case Some(_) => Failure(TypeError)
  }

  /** What the fact-check scan makes of the stream. */
  function FactcheckScoreOf(s: seq<Line>, parse: string -> Option<real>): (r: Result<real>)
    ensures (forall j | 0 <= j < |s| :: !StopsFactcheck(s[j])) ==> r == Success(FullConsistency)
  {
    var i := FirstWhere(s, StopsFactcheck);
    if i == |s| then Success(FullConsistency)
    else if s[i].Blank? then Failure(JsonDecodeError)
    else ScoreOf(s[i].response, parse)
  }

  /** The first guarded record decides the generic verdict, whatever its task
      and whatever follows; a guarded task without a description is a
      `KeyError`. */
  lemma GenericFirstGuarded(s: seq<Line>, i: nat)
    requires i < |s| && Guarded(s[i])
    requires forall j | 0 <= j < i :: !Guarded(s[j])
    ensures GenericVerdictOf(s) == Describe(s[i].task)
  {
    FirstWhereAt(s, Guarded, i);
  }

  /** Appending lines after a guarded record changes nothing; appending to a
      stream without one leaves the decision to what is appended. */
  lemma GenericConcat(a: seq<Line>, b: seq<Line>)
    ensures GenericVerdictOf(a + b) ==
      if GenericVerdictOf(a) == Success(NoViolation) then GenericVerdictOf(b) else GenericVerdictOf(a)
  {
    FirstWhereConcat(a, b, Guarded);
    var i := FirstWhere(a, Guarded);
    if i < |a| {
      assert (a + b)[i] == a[i];
    } else {
      var k := FirstWhere(b, Guarded);
      if k < |b| {
        assert (a + b)[|a| + k] == b[k];
      }
    }
  }

  /** Blank lines anywhere in the stream do not affect the generic verdict. */
  lemma GenericSkipsBlank(a: seq<Line>, b: seq<Line>)
    ensures GenericVerdictOf(a + [Blank] + b) == GenericVerdictOf(a + b)
  {
    GenericConcat(a, [Blank] + b);
    GenericConcat(a, b);
    GenericConcat([Blank], b);
    assert GenericVerdictOf([Blank]) == Success(NoViolation);
    assert a + [Blank] + b == a + ([Blank] + b);
  }

  /** The first toxicity record decides the toxicity verdict; records of other
      tasks before it are ignored even when guarded. */
  lemma ToxicityFirstReport(s: seq<Line>, i: nat)
    requires i < |s| && ReportsToxicity(s[i])
    requires forall j | 0 <= j < i :: !ReportsToxicity(s[j])
    ensures ToxicityVerdictOf(s) == ToxicityOf(s[i])
  {
    FirstWhereAt(s, ReportsToxicity, i);
  }

  /** The first PII record decides the PII verdict; records of other tasks
      before it are ignored even when guarded. */
  lemma PiiFirstReport(s: seq<Line>, i: nat)
    requires i < |s| && ReportsPii(s[i])
    requires forall j | 0 <= j < i :: !ReportsPii(s[j])
    ensures PiiVerdictOf(s) == PiiOf(s[i])
  {
    FirstWhereAt(s, ReportsPii, i);
  }

  /** The first fact-check record gives the score, unless a blank line comes
      before it, which is a JSON decoding error. */
  lemma FactcheckFirstStop(s: seq<Line>, i: nat, parse: string -> Option<real>)
    requires i < |s| && StopsFactcheck(s[i])
    requires forall j | 0 <= j < i :: !StopsFactcheck(s[j])
    ensures s[i].Blank? ==> FactcheckScoreOf(s, parse) == Failure(JsonDecodeError)
    ensures s[i].Rec? ==> FactcheckScoreOf(s, parse) == ScoreOf(s[i].response, parse)
  {
    FirstWhereAt(s, StopsFactcheck, i);
  }

  /** Unlike the other scans, a blank line in front of the fact-check record
      turns a score into an error. */
  lemma FactcheckBlankFails(s: seq<Line>, parse: string -> Option<real>)
    requires forall j | 0 <= j < |s| :: s[j].Rec? && s[j].task != FactcheckTask
    ensures FactcheckScoreOf([Blank] + s, parse) == Failure(JsonDecodeError)
    ensures FactcheckScoreOf(s, parse) == Success(FullConsistency)
  {
    FirstWhereAt([Blank] + s, StopsFactcheck, 0);
  }

  /** The generic scan: blank lines are skipped, the first guarded record
      returns its task's description. */
  method ScanGeneric(s: seq<Line>) returns (r: Result<GenericVerdict>)
    ensures r == GenericVerdictOf(s)
  {
    var i := 0;
    while i < |s|
      invariant i <= |s|
      invariant forall j | 0 <= j < i :: !Guarded(s[j])
    {
      match s[i] {
        case Blank =>
        case Rec(task, guarded, _, _) =>
          if guarded {
            FirstWhereAt(s, Guarded, i);
            return Describe(task);
          }
      }
      i := i + 1;
    }
    FirstWhereAt(s, Guarded, |s|);
    return Success(NoViolation);
  }

  /** The toxicity scan: the first toxicity record returns its flag, the fixed
      description and its extracted phrases joined by spaces. */
  method ScanToxicity(s: seq<Line>) returns (r: Result<ToxicityVerdict>)
    ensures r == ToxicityVerdictOf(s)
  {
    var i := 0;
    while i < |s|
      invariant i <= |s|
      invariant forall j | 0 <= j < i :: !ReportsToxicity(s[j])
    {
      match s[i] {
        case Blank =>
        case Rec(task, guarded, outputData, _) =>
          if task == ToxicityTask {
            FirstWhereAt(s, ReportsToxicity, i);
            if outputData.None? {
              return Failure(KeyError("output_data"));
            }
            return Success(ToxicityReport(guarded, Descriptions[task], Text.Join(outputData.value, ' ')));
          }
      }
      i := i + 1;
    }
    FirstWhereAt(s, ReportsToxicity, |s|);
    return Success(NoToxicityReport);
  }

  /** The PII scan: the first PII record returns its flag and its payload. */
  method ScanPii(s: seq<Line>) returns (r: Result<PiiVerdict>)
    ensures r == PiiVerdictOf(s)
  {
    var i := 0;
    while i < |s|
      invariant i <= |s|
      invariant forall j | 0 <= j < i :: !ReportsPii(s[j])
    {
      match s[i] {
        case Blank =>
        case Rec(task, guarded, _, response) =>
          if task == PiiTask {
            FirstWhereAt(s, ReportsPii, i);
            if response.None? {
              return Failure(KeyError("response"));
            }
            return Success(PiiReport(guarded, response.value));
          }
      }
      i := i + 1;
    }
    FirstWhereAt(s, ReportsPii, |s|);
    return Success(NoPiiReport);
  }

  /** The fact-check scan: every line goes to the JSON decoder; the first
      fact-check record returns the score after its label. */
  method ScanFactcheck(s: seq<Line>, parse: string -> Option<real>) returns (r: Result<real>)
    ensures r == FactcheckScoreOf(s, parse)
  {
    var i := 0;
    while i < |s|
      invariant i <= |s|
      invariant forall j | 0 <= j < i :: !StopsFactcheck(s[j])
    {
      match s[i] {
        case Blank =>
          FirstWhereAt(s, StopsFactcheck, i);
          return Failure(JsonDecodeError);
        case Rec(task, _, _, response) =>
          if task == FactcheckTask {
            FirstWhereAt(s, StopsFactcheck, i);
            return ScoreOf(response, parse);
          }
      }
      i := i + 1;
    }
    FirstWhereAt(s, StopsFactcheck, |s|);
    return Success(FullConsistency);
  }
}
