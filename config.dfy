/** The configuration table that accompanies every guard request:
    its default contents, the description of each task, the settings
    record each builder writes, and the effect of the generic builder's
    `for task in tasks` loop as a function of the table it starts from. */
module Config {
  import opened Types

  const ToxicityTask := "text_toxicity_extraction"
  const PiiTask := "pii_fast"
  const FactcheckTask := "factcheck"

  /** Tasks that have a dedicated builder and that the generic loop does not activate. */
  const DedicatedTasks: set<string> := {ToxicityTask, PiiTask, FactcheckTask}

  const Detect := Str("DETECT")
  const Off := Str("OFF")

  /** The entity types the PII task masks by default. */
  const DefaultPiiTypes: seq<string> := [
    "[PERSON NAME]", "[LOCATION]", "[DATE OF BIRTH]", "[DATE]", "[PHONE NUMBER]",
    "[EMAIL ADDRESS]", "[CREDIT CARD NUMBER]", "[BANK ACCOUNT NUMBER]",
    "[SOCIAL SECURITY NUMBER]", "[MONEY]", "[PROFESSION]", "[RACE/ETHNICITY]",
    "[ORGANIZATION]", "[USERNAME]", "[PASSWORD]", "[IP ADDRESS]", "[PASSPORT NUMBER]",
    "[DRIVER LICENSE NUMBER]", "[SECRET_KEY]", "[TRANSACTION_ID]", "[RELIGION]"
  ]

  /** The human-readable description reported for a guarded task. */
  const Descriptions: map<string, string> := map[
    "confidential_detection" := "Confidential Information violation",
    "gender_bias_detection" := "Gender bias in text",
    "harm_detection" := "Harm to human violation",
    "text_toxicity_extraction" := "Toxicity in text",
    "tonal_detection" := "Negative tone in text",
    "racial_bias_detection" := "Racial bias in text",
    "jailbreak_detection" := "Jailbreak attempt",
    "factcheck" := "Factcheck violation in text"
  ]

  /** The table as the process starts: nine tasks, all switched off; the
      PII task also masks and lists its default entity types. There is no
      entry for the fact-check task. */
  function DefaultConfig(): (t: Table)
    ensures forall task | task in t :: "mode" in t[task] && t[task]["mode"] == Off
    ensures FactcheckTask !in t && ToxicityTask in t && PiiTask in t
    ensures t[PiiTask] == map["mode" := Off, "mask" := Bool(true), "enabled_types" := StrList(DefaultPiiTypes)]
    ensures forall task | task in t && task != PiiTask && task != "intellectual_property" :: task in Descriptions
    ensures "intellectual_property" in t && "intellectual_property" !in Descriptions && PiiTask !in Descriptions
    ensures WellFormed(t)
  {
    map[
      PiiTask := map["mode" := Off, "mask" := Bool(true), "enabled_types" := StrList(DefaultPiiTypes)],
      "confidential_detection" := map["mode" := Off],
      "gender_bias_detection" := map["mode" := Off],
      "harm_detection" := map["mode" := Off],
      ToxicityTask := map["mode" := Off],
      "racial_bias_detection" := map["mode" := Off],
      "tonal_detection" := map["mode" := Off],
      "jailbreak_detection" := map["mode" := Off],
      "intellectual_property" := map["mode" := Off]
    ]
  }

  /** What every state of the shared table satisfies: the toxicity and PII
      tasks have entries (the builders replace them but never remove them)
      and the fact-check task has none (no builder adds it). */
  predicate WellFormed(t: Table)
  {
    ToxicityTask in t && PiiTask in t && FactcheckTask !in t
  }

  /** `matching_scores.get(task, {})` */
  function ScoresFor(scores: MatchingScores, task: string): (r: map<string, real>)
    ensures task in scores ==> r == scores[task]
    ensures task !in scores ==> r == map[]
  {
    if task in scores then scores[task] else map[]
  }

  /** The record the generic loop installs for a task before the override
      merge: DETECT, plus that task's thresholds when any were configured. */
  function DetectRecord(task: string, scores: MatchingScores): Settings
  {
    if scores == map[] then map["mode" := Detect]
    else map["mode" := Detect, "matching_scores" := Scores(ScoresFor(scores, task))]
  }

  /** The record a task activated by the generic builder ends with. The
      override is merged last, so its keys win, thresholds included. */
  function GenericRecord(task: string, scores: MatchingScores, override: Settings): (rec: Settings)
    ensures rec.Keys == {"mode"} + override.Keys + (if scores != map[] then {"matching_scores"} else {})
    ensures forall k | k in override :: k in rec && rec[k] == override[k]
    ensures "mode" !in override ==> rec["mode"] == Detect
    ensures "matching_scores" !in override && scores != map[] ==>
              rec["matching_scores"] == Scores(ScoresFor(scores, task))
  {
    DetectRecord(task, scores) + override
  }

  /** The toxicity builder's record. The thresholds are attached after the
      override merge, so here they win over an override key of the same name. */
  function ToxicityRecord(scores: MatchingScores, override: Settings): (rec: Settings)
    ensures rec.Keys == {"mode"} + override.Keys + (if scores != map[] then {"matching_scores"} else {})
    ensures forall k | k in override && k != "matching_scores" :: k in rec && rec[k] == override[k]
    ensures "mode" !in override ==> rec["mode"] == Detect
    ensures scores != map[] ==> rec["matching_scores"] == Scores(ScoresFor(scores, ToxicityTask))
    ensures scores == map[] && "matching_scores" in override ==>
              rec["matching_scores"] == override["matching_scores"]
  {
    var merged := if override != map[] then map["mode" := Detect] + override else map["mode" := Detect];
    if scores != map[] then merged["matching_scores" := Scores(ScoresFor(scores, ToxicityTask))]
    else merged
  }

  /** The PII builder's record. The caller's entity types and contextual
      rules are written after the override merge, so they always win; the
      default `mask` flag and entity list of the old record are gone. */
  function PiiRecord(entities: seq<string>, rules: seq<seq<string>>, scores: MatchingScores,
                     override: Settings): (rec: Settings)
    ensures rec.Keys == {"mode", "enabled_types", "contextual_rules"} + override.Keys
                        + (if scores != map[] then {"matching_scores"} else {})
    ensures rec["enabled_types"] == StrList(entities)
    ensures rec["contextual_rules"] == RuleList(rules)
    ensures "mode" !in override ==> rec["mode"] == Detect
    ensures "mask" in rec <==> "mask" in override
    ensures forall k | k in override && k !in {"enabled_types", "contextual_rules", "matching_scores"} ::
              k in rec && rec[k] == override[k]
    ensures scores != map[] ==> rec["matching_scores"] == Scores(ScoresFor(scores, PiiTask))
  {
    var merged := if override != map[] then map["mode" := Detect] + override else map["mode" := Detect];
    var typed := merged["enabled_types" := StrList(entities)]["contextual_rules" := RuleList(rules)];
    if scores != map[] then typed["matching_scores" := Scores(ScoresFor(scores, PiiTask))]
    else typed
  }

  /** The state of the table after (part of) the generic build loop, and the
      task whose override merge raised `KeyError`, if one did. */
  datatype Activation = Activation(table: Table, failedOn: Option<string>)

  /** One iteration of the generic loop for `task`. */
  function GenericStep(t: Table, task: string, scores: MatchingScores, override: Settings): Activation
  {
    var activated := if task in DedicatedTasks then t else t[task := DetectRecord(task, scores)];
    if override == map[] then Activation(activated, None)
    else if task in activated then Activation(activated[task := activated[task] + override], None)
    else Activation(activated, Some(task))
  }

  /** The generic loop over `tasks`, stopping at the first `KeyError`; the
      changes made before it stay in the table. */
  function GenericRun(t: Table, tasks: seq<string>, scores: MatchingScores, override: Settings): (a: Activation)
    ensures override == map[] ==> a.failedOn.None?
    ensures a.failedOn.Some? ==>
      a.failedOn.value in tasks && a.failedOn.value in DedicatedTasks && a.failedOn.value !in a.table
    decreases |tasks|
  {
    if tasks == [] then Activation(t, None)
    else
      var before := GenericRun(t, tasks[..|tasks| - 1], scores, override);
      if before.failedOn.Some? then before
      else GenericStep(before.table, tasks[|tasks| - 1], scores, override)
  }

  /** Once the loop has raised, the remaining tasks are not looked at. */
  lemma {:induction false} GenericRunStops(t: Table, tasks: seq<string>, n: nat, scores: MatchingScores,
                                           override: Settings)
    requires n <= |tasks|
    requires GenericRun(t, tasks[..n], scores, override).failedOn.Some?
    ensures GenericRun(t, tasks, scores, override) == GenericRun(t, tasks[..n], scores, override)
    decreases |tasks| - n
  {
    if n < |tasks| {
      var prefix := tasks[..|tasks| - 1];
      assert prefix[..n] == tasks[..n];
      GenericRunStops(t, prefix, n, scores, override);
    } else {
      assert tasks[..n] == tasks;
    }
  }

  /** The override merge of `task` raises `KeyError`: there is an override,
      and that task is one the loop does not activate and has no entry. */
  predicate MissingTarget(t: Table, task: string, override: Settings)
  {
    override != map[] && task in DedicatedTasks && task !in t
  }

  /** Entries of tasks not listed are left exactly as they were. */
  lemma {:induction false} GenericRunFrame(t: Table, tasks: seq<string>, scores: MatchingScores,
                                           override: Settings, k: string)
    requires k !in tasks
    ensures var r := GenericRun(t, tasks, scores, override).table;
      (k in r <==> k in t) && (k in t ==> r[k] == t[k])
    decreases |tasks|
  {
    if tasks != [] {
      var prefix := tasks[..|tasks| - 1];
      assert tasks == prefix + [tasks[|tasks| - 1]];
      GenericRunFrame(t, prefix, scores, override, k);
    }
  }

  /** The loop never adds or removes the entry of a dedicated task. */
  lemma {:induction false} GenericRunDedicatedKeys(t: Table, tasks: seq<string>, scores: MatchingScores,
                                                   override: Settings, k: string)
    requires k in DedicatedTasks
    ensures k in GenericRun(t, tasks, scores, override).table <==> k in t
    decreases |tasks|
  {
    if tasks != [] {
      GenericRunDedicatedKeys(t, tasks[..|tasks| - 1], scores, override, k);
    }
  }

  /** The loop raises `KeyError` exactly when some listed task is a missing
      override target, and then it names such a task. */
  lemma {:induction false} GenericRunFailure(t: Table, tasks: seq<string>, scores: MatchingScores,
                                             override: Settings)
    ensures var a := GenericRun(t, tasks, scores, override);
      a.failedOn.None? <==> forall i | 0 <= i < |tasks| :: !MissingTarget(t, tasks[i], override)
    ensures var a := GenericRun(t, tasks, scores, override);
      a.failedOn.Some? ==> a.failedOn.value in tasks && MissingTarget(t, a.failedOn.value, override)
    decreases |tasks|
  {
    if tasks != [] {
      var n := |tasks| - 1;
      var prefix := tasks[..n];
      assert tasks == prefix + [tasks[n]];
      GenericRunFailure(t, prefix, scores, override);
      var before := GenericRun(t, prefix, scores, override);
      if before.failedOn.None? && tasks[n] in DedicatedTasks {
        GenericRunDedicatedKeys(t, prefix, scores, override, tasks[n]);
      }
    }
  }

  /** After a successful loop, every listed task outside the dedicated three
      holds exactly the generic record (DETECT, its thresholds, the override). */
  lemma {:induction false} GenericRunActivates(t: Table, tasks: seq<string>, scores: MatchingScores,
                                               override: Settings, k: string)
    requires k in tasks && k !in DedicatedTasks
    requires GenericRun(t, tasks, scores, override).failedOn.None?
    ensures var r := GenericRun(t, tasks, scores, override).table;
      k in r && r[k] == GenericRecord(k, scores, override)
    decreases |tasks|
  {
    var n := |tasks| - 1;
    var prefix := tasks[..n];
    assert tasks == prefix + [tasks[n]];
    if tasks[n] != k {
      GenericRunActivates(t, prefix, scores, override, k);
    }
  }

  /** After a successful loop, a listed dedicated task keeps its old record
      with the override merged in. */
  lemma {:induction false} GenericRunMergesDedicated(t: Table, tasks: seq<string>, scores: MatchingScores,
                                                     override: Settings, k: string)
    requires k in tasks && k in DedicatedTasks
    requires GenericRun(t, tasks, scores, override).failedOn.None?
    ensures var r := GenericRun(t, tasks, scores, override).table;
      (k in r <==> k in t) && (k in t ==> r[k] == t[k] + override)
    decreases |tasks|
  {
    var n := |tasks| - 1;
    var prefix := tasks[..n];
    assert tasks == prefix + [tasks[n]];
    var before := GenericRun(t, prefix, scores, override);
    GenericRunDedicatedKeys(t, prefix, scores, override, k);
    if k in prefix {
      GenericRunMergesDedicated(t, prefix, scores, override, k);
      if tasks[n] == k && k in t {
        assert t[k] + override + override == t[k] + override;
      }
    } else {
      GenericRunFrame(t, prefix, scores, override, k);
      if k in t {
        assert t[k] + map[] == t[k];
      }
    }
  }

  /** Because the table is shared, a task one generic call activated is still
      active, with that call's record, in the table a later call sends when
      the later call does not list it. */
  lemma ActivationPersists(t: Table, first: seq<string>, firstScores: MatchingScores, firstOverride: Settings,
                           second: seq<string>, secondScores: MatchingScores, secondOverride: Settings,
                           k: string)
    requires k in first && k !in DedicatedTasks && k !in second
    requires GenericRun(t, first, firstScores, firstOverride).failedOn.None?
    ensures var mid := GenericRun(t, first, firstScores, firstOverride).table;
      var r := GenericRun(mid, second, secondScores, secondOverride).table;
      k in r && r[k] == GenericRecord(k, firstScores, firstOverride)
  {
    var mid := GenericRun(t, first, firstScores, firstOverride).table;
    GenericRunActivates(t, first, firstScores, firstOverride, k);
    GenericRunFrame(mid, second, secondScores, secondOverride, k);
  }

  /** A record a dedicated builder installed survives every later generic call
      made without an override (the only kind the actions make), whether or
      not that call lists that task. */
  lemma DedicatedRecordPersists(t: Table, k: string, rec: Settings, tasks: seq<string>, scores: MatchingScores)
    requires k in DedicatedTasks
    ensures var r := GenericRun(t[k := rec], tasks, scores, map[]);
      r.failedOn.None? && k in r.table && r.table[k] == rec
  {
    GenericRunFailure(t[k := rec], tasks, scores, map[]);
    if k in tasks {
      GenericRunMergesDedicated(t[k := rec], tasks, scores, map[], k);
      assert rec + map[] == rec;
    } else {
      GenericRunFrame(t[k := rec], tasks, scores, map[], k);
    }
  }

  /** From any state the table can be in, the generic loop keeps it in such a
      state, and it raises exactly when an override is given and the
      fact-check task is listed, naming that task. */
  lemma GenericRunFromWellFormed(t: Table, tasks: seq<string>, scores: MatchingScores, override: Settings)
    requires WellFormed(t)
    ensures var a := GenericRun(t, tasks, scores, override);
      WellFormed(a.table)
      && (a.failedOn.Some? <==> override != map[] && FactcheckTask in tasks)
      && (a.failedOn.Some? ==> a.failedOn.value == FactcheckTask)
  {
    GenericRunFailure(t, tasks, scores, override);
    GenericRunDedicatedKeys(t, tasks, scores, override, ToxicityTask);
    GenericRunDedicatedKeys(t, tasks, scores, override, PiiTask);
    GenericRunDedicatedKeys(t, tasks, scores, override, FactcheckTask);
    if override != map[] && FactcheckTask in tasks {
      var i :| 0 <= i < |tasks| && tasks[i] == FactcheckTask;
      assert MissingTarget(t, tasks[i], override);
    }
  }
}
