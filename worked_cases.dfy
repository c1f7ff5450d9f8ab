/** One reply carried through the analyzer: the model wraps its JSON object in a line of
    prose before it and one after it, the object gives scores 80, 60 and 70 and one matched
    core skill, and the candidate's experience band is "3-5". */
module WorkedCases {
  import opened Wrappers
  import opened PyJson
  import opened AiAnalyzer

  const ReplyObject := "{" + "\"core_match\": 80, \"preferred_match\": 60, \"overall_before_experience\": 70, \"matched_core_skills\": [\"python\"]" + "}"

  const Reply := "Here is the result:\n" + ReplyObject + "\nThanks!"

  /** When the whole reply does not decode, the object inside it is what gets decoded. */
  lemma EmbeddedReplyExtract(loads: string -> Option<Json>, payload: Json)
    requires loads(Reply).None? && loads(ReplyObject) == Some(payload)
    ensures SafeJsonExtract(loads, Reply) == Success(payload)
  {
    EmbeddedObjectSpan("Here is the result:\n", ReplyObject, "\nThanks!");
  }

  /** The object as `json.loads` decodes it. */
  const ReplyFields: map<string, Json> := map[
    "core_match" := JNum(80.0), "preferred_match" := JNum(60.0),
    "overall_before_experience" := JNum(70.0),
    "matched_core_skills" := JArr([JStr("python")])]

  lemma ReplyFieldsLookups()
    ensures "core_match" in ReplyFields && ReplyFields["core_match"] == JNum(80.0)
    ensures "preferred_match" in ReplyFields && ReplyFields["preferred_match"] == JNum(60.0)
    ensures "overall_before_experience" in ReplyFields && ReplyFields["overall_before_experience"] == JNum(70.0)
    ensures Get(ReplyFields, "matched_core_skills", JArr([])) == JArr([JStr("python")])
    ensures "matched_preferred_skills" !in ReplyFields && "recommendations" !in ReplyFields
    ensures "missing_core_skills" !in ReplyFields && "missing_preferred_skills" !in ReplyFields
    ensures "inferred_core_skills" !in ReplyFields && "inferred_preferred_skills" !in ReplyFields
  {
  }

  /** The scores the reply carries. */
  lemma ReplyScores(rt: Runtime)
    ensures Score(rt, ReplyFields, "core_match") == Success(80.0)
    ensures Score(rt, ReplyFields, "preferred_match") == Success(60.0)
    ensures Score(rt, ReplyFields, "overall_before_experience") == Success(70.0)
  {
    ReplyFieldsLookups();
  }

  /** `list(set(["python"] + []))` is `["python"]`. */
  lemma OneSkillSet()
    ensures SetOfConcat(JArr([JStr("python")]), JArr([])) == Some([JStr("python")])
  {
    assert [JStr("python")] + [] == [JStr("python")];
    assert InsertAll([], [JStr("python")]) == [JStr("python")];
  }

  /** The two list fields the merge and the slice see. */
  lemma ReplyLists()
    ensures MatchedSkills(ReplyFields) == Success([JStr("python")])
    ensures Recommendations(ReplyFields) == Success(JArr([]))
  {
    ReplyFieldsLookups();
    assert Get(ReplyFields, "matched_preferred_skills", JArr([])) == JArr([]);
    OneSkillSet();
  }

  /** That object with band 3-5 (bonus 10) gives core 80, preferred 60, match 70 + 10,
      the one matched skill, and empty lists for every field the reply leaves out. */
  lemma EmbeddedReplyAssemble(rt: Runtime)
    ensures Assemble(rt, JObj(ReplyFields), ExperienceBonus(Some("3-5"))) == Success(MatchResult(
      80.0, 80.0, 60.0, [JStr("python")], JArr([]), JArr([]), JArr([]),
      Breakdown(80.0, 60.0, 10.0), Some(Inferred(JArr([]), JArr([]))), None))
  {
    ReplyFieldsLookups();
    ReplyScores(rt);
    ReplyLists();
    assert ExperienceBonus(Some("3-5")) == 10;
  }

  /** The whole of `analyze_match` on that reply: with the whole reply failing to decode
      and the object decoding to those fields, any role and any list of str skills give
      the assembled result, and the fallback is never reached. */
  lemma EmbeddedReplyAnalyzed(rt: Runtime, role: Option<string>, skills: Option<seq<SkillEntry>>)
    requires rt.loads(Reply).None? && rt.loads(ReplyObject) == Some(JObj(ReplyFields))
    requires Normalise(role, skills, Some("3-5")).Success?
    ensures AnalyzeMatch(rt, Success(Reply), role, skills, Some("3-5")) == Success(MatchResult(
      80.0, 80.0, 60.0, [JStr("python")], JArr([]), JArr([]), JArr([]),
      Breakdown(80.0, 60.0, 10.0), Some(Inferred(JArr([]), JArr([]))), None))
  {
    EmbeddedReplyExtract(rt.loads, JObj(ReplyFields));
    EmbeddedReplyAssemble(rt);
  }
}
