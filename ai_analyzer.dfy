/** The deterministic part of `JobMatchAnalyzer.analyze_match`: normalising the
    caller's input, recovering a JSON object from the language model's reply, building
    the match result from it, and the fallback taken when any of that raises. The model
    call itself is an input: the reply text, or the message of the error it raised. */
module AiAnalyzer {
  import opened Wrappers
  import opened PyStr
  import opened PyJson
  import opened BraceSearch

  /** The parts of Python's runtime that stay opaque here: `json.loads(s)` (None when it
      raises JSONDecodeError) and `float()` applied to a `str` (None when it raises). */
  datatype Runtime = Runtime(loads: string -> Option<Json>, floatOfStr: string -> Option<real>)

  /** What `analyze_match` can raise, directly or as the cause of a later exception. */
  datatype Error =
    | SkillNotText(index: nat)       // `.strip()` on a skill that is not a str
    | OracleFailure(message: string) // `generate_content` or `.text` raised
    | NoJsonFound                    // no `{ ... }` span in the reply
    | SpanNotJson                    // the span does not parse either
    | PayloadNotObject               // `.get` on a decoded value that is not a dict
    | NotNumeric(key: string)        // `float()` of that field raised
    | BadMatchedLists                // `set(core + preferred)` raised
    | NotSliceable                   // `recommendations[:6]` raised
    | FallbackCrashed(cause: Error)  // the fallback's own TypeError, raised while handling `cause`

  /** One element of the caller's skill list: a `str`, or any other JSON value. */
  datatype SkillEntry = Text(text: string) | NonText

  /** The normalised input: trimmed role, normalised skills, experience bonus. */
  datatype Request = Request(role: string, skills: seq<string>, bonus: int)

  datatype Breakdown = Breakdown(coreSkills: real, preferredSkills: real, experienceBonus: real)

  datatype Inferred = Inferred(inferredCore: Json, inferredPreferred: Json)

  /** The dict `analyze_match` returns. The percentages are kept unrounded.
      `debugInferred` is None for the fallback's empty dict, and only the fallback sets `note`. */
  datatype MatchResult = MatchResult(
    matchPercentage: real,
    coreMatch: real,
    preferredMatch: real,
    matchedSkills: seq<Json>,
    missingCore: Json,
    missingPreferred: Json,
    recommendations: Json,
    breakdown: Breakdown,
    debugInferred: Option<Inferred>,
    note: Option<string>)

  // ---------------------------------------------------------------------------
  // Experience bonus

  /** The experience bands, in order of increasing experience. */
  const ExperienceBands: seq<string> := ["0-1", "1-3", "3-5", "5-7", "7+"]

  const ExperienceBonusTable: map<string, int> :=
    map["0-1" := 0, "1-3" := 5, "3-5" := 10, "5-7" := 15, "7+" := 20]

  /** `EXPERIENCE_BONUS.get(experience, 0)`: the bonus scales proportionally, five points
      per band above the first; an unknown band, and a missing one, give nothing. */
  function ExperienceBonus(experience: Option<string>): (bonus: int)
    ensures forall k :: 0 <= k < |ExperienceBands| ==>
      (experience == Some(ExperienceBands[k]) ==> bonus == 5 * k)
    ensures experience.None? || experience.value !in ExperienceBands ==> bonus == 0
    ensures 0 <= bonus <= 20 && bonus % 5 == 0
  {
    if experience.Some? && experience.value in ExperienceBonusTable
    then ExperienceBonusTable[experience.value]
    else 0
  }

  // ---------------------------------------------------------------------------
  // Input normalisation

  /** `s.strip().lower().replace(" ", "-")`. */
  function NormaliseSkill(s: string): (r: string)
    ensures |r| <= |s|
    ensures ' ' !in r
  {
    ReplaceSpaces(Lower(Strip(s)))
  }

  /** Lower-casing or hyphenating a normalised character again changes nothing. */
  lemma NormalisedCharFixed(c: char)
    ensures LowerChar(HyphenChar(LowerChar(c))) == HyphenChar(LowerChar(c))
    ensures HyphenChar(HyphenChar(LowerChar(c))) == HyphenChar(LowerChar(c))
  {
  }

  /** Normalising a character that is not whitespace does not make it whitespace. */
  lemma NormalisedCharNotSpace(c: char)
    requires !IsSpace(c)
    ensures !IsSpace(HyphenChar(LowerChar(c)))
  {
  }

  /** A normalised skill has no whitespace at its ends and is fixed by lower-casing and
      by hyphenating. */
  lemma NormalisedShape(s: string)
    ensures var r := NormaliseSkill(s);
      && (r == [] || (!IsSpace(r[0]) && !IsSpace(r[|r| - 1])))
      && (forall k :: 0 <= k < |r| ==> LowerChar(r[k]) == r[k] && HyphenChar(r[k]) == r[k])
  {
    var t := Strip(s);
    var l := Lower(t);
    var r := ReplaceSpaces(l);
    assert |r| == |t|;
    forall k | 0 <= k < |r| ensures LowerChar(r[k]) == r[k] && HyphenChar(r[k]) == r[k] {
      assert r[k] == HyphenChar(l[k]) && l[k] == LowerChar(t[k]);
      NormalisedCharFixed(t[k]);
    }
    if r != [] {
      var n := |r| - 1;
      assert r[0] == HyphenChar(LowerChar(t[0]));
      assert r[n] == HyphenChar(LowerChar(t[n]));
      NormalisedCharNotSpace(t[0]);
      NormalisedCharNotSpace(t[n]);
    }
  }

  /** A string with no whitespace at its ends that lower-casing and hyphenating fix
      character by character is its own normal form. */
  lemma NormalFormFixed(r: string)
    requires r == [] || (!IsSpace(r[0]) && !IsSpace(r[|r| - 1]))
    requires forall k :: 0 <= k < |r| ==> LowerChar(r[k]) == r[k] && HyphenChar(r[k]) == r[k]
    ensures NormaliseSkill(r) == r
  {
    StripKeepsTrimmed(r);
    var l := Lower(r);
    assert forall k :: 0 <= k < |r| ==> l[k] == r[k];
    assert l == r;
    var h := ReplaceSpaces(r);
    assert forall k :: 0 <= k < |r| ==> h[k] == r[k];
    assert h == r;
  }

  /** Normalising a normalised skill changes nothing. */
  lemma {:induction false} NormaliseSkillIdempotent(s: string)
    ensures NormaliseSkill(NormaliseSkill(s)) == NormaliseSkill(s)
  {
    NormalisedShape(s);
    NormalFormFixed(NormaliseSkill(s));
  }

  /** Where the comprehension stops: the position of the first entry that is not a str. */
  function FirstNonText(entries: seq<SkillEntry>): (i: nat)
    requires exists k :: 0 <= k < |entries| && entries[k].NonText?
    ensures i < |entries| && entries[i].NonText?
    ensures forall k :: 0 <= k < i ==> entries[k].Text?
  {
    if entries[0].NonText? then 0
    else
      assert exists k :: 0 <= k < |entries| - 1 && entries[1..][k].NonText? by {
        var k :| 0 <= k < |entries| && entries[k].NonText?;
        assert entries[1..][k - 1] == entries[k];
      }
      FirstNonText(entries[1..]) + 1
  }

  /** `[s.strip().lower().replace(" ", "-") for s in entries]`: the first entry that is
      not a str raises, since it has no `strip`. */
  function NormaliseSkills(entries: seq<SkillEntry>): (r: Result<seq<string>, Error>)
    ensures r.Success? <==> forall k :: 0 <= k < |entries| ==> entries[k].Text?
    ensures r.Success? ==>
      && |r.value| == |entries|
      && forall k :: 0 <= k < |entries| ==> r.value[k] == NormaliseSkill(entries[k].text)
    ensures r.Failure? ==>
      && r.error.SkillNotText?
      && r.error.index < |entries|
      && entries[r.error.index].NonText?
      && forall k :: 0 <= k < r.error.index ==> entries[k].Text?
  {
    if forall k :: 0 <= k < |entries| ==> entries[k].Text? then
      Success(seq(|entries|, k requires 0 <= k < |entries| => NormaliseSkill(entries[k].text)))
    else
      Failure(SkillNotText(FirstNonText(entries)))
  }

  /** Lines 42 to 44 of `analyze_match`: a missing role is the empty string and a missing
      skill list the empty list. */
  function Normalise(role: Option<string>, skills: Option<seq<SkillEntry>>, experience: Option<string>)
    : (r: Result<Request, Error>)
    ensures r.Success? <==> skills.None? || forall k :: 0 <= k < |skills.value| ==> skills.value[k].Text?
    ensures r.Success? ==>
      && r.value.role == Strip(if role.Some? then role.value else "")
      && r.value.bonus == ExperienceBonus(experience)
      && (skills.None? ==> r.value.skills == [])
      && (skills.Some? ==>
            && |r.value.skills| == |skills.value|
            && forall k :: 0 <= k < |skills.value| ==> r.value.skills[k] == NormaliseSkill(skills.value[k].text))
    ensures r.Failure? ==>
      && r.error.SkillNotText? && skills.Some?
      && r.error.index < |skills.value| && skills.value[r.error.index].NonText?
  {
    var jobRole := Strip(if role.Some? then role.value else "");
    var normSkills :- NormaliseSkills(if skills.Some? then skills.value else []);
    Success(Request(jobRole, normSkills, ExperienceBonus(experience)))
  }

  // ---------------------------------------------------------------------------
  // JSON recovery

  /** `_safe_json_extract(s)`: the whole text is decoded if it can be; otherwise the
      greedy `{ ... }` span is decoded, and its absence is an error of its own. */
  function SafeJsonExtract(loads: string -> Option<Json>, s: string): (r: Result<Json, Error>)
    ensures loads(s).Some? ==> r == Success(loads(s).value)
    ensures r == Failure(NoJsonFound) <==> loads(s).None? && forall i, j :: !IsMatch(s, i, j)
    ensures loads(s).None? ==> (r.Success? <==> Search(s).Some? && loads(Search(s).value).Some?)
    ensures loads(s).None? && r.Success? ==> r.value == loads(Search(s).value).value
    ensures r.Failure? ==> r.error == NoJsonFound || r.error == SpanNotJson
  {
    match loads(s)
    case Some(v) => Success(v)
    case None =>
      match Search(s)
      case None => Failure(NoJsonFound)
      case Some(span) =>
        match loads(span)
        case Some(v) => Success(v)
        case None => Failure(SpanNotJson)
  }

  /** Prose before and after a single JSON object is dropped by the span search: the
      prefix has no `{` and the suffix no `}`. */
  lemma {:induction false} EmbeddedObjectSpan(prefix: string, obj: string, suffix: string)
    requires 2 <= |obj| && obj[0] == '{' && obj[|obj| - 1] == '}'
    requires '{' !in prefix && '}' !in suffix
    ensures Search(prefix + obj + suffix) == Some(obj)
  {
    var s := prefix + obj + suffix;
    var i, j := |prefix|, |prefix| + |obj| - 1;
    assert s[i] == obj[0] && s[j] == obj[|obj| - 1];
    assert IsMatch(s, i, j);
    forall k | 0 <= k < i ensures s[k] != '{' {
      assert s[k] == prefix[k];
    }
    forall k | j < k < |s| ensures s[k] != '}' {
      assert s[k] == suffix[k - j - 1];
    }
    assert s[i..j + 1] == obj;
  }

  // ---------------------------------------------------------------------------
  // Result assembly

  /** `float(payload.get(key, 0.0))`: a missing score is 0.0. */
  function Score(rt: Runtime, fields: map<string, Json>, key: string): (r: Result<real, Error>)
    ensures key !in fields ==> r == Success(0.0)
    ensures key in fields && fields[key].JNum? ==> r == Success(fields[key].n)
    ensures key in fields && (fields[key].JNull? || fields[key].JArr? || fields[key].JObj?) ==>
      r == Failure(NotNumeric(key))
    ensures r.Failure? ==> r.error == NotNumeric(key)
    ensures key in fields ==>
      && (r.Success? <==> Float(rt.floatOfStr, fields[key]).Some?)
      && (r.Success? ==> r.value == Float(rt.floatOfStr, fields[key]).value)
  {
    if key !in fields then Success(0.0)
    else
      match Float(rt.floatOfStr, fields[key])
      case Some(x) => Success(x)
      case None => Failure(NotNumeric(key))
  }

  /** `min(100.0, x)`. */
  function AtMost100(x: real): real {
    if x <= 100.0 then x else 100.0
  }

  /** `list(set(payload.get("matched_core_skills", []) + payload.get("matched_preferred_skills", [])))`. */
  function MatchedSkills(fields: map<string, Json>): (r: Result<seq<Json>, Error>)
    ensures var both := ConcatElements(Get(fields, "matched_core_skills", JArr([])),
                                       Get(fields, "matched_preferred_skills", JArr([])));
      && (r.Success? <==> both.Some? && forall x :: x in both.value ==> Hashable(x))
      && (r.Success? ==> SetDistinct(r.value) && Keys(r.value) == Keys(both.value))
    ensures r.Failure? ==> r.error == BadMatchedLists
  {
    match SetOfConcat(Get(fields, "matched_core_skills", JArr([])), Get(fields, "matched_preferred_skills", JArr([])))
    case Some(xs) => Success(xs)
    case None => Failure(BadMatchedLists)
  }

  /** `payload.get("recommendations", [])[:6]`. */
  function Recommendations(fields: map<string, Json>): (r: Result<Json, Error>)
    ensures var v := Get(fields, "recommendations", JArr([]));
      && (r.Success? <==> v.JArr? || v.JStr?)
      && (v.JArr? ==> r.value.JArr? && r.value.items <= v.items && |r.value.items| == Min(6, |v.items|))
    ensures r.Failure? ==> r.error == NotSliceable
  {
    match SliceTo(Get(fields, "recommendations", JArr([])), 6)
    case Some(v) => Success(v)
    case None => Failure(NotSliceable)
  }

  /** The part of `_analyze_with_gemini` after the payload is decoded. */
  function Assemble(rt: Runtime, payload: Json, bonus: int): (r: Result<MatchResult, Error>)
    ensures !payload.JObj? ==> r == Failure(PayloadNotObject)
    ensures r.Success? <==>
      && payload.JObj?
      && Score(rt, payload.fields, "core_match").Success?
      && Score(rt, payload.fields, "preferred_match").Success?
      && Score(rt, payload.fields, "overall_before_experience").Success?
      && SetOfConcat(Get(payload.fields, "matched_core_skills", JArr([])),
                     Get(payload.fields, "matched_preferred_skills", JArr([]))).Some?
      && (Get(payload.fields, "recommendations", JArr([])).JArr?
          || Get(payload.fields, "recommendations", JArr([])).JStr?)
    ensures r.Success? ==>
      var fields := payload.fields;
      var m := r.value;
      var sum := Score(rt, fields, "overall_before_experience").value + bonus as real;
      && m.matchPercentage <= 100.0
      && (sum <= 100.0 ==> m.matchPercentage == sum)
      && (sum > 100.0 ==> m.matchPercentage == 100.0)
      && m.coreMatch == Score(rt, fields, "core_match").value
      && m.preferredMatch == Score(rt, fields, "preferred_match").value
      && m.breakdown == Breakdown(m.coreMatch, m.preferredMatch, bonus as real)
      && m.missingCore == Get(fields, "missing_core_skills", JArr([]))
      && m.missingPreferred == Get(fields, "missing_preferred_skills", JArr([]))
      && m.debugInferred == Some(Inferred(Get(fields, "inferred_core_skills", JArr([])),
                                          Get(fields, "inferred_preferred_skills", JArr([]))))
      && m.note.None?
    ensures r.Success? ==>
      var xs := ConcatElements(Get(payload.fields, "matched_core_skills", JArr([])),
                               Get(payload.fields, "matched_preferred_skills", JArr([]))).value;
      && SetDistinct(r.value.matchedSkills)
      && Keys(r.value.matchedSkills) == Keys(xs)
      && (forall x :: x in r.value.matchedSkills ==> x in xs)
    ensures r.Success? ==> Some(r.value.recommendations) == SliceTo(Get(payload.fields, "recommendations", JArr([])), 6)
    ensures r.Success? && Get(payload.fields, "recommendations", JArr([])).JArr? ==>
      var recs := Get(payload.fields, "recommendations", JArr([])).items;
      && r.value.recommendations.JArr?
      && r.value.recommendations.items <= recs
      && |r.value.recommendations.items| == Min(6, |recs|)
  {
    if !payload.JObj? then Failure(PayloadNotObject)
    else
      var fields := payload.fields;
      var core :- Score(rt, fields, "core_match");
      var preferred :- Score(rt, fields, "preferred_match");
      var overallBefore :- Score(rt, fields, "overall_before_experience");
      var overall := AtMost100(overallBefore + bonus as real);
      var matched :- MatchedSkills(fields);
      var recommendations :- Recommendations(fields);
      Success(MatchResult(
        overall, core, preferred, matched,
        Get(fields, "missing_core_skills", JArr([])),
        Get(fields, "missing_preferred_skills", JArr([])),
        recommendations,
        Breakdown(core, preferred, bonus as real),
        Some(Inferred(Get(fields, "inferred_core_skills", JArr([])),
                      Get(fields, "inferred_preferred_skills", JArr([])))),
        None))
  }

  /** With well-typed fields the matched skills are the two matched lists merged: every
      skill of either list appears once, and nothing else appears. */
  lemma {:induction false} MatchedSkillsAreUnion(rt: Runtime, fields: map<string, Json>, bonus: int,
                                                 core: seq<Json>, preferred: seq<Json>)
    requires Get(fields, "matched_core_skills", JArr([])) == JArr(core)
    requires Get(fields, "matched_preferred_skills", JArr([])) == JArr(preferred)
    requires forall x :: x in core + preferred ==> x.JStr?
    requires Assemble(rt, JObj(fields), bonus).Success?
    ensures var m := Assemble(rt, JObj(fields), bonus).value.matchedSkills;
      && (forall i, j :: 0 <= i < j < |m| ==> m[i] != m[j])
      && (forall x :: x in m <==> x in core || x in preferred)
  {
    SetOfStringLists(core, preferred);
  }

  /** An empty object gives the all-defaults result: zero scores, no skills, no
      recommendations, and the bonus (capped at 100) as the match percentage. */
  lemma EmptyPayloadDefaults(rt: Runtime, bonus: int)
    ensures Assemble(rt, JObj(map[]), bonus) == Success(MatchResult(
      AtMost100(bonus as real), 0.0, 0.0, [], JArr([]), JArr([]), JArr([]),
      Breakdown(0.0, 0.0, bonus as real), Some(Inferred(JArr([]), JArr([]))), None))
  {
    assert InsertAll([], []) == [];
  }

  /** `_analyze_with_gemini` with the model's reply given: the reply text is decoded and
      assembled; an error from the model call is an error of the path. */
  function GeminiPath(rt: Runtime, reply: Result<string, string>, bonus: int): (r: Result<MatchResult, Error>)
    ensures reply.Failure? ==> r == Failure(OracleFailure(reply.error))
    ensures reply.Success? && SafeJsonExtract(rt.loads, reply.value).Success? ==>
      r == Assemble(rt, SafeJsonExtract(rt.loads, reply.value).value, bonus)
    ensures reply.Success? && SafeJsonExtract(rt.loads, reply.value).Failure? ==>
      r == Failure(SafeJsonExtract(rt.loads, reply.value).error)
    ensures r.Success? ==> reply.Success? && SafeJsonExtract(rt.loads, reply.value).Success?
    ensures r.Failure? ==> !r.error.SkillNotText? && !r.error.FallbackCrashed?
  {
    match reply
    case Failure(message) => Failure(OracleFailure(message))
    case Success(text) =>
      var payload :- SafeJsonExtract(rt.loads, text);
      Assemble(rt, payload, bonus)
  }

  // ---------------------------------------------------------------------------
  // Fallback, as written

  /** `_fallback_analysis` as the code has it. Its first statement calls `min` with the
      single float `100.0 + exp_bonus`; `min` with one argument iterates it, and a float
      is not iterable, so a TypeError is raised (while handling `cause`) and the result
      dict is never built. */
  function Fallback(req: Request, cause: Error): (r: Result<MatchResult, Error>)
    ensures r.Failure? && r.error == FallbackCrashed(cause)
  {
    Failure(FallbackCrashed(cause))
  }

  /** `analyze_match`: normalise, try the model path, and on any error there take the
      fallback, which raises in turn. */
  function AnalyzeMatch(rt: Runtime, reply: Result<string, string>, role: Option<string>,
                        skills: Option<seq<SkillEntry>>, experience: Option<string>)
    : (r: Result<MatchResult, Error>)
    ensures r.Failure? && r.error.SkillNotText? <==>
      skills.Some? && exists k :: 0 <= k < |skills.value| && skills.value[k].NonText?
    ensures r.Failure? ==> r.error.SkillNotText? || r.error.FallbackCrashed?
    ensures Normalise(role, skills, experience).Success? ==>
      var path := GeminiPath(rt, reply, ExperienceBonus(experience));
      && (path.Success? ==> r == path)
      && (path.Failure? ==> r == Failure(FallbackCrashed(path.error)))
    ensures r.Success? ==>
      && reply.Success?
      && r.value.note.None?
      && r.value.matchPercentage <= 100.0
      && r.value.breakdown.experienceBonus == ExperienceBonus(experience) as real
  {
    var req :- Normalise(role, skills, experience);
    match GeminiPath(rt, reply, req.bonus)
    case Success(m) => Success(m)
    case Failure(e) => Fallback(req, e)
  }

  /** No fallback result ever reaches the caller: when the model path fails, so does
      `analyze_match`, with the fallback's TypeError. */
  lemma NoFallbackResult(rt: Runtime, reply: Result<string, string>, role: Option<string>,
                         skills: Option<seq<SkillEntry>>, experience: Option<string>)
    requires Normalise(role, skills, experience).Success?
    requires GeminiPath(rt, reply, ExperienceBonus(experience)).Failure?
    ensures AnalyzeMatch(rt, reply, role, skills, experience)
      == Failure(FallbackCrashed(GeminiPath(rt, reply, ExperienceBonus(experience)).error))
  {
  }

  /** A reply that does not decode and holds no `{` before a `}` fails the model path
      with NoJsonFound. */
  lemma NoBracesPathFails(rt: Runtime, text: string, bonus: int)
    requires rt.loads(text).None?
    requires forall i, j :: 0 <= i < j < |text| ==> !(text[i] == '{' && text[j] == '}')
    ensures SafeJsonExtract(rt.loads, text) == Failure(NoJsonFound)
    ensures GeminiPath(rt, Success(text), bonus) == Failure(NoJsonFound)
  {
    assert forall i, j :: !IsMatch(text, i, j);
  }

  /** A reply without a `{ ... }` span that does not decode as a whole ends in the
      fallback's TypeError, raised while handling NoJsonFound. */
  lemma {:induction false} NoBracesIsFatal(rt: Runtime, text: string, role: Option<string>,
                                           skills: Option<seq<SkillEntry>>, experience: Option<string>)
    requires Normalise(role, skills, experience).Success?
    requires rt.loads(text).None?
    requires forall i, j :: 0 <= i < j < |text| ==> !(text[i] == '{' && text[j] == '}')
    ensures AnalyzeMatch(rt, Success(text), role, skills, experience) == Failure(FallbackCrashed(NoJsonFound))
  {
    NoBracesPathFails(rt, text, ExperienceBonus(experience));
  }

  // ---------------------------------------------------------------------------
  // Fallback, as evidently intended

  const FallbackRecommendations: seq<Json> := [
    JStr("Add more job-specific technical skills."),
    JStr("Complete a certification relevant to the role."),
    JStr("Build a portfolio project demonstrating your expertise.")
  ]

  /** The message of the ValueError `_safe_json_extract` raises when there is no span. */
  const NoJsonMessage := "No JSON object found in AI output."

  const FallbackNotePrefix := "Fallback used due to error: "

  /** `str(e)` for the errors that reach the fallback. NoJsonFound carries the source's
      own message and a model-call error its own text; the others stand for messages
      Python's runtime writes. SkillNotText and FallbackCrashed never reach it: line 43
      runs outside the `try`, and GeminiPath's contract excludes both; they are given a
      text only so that the function covers every error. */
  function ErrorText(e: Error): (text: string)
    ensures e == NoJsonFound ==> text == NoJsonMessage
    ensures e.OracleFailure? ==> text == e.message
  {
    match e
    case SkillNotText(_) => "'NoneType' object has no attribute 'strip'"
    case OracleFailure(message) => message
    case NoJsonFound => NoJsonMessage
    case SpanNotJson => "Expecting value"
    case PayloadNotObject => "object has no attribute 'get'"
    case NotNumeric(key) => "could not convert " + key + " to float"
    case BadMatchedLists => "unsupported operand or unhashable type"
    case NotSliceable => "object is not subscriptable"
    case FallbackCrashed(_) => "'float' object is not iterable"
  }

  function AsJson(skills: seq<string>): (r: seq<Json>)
    ensures |r| == |skills| && forall k :: 0 <= k < |skills| ==> r[k] == JStr(skills[k])
  {
    if skills == [] then [] else [JStr(skills[0])] + AsJson(skills[1..])
  }

  /** `_fallback_analysis` with `min(100.0, 100.0 + exp_bonus)` on its first line: it
      always returns, with the input skills as matched skills, the three fixed tips, no
      oracle data, and a note carrying the error text. */
  function IntendedFallback(req: Request, error: string): (m: MatchResult)
    ensures m.matchPercentage <= 100.0
    ensures req.bonus >= 0 ==> m.matchPercentage == 100.0 && m.breakdown.coreSkills == 10.0
    ensures m.breakdown.preferredSkills == m.breakdown.coreSkills == AtMost100(m.matchPercentage * 0.1)
    ensures m.coreMatch == m.preferredMatch == m.matchPercentage
    ensures m.matchedSkills == AsJson(req.skills)
    ensures m.missingCore == JArr([]) && m.missingPreferred == JArr([])
    ensures m.recommendations == JArr(FallbackRecommendations)
    ensures m.breakdown.experienceBonus == req.bonus as real
    ensures m.debugInferred.None?
    ensures error != [] ==> m.note == Some(FallbackNotePrefix + error)
    ensures error == [] ==> m.note == Some("Fallback used.")
  {
    var overall := AtMost100(100.0 + req.bonus as real);
    MatchResult(
      overall,
      AtMost100(overall),
      AtMost100(overall),
      AsJson(req.skills),
      JArr([]),
      JArr([]),
      JArr(FallbackRecommendations),
      Breakdown(AtMost100(overall * 0.1), AtMost100(overall * 0.1), req.bonus as real),
      None,
      Some(if error != [] then FallbackNotePrefix + error else "Fallback used."))
  }

  /** `analyze_match` with the intended fallback: only a skill entry that is not a str
      makes it fail; every error of the model path becomes a fallback result. */
  function IntendedAnalyzeMatch(rt: Runtime, reply: Result<string, string>, role: Option<string>,
                                skills: Option<seq<SkillEntry>>, experience: Option<string>)
    : (r: Result<MatchResult, Error>)
    ensures r.Failure? <==> skills.Some? && exists k :: 0 <= k < |skills.value| && skills.value[k].NonText?
    ensures r.Success? ==> r.value.matchPercentage <= 100.0
    ensures r.Success? && r.value.note.Some? ==>
      GeminiPath(rt, reply, ExperienceBonus(experience)).Failure?
    ensures Normalise(role, skills, experience).Success? && GeminiPath(rt, reply, ExperienceBonus(experience)).Failure? ==>
      r == Success(IntendedFallback(Normalise(role, skills, experience).value,
                                    ErrorText(GeminiPath(rt, reply, ExperienceBonus(experience)).error)))
  {
    var req :- Normalise(role, skills, experience);
    match GeminiPath(rt, reply, req.bonus)
    case Success(m) => Success(m)
    case Failure(e) => Success(IntendedFallback(req, ErrorText(e)))
  }

  /** Where the model path succeeds, the corrected line makes no difference. */
  lemma IntendedAgreesWithAnalyzeMatch(rt: Runtime, reply: Result<string, string>, role: Option<string>,
                                       skills: Option<seq<SkillEntry>>, experience: Option<string>)
    requires GeminiPath(rt, reply, ExperienceBonus(experience)).Success?
    ensures IntendedAnalyzeMatch(rt, reply, role, skills, experience) == AnalyzeMatch(rt, reply, role, skills, experience)
  {
  }

  /** An error `e` of the model path becomes the intended fallback result for `str(e)`. */
  lemma IntendedOnFailedPath(rt: Runtime, reply: Result<string, string>, role: Option<string>,
                             skills: Option<seq<SkillEntry>>, experience: Option<string>, e: Error)
    requires Normalise(role, skills, experience).Success?
    requires GeminiPath(rt, reply, ExperienceBonus(experience)) == Failure(e)
    ensures IntendedAnalyzeMatch(rt, reply, role, skills, experience)
      == Success(IntendedFallback(Normalise(role, skills, experience).value, ErrorText(e)))
  {
  }

  /** The fallback for NoJsonFound notes `_safe_json_extract`'s own message. */
  lemma NoJsonFallback(req: Request)
    ensures IntendedFallback(req, ErrorText(NoJsonFound)) == IntendedFallback(req, NoJsonMessage)
  {
  }

  /** With the intended fallback, a reply without braces yields the fallback result for
      the message of `_safe_json_extract`'s ValueError: the noted error names the missing
      JSON object and the matched skills are the input skills. */
  lemma {:induction false} NoBracesIntended(rt: Runtime, text: string, role: Option<string>,
                                            skills: Option<seq<SkillEntry>>, experience: Option<string>)
    requires Normalise(role, skills, experience).Success?
    requires rt.loads(text).None?
    requires forall i, j :: 0 <= i < j < |text| ==> !(text[i] == '{' && text[j] == '}')
    ensures IntendedAnalyzeMatch(rt, Success(text), role, skills, experience)
      == Success(IntendedFallback(Normalise(role, skills, experience).value, NoJsonMessage))
  {
    NoBracesPathFails(rt, text, ExperienceBonus(experience));
    IntendedOnFailedPath(rt, Success(text), role, skills, experience, NoJsonFound);
    NoJsonFallback(Normalise(role, skills, experience).value);
  }
}
