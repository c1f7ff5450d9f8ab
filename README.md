# Job-match analyzer, modelled in Dafny

`JobMatchAnalyzer.analyze_match` takes a candidate's skills, a job role and an
experience band, asks a language model (Gemini) to compare them, and turns the
model's free-text reply into a match result. This project models the
deterministic work around that model call:

- **input normalisation**: the role is stripped. Each skill is stripped,
  lower-cased and has its spaces turned into hyphens. The band is looked up in
  the fixed bonus table `0-1 → 0, 1-3 → 5, 3-5 → 10, 5-7 → 15, 7+ → 20`;
  any other band gives 0.
- **JSON recovery** (`_safe_json_extract`): the reply is decoded whole if it can
  be. Otherwise the span matched by `\{.*\}` (greedy, DOTALL) is decoded. The
  regex is modelled as a backtracking scan (module `BraceSearch`). The model
  proves that the span runs from the first `{` to the last `}`.
- **result assembly**: scores default to 0.0. `match_percentage` is
  `min(100, overall_before + bonus)`. The matched lists are merged through a
  Python `set`, recommendations are cut to six entries, and the other fields
  pass through unchanged.
- **the fallback**, as the code has it. Its first line `min(100.0 + exp_bonus)`
  calls `min` on one float, which raises `TypeError`. So the fallback never
  returns a result. Every failure of the model path therefore leaves
  `analyze_match` as an exception.

The modules are:

- `Wrappers`: Option/Result.
- `PyStr`: `strip`, `lower`, `replace`.
- `PyJson`: decoded JSON values and the Python builtins applied to them (`dict.get`, `float()`, `set(a + b)`, slicing).
- `BraceSearch`: the regex search.
- `AiAnalyzer`: the analyzer itself.
- `WorkedCases`: one concrete reply carried through.

Everything is a pure function, datatype or lemma, because the source builds values
from expressions and changes nothing in place.

Inputs the model takes as parameters:

- The model's reply is `Result<string, string>`: the reply text, or the message of the exception that `generate_content` or `.text` raised.
- `json.loads` and `float()` of a `str` are opaque functions in `Runtime`. Only what the analyzer does around them is modelled.
- A skill entry is `Text(s)` or `NonText`: any other JSON value.
- A missing (None) role, skill list or band is `None`.

Where the intended behaviour described for this component differs from the code,
the model follows the code:

- Non-string skills are not skipped: `.strip()` raises, outside the `try`.
- A non-numeric score is not defaulted to 0: `float()` raises. The fallback is then taken, and it raises in turn.
- Nothing clamps `core_match`, `preferred_match` or the lower end of `match_percentage`.
- The entry point can fail.

## Model

| member | source | states |
|---|---|---|
| `AiAnalyzer.ExperienceBonus` | matcher/ai_analyzer.py:11-17 | band k of `0-1, 1-3, 3-5, 5-7, 7+` gives 5·k; a missing or unknown band gives 0; the bonus is a multiple of 5 within 0..20 |
| `AiAnalyzer.NormaliseSkill` | matcher/ai_analyzer.py:43 | a normalised skill is no longer than its input and contains no space |
| `AiAnalyzer.NormaliseSkillIdempotent` | matcher/ai_analyzer.py:43 | normalising a normalised skill changes nothing |
| `AiAnalyzer.NormalisedShape` | matcher/ai_analyzer.py:43 | a normalised skill has no whitespace at either end and is fixed by lower-casing and hyphenation |
| `AiAnalyzer.NormaliseSkills` | matcher/ai_analyzer.py:43 | succeeds exactly when every entry is a str; then same length and order, element k the normal form of entry k; otherwise fails at the first non-str entry |
| `AiAnalyzer.Normalise` | matcher/ai_analyzer.py:42-44 | role is the stripped role (missing → ""), skills normalised (missing list → []), bonus from the table; fails only on a non-str skill |
| `PyStr.Strip` | matcher/ai_analyzer.py:43 | result is a slice of the input with only whitespace cut away on either side and no whitespace at its ends |
| `PyStr.Lower` | matcher/ai_analyzer.py:43 | `.lower()` keeps the length and lower-cases each character in place (ASCII letters; every other character unchanged) |
| `PyStr.ReplaceSpaces` | matcher/ai_analyzer.py:43 | `.replace(" ", "-")` keeps the length, turns each space into a hyphen and leaves every other character as it is |
| `PyStr.StripEmptyIffAllSpace` | matcher/ai_analyzer.py:43 | strip gives "" exactly when every character is whitespace |
| `BraceSearch.SearchFrom` | matcher/ai_analyzer.py:25 | the regex scan returns the leftmost start of a `{`…`}` match and, at that start, the longest one; none when no `{` precedes a `}` |
| `BraceSearch.FirstOpenToLastClose` | matcher/ai_analyzer.py:25 | a match exists exactly when some `{` precedes some `}`; it starts at the first `{` and ends at the last `}` of the text |
| `BraceSearch.Span` | matcher/ai_analyzer.py:25-26 | `match` is not None exactly when some `{` precedes some `}`; its span is a match with no `{` before its start and no `}` after its end |
| `BraceSearch.Search` | matcher/ai_analyzer.py:25-26 | `group(0)` is that span: at least two characters, opening with `{` and closing with `}` |
| `BraceSearch.BracedTextMatchesWhole` | matcher/ai_analyzer.py:25 | a text that opens with `{` and closes with `}` is matched whole |
| `AiAnalyzer.SafeJsonExtract` | matcher/ai_analyzer.py:20-28 | text that decodes is returned as decoded with no search; otherwise success exactly when the span exists and decodes; NoJsonFound exactly when no `{` precedes a `}` |
| `AiAnalyzer.EmbeddedObjectSpan` | matcher/ai_analyzer.py:24-28 | prose without `{` before an object and without `}` after it is dropped: the span is the object |
| `AiAnalyzer.Score` | matcher/ai_analyzer.py:82-84 | a missing score is 0.0; a present one succeeds exactly when `float()` accepts it and is then its value (a number is itself); null/list/dict raise NotNumeric for that key |
| `PyJson.Float` | matcher/ai_analyzer.py:82-84 | `float()` gives a number unchanged, True/False as 1.0/0.0, a string as Python's float parser reads it, and raises on null, lists and dicts |
| `PyJson.SetOfConcat` | matcher/ai_analyzer.py:92-93 | `list(set(a + b))` succeeds exactly for two lists of hashable values or two strings; no two members equal, same members as the concatenation, nothing new |
| `PyJson.SetOfStringLists` | matcher/ai_analyzer.py:92-93 | for lists of strings: no duplicates, and a value is in the result exactly when it is in either list |
| `PyJson.SliceTo` | matcher/ai_analyzer.py:96 | `v[:n]` of a list or string is its prefix of length min(n, len); other values raise |
| `AiAnalyzer.MatchedSkills` | matcher/ai_analyzer.py:92-93 | the merge succeeds exactly when the two fields (missing → []) are both lists or both strs with hashable elements; the result then has no two equal members and the same members as the concatenation; otherwise BadMatchedLists |
| `AiAnalyzer.Recommendations` | matcher/ai_analyzer.py:96 | the slice succeeds exactly when the field (missing → []) is a list or a str; for a list it is the prefix of length min(6, len); otherwise NotSliceable |
| `AiAnalyzer.Assemble` | matcher/ai_analyzer.py:82-106 | fails exactly when the payload is not a dict or a field has the wrong type; match ≤ 100, equal to overall_before + bonus when that is ≤ 100, else 100; core and preferred unclamped; matched skills distinct with the union's members; recommendations are `v[:6]` of the field (a list or a str), so for a list a prefix of length min(6, len); missing and inferred lists passed through; breakdown bonus is the bonus |
| `AiAnalyzer.MatchedSkillsAreUnion` | matcher/ai_analyzer.py:92-93 | with string lists, the matched skills have no duplicates and a skill is in them exactly when it is in the core or the preferred list |
| `AiAnalyzer.EmptyPayloadDefaults` | matcher/ai_analyzer.py:82-106 | an empty object gives zero scores, no skills, empty lists and min(100, bonus) as match |
| `AiAnalyzer.GeminiPath` | matcher/ai_analyzer.py:79-106 | a model-call error becomes OracleFailure with its message; a reply whose extraction fails fails with that error; a reply whose extraction succeeds gets exactly Assemble's outcome on the payload; it never fails with SkillNotText or FallbackCrashed |
| `AiAnalyzer.Fallback` | matcher/ai_analyzer.py:108-110 | always fails with the fallback's TypeError, carrying the error it was handling; no result dict is built |
| `AiAnalyzer.AnalyzeMatch` | matcher/ai_analyzer.py:41-49 | fails with SkillNotText exactly when a skill is not a str; otherwise returns the model path's result, or fails with FallbackCrashed of its error; every result has match ≤ 100, no note and the table bonus |
| `AiAnalyzer.ErrorText` | matcher/ai_analyzer.py:48-49 | `str(e)` of NoJsonFound is the ValueError's message "No JSON object found in AI output."; of a model-call error, that error's own message |
| `AiAnalyzer.NoFallbackResult` | matcher/ai_analyzer.py:46-49 | whenever the model path fails, analyze_match fails with the fallback's TypeError |
| `AiAnalyzer.NoBracesPathFails` | matcher/ai_analyzer.py:24-27 | a reply that does not decode and has no `{` before a `}` fails extraction, and so the model path, with NoJsonFound |
| `AiAnalyzer.NoBracesIsFatal` | matcher/ai_analyzer.py:24-27 | a reply that does not decode and has no `{`…`}` span ends in FallbackCrashed(NoJsonFound) |
| `AiAnalyzer.IntendedFallback` | matcher/ai_analyzer.py:112-131 | with `min(100.0, 100.0 + bonus)` the fallback returns: match 100 for a non-negative bonus, core and preferred equal to it, both breakdown scores min(match · 0.1, 100) (10 for a non-negative bonus), the input skills as matched, three fixed tips, empty lists, the note with the error text, or "Fallback used." when the error text is empty |
| `AiAnalyzer.IntendedAnalyzeMatch` | matcher/ai_analyzer.py:46-49 | fails exactly when some skill is not a str; every result has match ≤ 100; a result with a note comes only from a failed model path; a failed model path gives the intended fallback for `str(e)` of its error |
| `AiAnalyzer.IntendedAgreesWithAnalyzeMatch` | matcher/ai_analyzer.py:46-47 | whenever the model path succeeds, the corrected entry point returns what the code as written returns |
| `AiAnalyzer.IntendedOnFailedPath` | matcher/ai_analyzer.py:48-49 | an error e of the model path becomes the intended fallback result for `str(e)` |
| `AiAnalyzer.NoJsonFallback` | matcher/ai_analyzer.py:27 | the intended fallback for NoJsonFound notes the message "No JSON object found in AI output." |
| `AiAnalyzer.NoBracesIntended` | matcher/ai_analyzer.py:112-131 | with the intended fallback, a reply with no span yields the fallback result for the message "No JSON object found in AI output.", so its note names the missing JSON object and its matched skills are the input skills |
| `WorkedCases.EmbeddedReplyExtract` | matcher/ai_analyzer.py:20-28 | the object wrapped in "Here is the result:" … "Thanks!" is what gets decoded |
| `WorkedCases.EmbeddedReplyAssemble` | matcher/ai_analyzer.py:82-106 | that object with band 3-5 gives exactly: match 80, core 80, preferred 60, matched skills ["python"], empty missing, recommendation and inferred lists, breakdown (80, 60, 10), no note |
| `WorkedCases.EmbeddedReplyAnalyzed` | matcher/ai_analyzer.py:41-49 | the whole of `analyze_match` on that reply, for any role and any list of str skills, returns exactly that result and never reaches the fallback |

## Findings

| source | as written | input that shows it | evidently intended | confidence | as-written member | corrected member |
|---|---|---|---|---|---|---|
| matcher/ai_analyzer.py:110 | `overall = min(100.0 + exp_bonus)` calls `min` on a single float, which raises `TypeError: 'float' object is not iterable` inside the `except` handler of `analyze_match` | a reply "no json here" (no braces) for skills ["Python"] and band "3-5": the model path raises NoJsonFound, and the fallback then raises TypeError instead of returning | `min(100.0, 100.0 + exp_bonus)`, so that the fallback returns its result dict | high; not executed | `AiAnalyzer.NoBracesIsFatal` | `AiAnalyzer.IntendedAnalyzeMatch` |

`AiAnalyzer.AnalyzeMatch` keeps the code as written. Built on
`AiAnalyzer.IntendedFallback`, `AiAnalyzer.IntendedAnalyzeMatch` is the entry
point with the corrected line. It fails only on a non-str skill, and
`AiAnalyzer.NoBracesIntended` shows the same reply turned into a fallback result.

## Left out

- `JobMatchAnalyzer.__init__` (lines 34-39): reading `GOOGLE_API_KEY`, `genai.configure` and building the model. This is environment access and foreign library code.
- The model call itself (line 79): the reply is an input. Network code is not modelled.
- The prompt f-string (lines 52-77): pure templating. Only the model's reply matters to what is computed.
- `json.loads` internals, including `RecursionError` on deeply nested input. Decoding is the opaque `Runtime.loads`.
- `float()` of a numeric string: it is the opaque `Runtime.floatOfStr`. NaN, infinities, overflow and IEEE behaviour are not modelled either: scores are unbounded `real`s.
- Rounding: `round(x, 1)` on lines 89-91 and 98-99 is left out, and the percentages are kept unrounded.
- `print(overall)` (line 86): output only.
- `str.lower` outside ASCII: `PyStr.LowerChar` lowers A-Z only. Unicode case mapping is not modelled. `strip` does use Python's full whitespace set.
- Inputs of other Python types are not modelled: a role that is a truthy non-str (it raises on `.strip()`), a skill "list" that is a str or a dict (iterated by character or by key), and an unhashable experience value (a `TypeError` in `dict.get`).
- `PyJson.SetOfConcat`: the result is listed in first-insertion order. The contract promises no order, since a Python set has none. Numbers are plain `real`s, so `1` and `1.0` come out alike.
- `AiAnalyzer.ErrorText`: only NoJsonFound carries the source's own message, and a model-call error its own text. The other texts stand for messages written by Python's runtime, and its contract states only the first two. SkillNotText and FallbackCrashed never reach it.
- `matcher/views.py`, `matcher/forms.py`, `matcher/models.py` are not part of this model. They are a Django request handler, form declarations and ORM schema, with no analyzer logic.
