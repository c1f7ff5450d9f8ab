/** `re.search(r"\{.*\}", s, re.DOTALL)`, the way a backtracking regex engine runs it:
    try each start position from the left; at a `{`, the greedy `.*` first takes the
    rest of the text and then gives characters back one at a time until a `}` follows.
    With DOTALL, `.` matches every character, newlines included. */
module BraceSearch {
  import opened Wrappers

  /** `s[i..j+1]` is a text the pattern `\{.*\}` matches. */
  predicate IsMatch(s: string, i: int, j: int) {
    0 <= i < j < |s| && s[i] == '{' && s[j] == '}'
  }

  /** After the `{` at `i`: the end positions `e, e-1, ..., i+1` are tried in turn and the
      first `}` among them ends the match. */
  function Backtrack(s: string, i: nat, e: int): (r: Option<nat>)
    requires i < |s| && e < |s|
    ensures r.Some? ==>
      i < r.value <= e && s[r.value] == '}' && forall k :: r.value < k <= e ==> s[k] != '}'
    ensures r.None? ==> forall k :: i < k <= e ==> s[k] != '}'
    decreases e - i
  {
    if e <= i then None
    else if s[e] == '}' then Some(e)
    else Backtrack(s, i, e - 1)
  }

  /** The match starting at `i`, if any, given by its end position. */
  function MatchAt(s: string, i: nat): (r: Option<nat>)
    requires i < |s|
    ensures r.Some? ==> IsMatch(s, i, r.value) && forall j :: IsMatch(s, i, j) ==> j <= r.value
    ensures r.None? ==> forall j :: !IsMatch(s, i, j)
  {
    if s[i] == '{' then Backtrack(s, i, |s| - 1) else None
  }

  /** The scan over start positions `from, from+1, ...`: the first start at which the
      pattern matches, with the end the greedy star reaches from there. */
  function SearchFrom(s: string, from: nat): (r: Option<(nat, nat)>)
    requires from <= |s|
    ensures r.Some? ==> from <= r.value.0 && IsMatch(s, r.value.0, r.value.1)
    ensures r.Some? ==> forall i, j :: from <= i && IsMatch(s, i, j) ==>
      r.value.0 < i || (r.value.0 == i && j <= r.value.1)
    ensures r.None? ==> forall i, j :: from <= i ==> !IsMatch(s, i, j)
    decreases |s| - from
  {
    if from == |s| then None
    else
      match MatchAt(s, from)
      case Some(j) => Some((from, j))
      case None => SearchFrom(s, from + 1)
  }

  /** The leftmost, then longest, match runs from the first `{` of the text to its last `}`. */
  lemma {:induction false} FirstOpenToLastClose(s: string)
    ensures SearchFrom(s, 0).Some? <==> exists i, j :: IsMatch(s, i, j)
    ensures SearchFrom(s, 0).Some? ==>
      var (i, j) := SearchFrom(s, 0).value;
      && (forall k :: 0 <= k < i ==> s[k] != '{')
      && (forall k :: j < k < |s| ==> s[k] != '}')
  {
    if SearchFrom(s, 0).Some? {
      var (i, j) := SearchFrom(s, 0).value;
      forall k | 0 <= k < i ensures s[k] != '{' {
        assert !IsMatch(s, k, j);
      }
      forall k | j < k < |s| ensures s[k] != '}' {
        assert !IsMatch(s, i, k);
      }
    }
  }

  /** The span `(start, end)` of the match of `\{.*\}` in `s`, or None when nothing matches:
      there is a match exactly when some `{` comes before some `}`, and then it starts at
      the first `{` and ends at the last `}`. */
  function Span(s: string): (r: Option<(nat, nat)>)
    ensures r.Some? <==> exists i, j :: IsMatch(s, i, j)
    ensures r.Some? ==>
      && IsMatch(s, r.value.0, r.value.1)
      && (forall k :: 0 <= k < r.value.0 ==> s[k] != '{')
      && (forall k :: r.value.1 < k < |s| ==> s[k] != '}')
  {
    FirstOpenToLastClose(s);
    SearchFrom(s, 0)
  }

  /** `match.group(0)`: the text the search matched, if it matched at all. */
  function Search(s: string): (r: Option<string>)
    ensures r.Some? <==> exists i, j :: IsMatch(s, i, j)
    ensures r.Some? ==>
      && r.value == s[Span(s).value.0..Span(s).value.1 + 1]
      && 2 <= |r.value| && r.value[0] == '{' && r.value[|r.value| - 1] == '}'
  {
    match Span(s)
    case None => None
    case Some((i, j)) => Some(s[i..j + 1])
  }

  /** A text that starts with `{` and ends with `}` is matched whole. */
  lemma {:induction false} BracedTextMatchesWhole(s: string)
    requires 2 <= |s| && s[0] == '{' && s[|s| - 1] == '}'
    ensures Search(s) == Some(s)
  {
    assert IsMatch(s, 0, |s| - 1);
    var (i, j) := SearchFrom(s, 0).value;
    assert i == 0 && j == |s| - 1;
    assert s[0..|s|] == s;
  }
}
