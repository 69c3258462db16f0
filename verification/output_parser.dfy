/**
 * `CustomOutputParser.parse` of agents/base_agent.py: turns the text an
 * LLM produced into the agent's next step. A text holding "Final Answer:"
 * finishes with what follows its last occurrence; otherwise the first
 * match of `Action: (\w+)(.*?)Action Input: (.*)` (with `re.DOTALL`)
 * names a tool and its input; otherwise the whole text is the answer.
 * The regular expression is modelled by the search Python's engine
 * performs: leftmost start, longest word for the greedy `\w+` that still
 * lets the rest match, first "Action Input: " after it for the lazy `.*?`.
 */
module OutputParser {
  import opened Common

  const FinalMarker := "Final Answer:"
  const ActionMarker := "Action: "
  const InputMarker := "Action Input: "

  datatype AgentStep =
    | AgentFinish(output: string, log: string)
    | AgentAction(tool: string, toolInput: string, log: string)

  /** `\w` on ASCII text: letters, digits and the underscore. */
  predicate IsWordChar(c: char)
  {
    ('a' <= c <= 'z') || ('A' <= c <= 'Z') || ('0' <= c <= '9') || c == '_'
  }

  /**
   * The regular expression matches `s` starting at `p` with a word of `n`
   * characters for `(\w+)` and "Action Input: " at `q`; `(.*)` then takes
   * the rest of the text.
   */
  predicate Matches(s: string, p: int, n: int, q: int)
  {
    && OccursAt(s, ActionMarker, p)
    && 1 <= n && p + |ActionMarker| + n <= q
    && OccursAt(s, InputMarker, q)
    && AllWord(s, p + |ActionMarker|, n)
  }

  /** The `n` characters from `i` on are word characters. */
  predicate AllWord(s: string, i: int, n: int)
    requires 0 <= i && 0 <= n && i + n <= |s|
  {
    forall k :: i <= k < i + n ==> IsWordChar(s[k])
  }

  /** Where a match starts, how long its word is and where its "Action Input: " is. */
  datatype Span = Span(start: nat, len: nat, at: nat)

  /** The number of word characters from `i` on. */
  function WordRun(s: string, i: nat): (n: nat)
    requires i <= |s|
    ensures i + n <= |s|
    ensures AllWord(s, i, n)
    ensures i + n == |s| || !IsWordChar(s[i + n])
    decreases |s| - i
  {
    if i < |s| && IsWordChar(s[i]) then 1 + WordRun(s, i + 1) else 0
  }

  /**
   * The engine's backtracking over `(\w+)` for a match at `p`: the word
   * takes `n` characters, then the lazy `.*?` looks for the first
   * "Action Input: " after it; failing that the word gives up one character.
   */
  function Backtrack(s: string, p: nat, n: nat): (m: Option<Span>)
    requires p + |ActionMarker| + n <= |s|
    ensures m.Some? ==> m.value.start == p && 1 <= m.value.len <= n
    ensures m.Some? ==> p + |ActionMarker| + m.value.len <= m.value.at && OccursAt(s, InputMarker, m.value.at)
    ensures m.Some? ==> forall j :: p + |ActionMarker| + m.value.len <= j < m.value.at ==> !OccursAt(s, InputMarker, j)
    ensures m.Some? && m.value.len < n ==> forall j :: p + |ActionMarker| + m.value.len < j ==> !OccursAt(s, InputMarker, j)
    ensures m.None? && n > 0 ==> forall j :: p + |ActionMarker| < j ==> !OccursAt(s, InputMarker, j)
    decreases n
  {
    if n == 0 then None
    else
      match FindFrom(s, InputMarker, p + |ActionMarker| + n)
      case Some(q) => Some(Span(p, n, q))
      case None => Backtrack(s, p, n - 1)
  }

  /**
   * The match the engine reports when it tries start `p`: among all
   * matches at `p` the one with the longest word, and for that word the
   * nearest "Action Input: ".
   */
  function MatchAt(s: string, p: nat): (m: Option<Span>)
    requires p <= |s|
    ensures m.Some? ==> m.value.start == p && Matches(s, p, m.value.len, m.value.at)
    ensures m.Some? ==> forall n, q :: Matches(s, p, n, q) ==> n <= m.value.len
    ensures m.Some? ==> forall q :: Matches(s, p, m.value.len, q) ==> m.value.at <= q
    ensures m.None? ==> forall n, q :: !Matches(s, p, n, q)
  {
    if !OccursAt(s, ActionMarker, p) then None
    else
      var w := p + |ActionMarker|;
      var run := WordRun(s, w);
      var m := Backtrack(s, p, run);
      m
  }

  /** `re.search` from position `from`: the match at the leftmost start that has one. */
  function SearchFrom(s: string, from: nat): (m: Option<Span>)
    requires from <= |s|
    ensures m.Some? ==> from <= m.value.start <= |s| && MatchAt(s, m.value.start) == m
    ensures m.Some? ==> Matches(s, m.value.start, m.value.len, m.value.at)
    ensures m.Some? ==> forall p :: from <= p < m.value.start ==> MatchAt(s, p).None?
    ensures m.None? ==> forall p :: from <= p <= |s| ==> MatchAt(s, p).None?
    decreases |s| - from
  {
    match MatchAt(s, from)
    case Some(span) => Some(span)
    case None => if from == |s| then None else SearchFrom(s, from + 1)
  }

  /** `CustomOutputParser.parse(text)`. It never fails, and its log is always the text it was given. */
  function Parse(text: string): (r: AgentStep)
    ensures r.log == text
  {
    if Contains(text, FinalMarker) then
      AgentFinish(Strip(LastPiece(text, FinalMarker)), text)
    else
      match SearchFrom(text, 0)
      case None => AgentFinish(Strip(text), text)
      case Some(m) => Action(text, m.start, m.len, m.at)
  }

  /**
   * `AgentAction(tool=group(1).strip(), tool_input=group(3).strip(), log=text)`
   * for the match at `start` with a word of `len` characters and
   * "Action Input: " at `at`.
   */
  function Action(text: string, start: nat, len: nat, at: nat): AgentStep
    requires start + |ActionMarker| + len <= |text| && at + |InputMarker| <= |text|
  {
    AgentAction(Strip(text[start + |ActionMarker|..start + |ActionMarker| + len]), Strip(text[at + |InputMarker|..]), text)
  }

  /** Two occurrences of "Final Answer:" never overlap: its first letter appears nowhere else in it. */
  lemma {:induction false} FinalMarkerApart(s: string, i: int, j: int)
    requires OccursAt(s, FinalMarker, i) && OccursAt(s, FinalMarker, j) && i < j
    ensures i + |FinalMarker| <= j
  {
    forall k | i <= k < i + |FinalMarker|
      ensures s[k] == FinalMarker[k - i]
    {
      assert s[k] == s[i..i + |FinalMarker|][k - i];
    }
    assert s[j] == FinalMarker[0];
  }

  /**
   * A text holding "Final Answer:" finishes the run, whatever else it
   * holds, with the stripped text after the marker's last occurrence.
   */
  lemma {:induction false} ParseFinal(text: string, i: nat)
    requires OccursAt(text, FinalMarker, i)
    requires forall j :: i < j ==> !OccursAt(text, FinalMarker, j)
    ensures Parse(text) == AgentFinish(Strip(text[i + |FinalMarker|..]), text)
  {
    assert Contains(text, FinalMarker);
    LastFinalCut(text, 0, i);
  }

  /**
   * Resumed anywhere before the last "Final Answer:", the scan of `split`
   * consumes that very occurrence last: every separator it cuts at before
   * lies wholly before it.
   */
  lemma {:induction false} LastFinalCut(text: string, from: nat, i: nat)
    requires from <= i && OccursAt(text, FinalMarker, i)
    requires forall j :: i < j ==> !OccursAt(text, FinalMarker, j)
    ensures LastCut(text, FinalMarker, from) == i + |FinalMarker|
    decreases i - from
  {
    var f := FindFrom(text, FinalMarker, from);
    assert f.Some? && f.value <= i;
    if f.value < i {
      FinalMarkerApart(text, f.value, i);
      LastFinalCut(text, f.value + |FinalMarker|, i);
    } else {
      assert FindFrom(text, FinalMarker, i + |FinalMarker|).None?;
    }
  }

  /**
   * Without "Final Answer:", the regular expression's match decides: the
   * tool is the word after the leftmost "Action: " that starts a match
   * (as long a word as still matches), and its input is the text after
   * the first "Action Input: " following that word, both stripped.
   */
  lemma {:induction false} ParseAction(text: string, p: nat, n: nat, q: nat)
    requires !Contains(text, FinalMarker)
    requires Matches(text, p, n, q)
    requires forall p', n', q' :: Matches(text, p', n', q') ==> p <= p'
    requires forall n', q' :: Matches(text, p, n', q') ==> n' <= n
    requires forall q' :: Matches(text, p, n, q') ==> q <= q'
    ensures Parse(text) == AgentAction(Strip(text[p + |ActionMarker|..p + |ActionMarker| + n]), Strip(text[q + |InputMarker|..]), text)
  {
    var m := MatchAt(text, p);
    assert m.Some?;
    assert m.value.len == n && m.value.at == q;
    SearchLeftmost(text, p);
    ParseSearched(text, p, n, q);
  }

  /** Without "Final Answer:", the match `re.search` reports makes the action. */
  lemma {:induction false} ParseSearched(text: string, p: nat, n: nat, q: nat)
    requires !Contains(text, FinalMarker) && SearchFrom(text, 0) == Some(Span(p, n, q))
    ensures p + |ActionMarker| + n <= |text| && q + |InputMarker| <= |text|
    ensures Parse(text) == AgentAction(Strip(text[p + |ActionMarker|..p + |ActionMarker| + n]), Strip(text[q + |InputMarker|..]), text)
  {
  }

  /** `re.search` reports the match at the leftmost start that has one. */
  lemma {:induction false} SearchLeftmost(text: string, p: nat)
    requires p <= |text| && MatchAt(text, p).Some?
    requires forall p' :: 0 <= p' < p ==> MatchAt(text, p').None?
    ensures SearchFrom(text, 0) == MatchAt(text, p)
  {
    var m := SearchFrom(text, 0);
    assert m.Some?;
    assert MatchAt(text, m.value.start).Some?;
  }

  /** Without either marker pattern, the whole text, stripped, is the answer. */
  lemma {:induction false} ParseNoAction(text: string)
    requires !Contains(text, FinalMarker)
    requires forall p, n, q :: !Matches(text, p, n, q)
    ensures Parse(text) == AgentFinish(Strip(text), text)
  {
  }
}
