/**
 * Values shared by every part of the model: the optional and failure
 * wrappers that stand for Python's `None` and raised exceptions, the
 * JSON-like dictionaries the services pass around, Python's string
 * operations that the services rely on (`in`, `find`, `split(...)[-1]`,
 * `strip()`, `endswith`) and POSIX `os.path.join`.
 */
module Common {

  datatype Option<+T> = None | Some(value: T)

  /** A call that returns a value or raises; `error` is `str(e)`. */
  datatype Result<+T> = Ok(value: T) | Err(error: string)

  /** A call that returns nothing or raises; `error` is `str(e)`. */
  datatype Outcome = Pass | Fail(error: string)

  /** A JSON scalar as held in the metadata dictionaries. */
  datatype Value = Null | Str(s: string) | Int(i: int)

  type Dict = map<string, Value>

  /** The message of Python's `IndexError` for a list index past the end. */
  const IndexOutOfRange := "list index out of range"

  /** Python's `d.get(key, default)`. */
  function DictGet(d: Dict, key: string, default: Value): Value
  {
    if key in d then d[key] else default
  }

  // ---------------------------------------------------------------------
  // Substrings

  predicate IsPrefix(p: string, s: string)
  {
    |p| <= |s| && s[..|p|] == p
  }

  predicate IsSuffix(p: string, s: string)
  {
    |p| <= |s| && s[|s| - |p|..] == p
  }

  /** `sep` occurs in `s` starting at index `i`. */
  predicate OccursAt(s: string, sep: string, i: int)
  {
    0 <= i && i + |sep| <= |s| && s[i..i + |sep|] == sep
  }

  /** Python's `sep in s`. */
  predicate Contains(s: string, sep: string)
  {
    exists i | 0 <= i <= |s| :: OccursAt(s, sep, i)
  }

  /** Python's `s.find(sep, from)`, as an optional index. */
  function FindFrom(s: string, sep: string, from: nat): (r: Option<nat>)
    ensures r.Some? ==> from <= r.value && OccursAt(s, sep, r.value)
    ensures r.Some? ==> forall j :: from <= j < r.value ==> !OccursAt(s, sep, j)
    ensures r.None? ==> forall j :: from <= j ==> !OccursAt(s, sep, j)
    decreases |s| - from
  {
    if from + |sep| > |s| then None
    else if s[from..from + |sep|] == sep then Some(from)
    else FindFrom(s, sep, from + 1)
  }

  /**
   * Where the last piece of `s.split(sep)` starts when the scan resumes at
   * `from`: `split` finds the next occurrence at or after `from`, cuts
   * there and resumes right after the separator, so the occurrences it
   * consumes never overlap.
   */
  function LastCut(s: string, sep: string, from: nat): (c: nat)
    requires |sep| > 0 && from <= |s|
    ensures from <= c <= |s|
    ensures c == from || (|sep| <= c && OccursAt(s, sep, c - |sep|))
    ensures forall j :: c <= j ==> !OccursAt(s, sep, j)
    decreases |s| - from
  {
    match FindFrom(s, sep, from)
    case None => from
    case Some(i) => LastCut(s, sep, i + |sep|)
  }

  /** Python's `s.split(sep)[-1]`: what follows the last occurrence the scan consumes. */
  function LastPiece(s: string, sep: string): (r: string)
    requires |sep| > 0
  {
    s[LastCut(s, sep, 0)..]
  }

  // ---------------------------------------------------------------------
  // Whitespace and str.strip()

  /** Python's `str.isspace()` for one character (the set `strip()` removes). */
  predicate IsSpace(c: char)
  {
    || ('\t' <= c <= '\r')
    || ('\U{1C}' <= c <= ' ')
    || c == '\U{85}' || c == '\U{A0}' || c == '\U{1680}'
    || ('\U{2000}' <= c <= '\U{200A}')
    || c == '\U{2028}' || c == '\U{2029}' || c == '\U{202F}' || c == '\U{205F}'
    || c == '\U{3000}'
  }

  predicate AllSpace(s: string)
  {
    forall k :: 0 <= k < |s| ==> IsSpace(s[k])
  }

  function TrimLeft(s: string): (r: string)
    ensures IsSuffix(r, s)
    ensures AllSpace(s[..|s| - |r|])
    ensures r == [] || !IsSpace(r[0])
  {
    if |s| > 0 && IsSpace(s[0]) then
      var r := TrimLeft(s[1..]);
      assert s[..|s| - |r|] == [s[0]] + s[1..][..|s| - 1 - |r|];
      r
    else s
  }

  function TrimRight(s: string): (r: string)
    ensures IsPrefix(r, s)
    ensures AllSpace(s[|r|..])
    ensures r == [] || !IsSpace(r[|r| - 1])
  {
    if |s| > 0 && IsSpace(s[|s| - 1]) then
      var r := TrimRight(s[..|s| - 1]);
      assert s[|r|..] == s[..|s| - 1][|r|..] + [s[|s| - 1]];
      r
    else s
  }

  /**
   * A suffix of `s` with only whitespace cut before it, and a prefix of
   * that with only whitespace cut after it, is a slice of `s` with only
   * whitespace around it.
   */
  lemma TrimmedSlice(s: string, left: string, r: string)
    requires IsSuffix(left, s) && AllSpace(s[..|s| - |left|])
    requires IsPrefix(r, left) && AllSpace(left[|r|..])
    ensures exists i, j :: 0 <= i <= j <= |s| && r == s[i..j] && AllSpace(s[..i]) && AllSpace(s[j..])
  {
    var i := |s| - |left|;
    var j := i + |r|;
    assert r == s[i..j];
    assert left[|r|..] == s[j..];
  }

  /**
   * Python's `s.strip()`: `s` with its leading and trailing whitespace
   * removed; empty exactly when `s` is all whitespace.
   */
  function Strip(s: string): (r: string)
    ensures r == [] || (!IsSpace(r[0]) && !IsSpace(r[|r| - 1]))
    ensures r == [] <==> AllSpace(s)
    ensures |r| <= |s|
    ensures exists i, j :: 0 <= i <= j <= |s| && r == s[i..j] && AllSpace(s[..i]) && AllSpace(s[j..])
  {
    var left := TrimLeft(s);
    var r := TrimRight(left);
    TrimmedSlice(s, left, r);
    assert r == [] ==> AllSpace(s) by {
      if r == [] {
        assert left == [];
        assert s[..|s| - |left|] == s;
      }
    }
    r
  }

  lemma {:induction false} StripIdempotent(s: string)
    ensures Strip(Strip(s)) == Strip(s)
  {
    var r := Strip(s);
    if r != [] {
      assert TrimLeft(r) == r;
      assert TrimRight(r) == r;
    }
  }

  // ---------------------------------------------------------------------
  // Paths

  /** POSIX `os.path.join(dir, name)`: an absolute `name` replaces `dir`. */
  function Join(dir: string, name: string): string
  {
    if |name| > 0 && name[0] == '/' then name
    else if dir == [] || dir[|dir| - 1] == '/' then dir + name
    else dir + "/" + name
  }

  /**
   * Under a relative directory name without a trailing separator, `Join`
   * gives different paths for different names: one file or directory per
   * name.
   */
  lemma JoinInjective(dir: string, a: string, b: string)
    requires dir != [] && dir[0] != '/' && dir[|dir| - 1] != '/'
    requires Join(dir, a) == Join(dir, b)
    ensures a == b
  {
    if !(|a| > 0 && a[0] == '/') && !(|b| > 0 && b[0] == '/') {
      var d := dir + "/";
      assert a == Join(dir, a)[|d|..];
      assert b == Join(dir, b)[|d|..];
    }
  }
}
