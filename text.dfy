/**
 * The string operations the parsers rely on: Python's `str.strip()`,
 * `str.split()` with no separator, `" ".join(...)` and the test for a blank
 * or comment line (src/COLMAP_Tracking_Importer_C4D_v1_3.py:46-47, 60-62, 82-83).
 */
module Text {

  /** Python's whitespace: the characters `str.isspace()` accepts. */
  predicate IsSpace(c: char)
  {
    || c == ' ' || c == '\t' || c == '\n' || c == '\r' || c == '\U{000B}' || c == '\U{000C}'
    || ('\U{001C}' <= c <= '\U{001F}') || c == '\U{0085}' || c == '\U{00A0}' || c == '\U{1680}'
    || ('\U{2000}' <= c <= '\U{200A}') || c == '\U{2028}' || c == '\U{2029}' || c == '\U{202F}'
    || c == '\U{205F}' || c == '\U{3000}'
  }

  predicate AllSpace(s: string)
  {
    forall i :: 0 <= i < |s| ==> IsSpace(s[i])
  }

  predicate NoSpace(s: string)
  {
    forall i :: 0 <= i < |s| ==> !IsSpace(s[i])
  }

  /** s without its leading whitespace. */
  function TrimStart(s: string): (r: string)
    ensures |r| <= |s|
    ensures r == [] || !IsSpace(r[0])
    decreases |s|
  {
    if s != [] && IsSpace(s[0]) then TrimStart(s[1..]) else s
  }

  /** `TrimStart` removes a prefix, and that prefix is whitespace. */
  lemma {:induction false} TrimStartSuffix(s: string)
    ensures TrimStart(s) == s[|s| - |TrimStart(s)|..]
    ensures AllSpace(s[..|s| - |TrimStart(s)|])
    decreases |s|
  {
    if s != [] && IsSpace(s[0]) {
      TrimStartSuffix(s[1..]);
    }
  }

  /** s without its trailing whitespace. */
  function TrimEnd(s: string): (r: string)
    ensures |r| <= |s|
    ensures r == [] || !IsSpace(r[|r| - 1])
    decreases |s|
  {
    if s != [] && IsSpace(s[|s| - 1]) then TrimEnd(s[..|s| - 1]) else s
  }

  /** `TrimEnd` removes a suffix, and that suffix is whitespace. */
  lemma {:induction false} TrimEndPrefix(s: string)
    ensures TrimEnd(s) == s[..|TrimEnd(s)|]
    ensures AllSpace(s[|TrimEnd(s)|..])
    decreases |s|
  {
    if s != [] && IsSpace(s[|s| - 1]) {
      TrimEndPrefix(s[..|s| - 1]);
    }
  }

  /** `str.strip()`: s without leading and trailing whitespace. */
  function Strip(s: string): string
  {
    TrimEnd(TrimStart(s))
  }

  /** What `Strip` removes is whitespace, and what it keeps starts and ends with a non-space. */
  lemma StripProperties(s: string)
    ensures exists i, j :: 0 <= i <= j <= |s| && Strip(s) == s[i..j] && AllSpace(s[..i]) && AllSpace(s[j..])
    ensures Strip(s) == [] || (!IsSpace(Strip(s)[0]) && !IsSpace(Strip(s)[|Strip(s)| - 1]))
  {
    var t := TrimStart(s);
    var i := |s| - |t|;
    var r := TrimEnd(t);
    TrimStartSuffix(s);
    TrimEndPrefix(t);
    assert s[i..i + |r|] == r;
    assert s[i + |r|..] == t[|r|..];
    if r != [] {
      assert r[0] == t[0];
    }
  }

  /** A blank line or a comment line: nothing but whitespace, or '#' first after it. */
  predicate IsCommentOrBlank(line: string)
  {
    var s := Strip(line);
    s == [] || s[0] == '#'
  }

  /** The longest prefix of s without whitespace. */
  function Word(s: string): (r: string)
    ensures |r| <= |s|
    ensures s != [] && !IsSpace(s[0]) ==> r != []
    decreases |s|
  {
    if s == [] || IsSpace(s[0]) then [] else [s[0]] + Word(s[1..])
  }

  /** `Word` is a prefix without whitespace that stops at whitespace or at the end. */
  lemma {:induction false} WordPrefix(s: string)
    ensures Word(s) == s[..|Word(s)|]
    ensures NoSpace(Word(s))
    ensures |Word(s)| < |s| ==> IsSpace(s[|Word(s)|])
    decreases |s|
  {
    if s != [] && !IsSpace(s[0]) {
      WordPrefix(s[1..]);
    }
  }

  /** `str.split()`: the maximal runs of non-whitespace characters, in order. */
  function Split(s: string): seq<string>
    decreases |s|
  {
    var t := TrimStart(s);
    if t == [] then []
    else
      var w := Word(t);
      [w] + Split(t[|w|..])
  }

  /** Every token of `Split` is non-empty and holds no whitespace. */
  lemma {:induction false} SplitTokens(s: string)
    ensures forall k :: 0 <= k < |Split(s)| ==> Split(s)[k] != [] && NoSpace(Split(s)[k])
    decreases |s|
  {
    var t := TrimStart(s);
    if t != [] {
      WordPrefix(t);
      SplitTokens(t[|Word(t)|..]);
    }
  }

  /**
   * The whitespace runs of s around the fields of `Split(s)`: the leading run,
   * the run after each field but the last, and the trailing run.
   */
  function Gaps(s: string): seq<string>
    decreases |s|
  {
    var t := TrimStart(s);
    var lead := s[..|s| - |t|];
    if t == [] then [lead]
    else
      var w := Word(t);
      [lead] + Gaps(t[|w|..])
  }

  /** gs[0] + ts[0] + gs[1] + ts[1] + ... + ts[n - 1] + gs[n]. */
  function Interleave(gs: seq<string>, ts: seq<string>): string
    requires |gs| == |ts| + 1
  {
    if ts == [] then gs[0] else gs[0] + ts[0] + Interleave(gs[1..], ts[1..])
  }

  /** s is its leading whitespace, its first field, and what follows the field. */
  lemma FirstFieldParts(s: string, t: string, lead: string, w: string, rest: string)
    requires t == TrimStart(s) && t != []
    requires lead == s[..|s| - |t|] && w == Word(t) && rest == t[|w|..]
    ensures s == lead + w + rest
    ensures rest == [] || IsSpace(rest[0])
  {
    LeadThenRest(s);
    WordThenRest(t);
    assert lead + (w + rest) == lead + w + rest;
  }

  lemma LeadThenRest(s: string)
    ensures s == s[..|s| - |TrimStart(s)|] + TrimStart(s)
  {
    TrimStartSuffix(s);
  }

  lemma WordThenRest(t: string)
    ensures t == Word(t) + t[|Word(t)|..]
    ensures |Word(t)| < |t| ==> IsSpace(t[|Word(t)|])
  {
    WordPrefix(t);
  }

  /** After a field, the next whitespace run is non-empty unless nothing follows. */
  lemma GapAfterField(rest: string)
    requires rest == [] || IsSpace(rest[0])
    ensures Split(rest) != [] ==> Gaps(rest)[0] != []
  {
    if Split(rest) != [] {
      assert |TrimStart(rest)| < |rest|;
    }
  }

  /**
   * What `str.split()` means: s is its fields with whitespace runs between
   * them, every run between two fields non-empty, the runs at either end
   * possibly empty.  With `SplitTokens` (each field is non-empty and holds no
   * whitespace) this decomposition is unique, so the fields are exactly the
   * maximal non-whitespace runs of s, in order.
   */
  lemma {:induction false} SplitGaps(s: string)
    ensures |Gaps(s)| == |Split(s)| + 1
    ensures forall i :: 0 <= i < |Gaps(s)| ==> AllSpace(Gaps(s)[i])
    ensures forall i :: 0 < i < |Gaps(s)| - 1 ==> Gaps(s)[i] != []
    ensures Interleave(Gaps(s), Split(s)) == s
    decreases |s|
  {
    var t := TrimStart(s);
    if t == [] {
      TrimStartSuffix(s);
      assert s[..|s| - |t|] == s;
    } else {
      var w := Word(t);
      var rest := t[|w|..];
      var lead := s[..|s| - |t|];
      assert Gaps(s) == [lead] + Gaps(rest);
      assert Split(s) == [w] + Split(rest);
      FirstFieldParts(s, t, lead, w, rest);
      TrimStartSuffix(s);
      GapAfterField(rest);
      SplitGaps(rest);
    }
  }

  /** `" ".join(ts)`: the tokens separated by single spaces. */
  function Join(ts: seq<string>): string
  {
    if ts == [] then []
    else if |ts| == 1 then ts[0]
    else ts[0] + " " + Join(ts[1..])
  }

  lemma WordOfToken(w: string, rest: string)
    requires w != [] && NoSpace(w)
    requires rest == [] || IsSpace(rest[0])
    ensures Word(w + rest) == w
    decreases |w|
  {
    assert (w + rest)[0] == w[0];
    if |w| > 1 {
      assert (w + rest)[1..] == w[1..] + rest;
      WordOfToken(w[1..], rest);
    } else {
      assert (w + rest)[1..] == rest;
    }
  }

  lemma TrimStartOfWord(s: string)
    requires s == [] || !IsSpace(s[0])
    ensures TrimStart(s) == s
  {
  }

  lemma TrimStartOfSpace(s: string)
    requires s == [] || !IsSpace(s[0])
    ensures TrimStart(" " + s) == s
  {
    assert (" " + s)[1..] == s;
  }

  /** Splitting a word followed by nothing or by whitespace and more. */
  lemma SplitOfWord(w: string, rest: string)
    requires w != [] && NoSpace(w)
    requires rest == [] || IsSpace(rest[0])
    ensures Split(w + rest) == [w] + Split(rest)
  {
    assert (w + rest)[0] == w[0];
    TrimStartOfWord(w + rest);
    WordOfToken(w, rest);
    assert (w + rest)[|w|..] == rest;
  }

  lemma SplitOfSpace(s: string)
    requires s == [] || !IsSpace(s[0])
    ensures Split(" " + s) == Split(s)
  {
    TrimStartOfSpace(s);
    TrimStartOfWord(s);
  }

  lemma {:induction false} JoinStart(ts: seq<string>)
    requires forall k :: 0 <= k < |ts| ==> ts[k] != [] && NoSpace(ts[k])
    ensures ts != [] ==> Join(ts) != [] && Join(ts)[0] == ts[0][0]
  {
    if |ts| > 1 {
      assert Join(ts) == ts[0] + (" " + Join(ts[1..]));
    }
  }

  /**
   * Splitting the single-space join of non-empty tokens without whitespace
   * gives the tokens back: the words of an image name are exactly the fields
   * it was joined from.
   */
  lemma {:induction false} SplitJoin(ts: seq<string>)
    requires forall k :: 0 <= k < |ts| ==> ts[k] != [] && NoSpace(ts[k])
    ensures Split(Join(ts)) == ts
    decreases |ts|
  {
    if ts == [] {
    } else if |ts| == 1 {
      SplitOfWord(ts[0], []);
      assert ts[0] + [] == ts[0];
    } else {
      var j := Join(ts[1..]);
      assert Join(ts) == ts[0] + (" " + j);
      SplitOfWord(ts[0], " " + j);
      JoinStart(ts[1..]);
      SplitOfSpace(j);
      SplitJoin(ts[1..]);
    }
  }
}
