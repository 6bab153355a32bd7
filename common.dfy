/** Helpers shared by the chat simulator's components: the optional value, the
    JavaScript string operations the handlers call (`trim`, `includes`,
    `toLowerCase`, `replace(/\s+/g, '_')`, `substring(0, n) + '...'`) and the
    array operations (`filter`, `map`, `find`/`findIndex`). */
module Common {

  datatype Option<T> = None | Some(value: T)

  // ---------------------------------------------------------------------------
  // Whitespace and trimming
  // ---------------------------------------------------------------------------

  /** A character matched by `\s` in a JavaScript regular expression, which is
      also the set `String.prototype.trim` strips: the ECMAScript WhiteSpace and
      LineTerminator characters. */
  predicate IsSpace(c: char) {
    || c == '\t' || c == '\n' || c == '\U{000B}' || c == '\U{000C}' || c == '\r'
    || c == ' ' || c == '\U{00A0}' || c == '\U{1680}'
    || ('\U{2000}' <= c <= '\U{200A}')
    || c == '\U{2028}' || c == '\U{2029}' || c == '\U{202F}' || c == '\U{205F}'
    || c == '\U{3000}' || c == '\U{FEFF}'
  }

  /** The suffix of `s` left after its leading whitespace (`trimStart`). */
  function TrimStart(s: string): (r: string)
    ensures |r| <= |s| && r == s[|s| - |r|..]
    ensures forall i :: 0 <= i < |s| - |r| ==> IsSpace(s[i])
    ensures r == [] || !IsSpace(r[0])
  {
    if s == [] || !IsSpace(s[0]) then s else TrimStart(s[1..])
  }

  /** The prefix of `s` left after its trailing whitespace (`trimEnd`). */
  function TrimEnd(s: string): (r: string)
    ensures |r| <= |s| && r == s[..|r|]
    ensures forall i :: |r| <= i < |s| ==> IsSpace(s[i])
    ensures r == [] || !IsSpace(r[|r| - 1])
  {
    if s == [] || !IsSpace(s[|s| - 1]) then s else TrimEnd(s[..|s| - 1])
  }

  function Trim(s: string): string {
    TrimEnd(TrimStart(s))
  }

  /** `!s.trim()`: the trimmed string is empty. */
  predicate IsBlank(s: string) {
    Trim(s) == []
  }

  /** The empty string is blank. */
  lemma EmptyIsBlank()
    ensures IsBlank("")
  {
  }

  /** A string trims to nothing exactly when every character is whitespace. */
  lemma BlankIffAllSpace(s: string)
    ensures IsBlank(s) <==> forall i :: 0 <= i < |s| ==> IsSpace(s[i])
  {
    var t := TrimStart(s);
    if t != [] {
      assert t[0] == s[|s| - |t|];
    }
  }

  // ---------------------------------------------------------------------------
  // Truncation: `s.length > n ? s.substring(0, n) + '...' : s`
  // ---------------------------------------------------------------------------

  const Ellipsis: string := "..."

  function Shorten(s: string, n: nat): (r: string)
    ensures |r| <= n + |Ellipsis|
    ensures |s| <= n ==> r == s
    ensures |s| > n ==> |r| == n + |Ellipsis| && r[..n] == s[..n] && r[n..] == Ellipsis
  {
    if |s| > n then s[..n] + Ellipsis else s
  }

  /** Shortening an already shortened text changes nothing. */
  lemma ShortenIdempotent(s: string, n: nat)
    ensures Shorten(Shorten(s, n), n) == Shorten(s, n)
  {
  }

  /** A text shortened to `n` is never cut again by a limit of `n + 3` or more:
      the ellipsis fits. */
  lemma ShortenFitsWider(s: string, n: nat, m: nat)
    requires m >= n + |Ellipsis|
    ensures Shorten(Shorten(s, n), m) == Shorten(s, n)
  {
  }

  // ---------------------------------------------------------------------------
  // Substring search: `s.includes(pat)`
  // ---------------------------------------------------------------------------

  predicate Contains(s: string, pat: string)
    decreases |s|
  {
    pat <= s || (s != [] && Contains(s[1..], pat))
  }

  /** `pat` occurs in `s` starting at position `i`. */
  predicate OccursAt(s: string, pat: string, i: int) {
    0 <= i <= |s| - |pat| && s[i..i + |pat|] == pat
  }

  /** A text that contains `pat` has an occurrence of it. */
  lemma {:induction false} OccurrenceOfContains(s: string, pat: string) returns (i: nat)
    requires Contains(s, pat)
    ensures OccursAt(s, pat, i)
    decreases |s|
  {
    if pat <= s {
      i := 0;
      assert s[..|pat|] == pat;
    } else {
      var k := OccurrenceOfContains(s[1..], pat);
      assert s[1..][k..k + |pat|] == s[k + 1..k + 1 + |pat|];
      i := k + 1;
    }
  }

  /** An occurrence anywhere makes the text contain `pat`. */
  lemma {:induction false} ContainsOfOccurrence(s: string, pat: string, i: nat)
    requires OccursAt(s, pat, i)
    ensures Contains(s, pat)
    decreases i
  {
    if i == 0 {
      assert pat == s[..|pat|];
    } else {
      assert s[1..][i - 1..i - 1 + |pat|] == s[i..i + |pat|];
      ContainsOfOccurrence(s[1..], pat, i - 1);
    }
  }

  /** `Contains` agrees with the positional definition of an occurrence. */
  lemma ContainsIff(s: string, pat: string)
    ensures Contains(s, pat) <==> exists i :: OccursAt(s, pat, i)
  {
    if Contains(s, pat) {
      var i := OccurrenceOfContains(s, pat);
    }
    forall i | OccursAt(s, pat, i) ensures Contains(s, pat) {
      ContainsOfOccurrence(s, pat, i);
    }
  }

  // ---------------------------------------------------------------------------
  // Lower-casing and slugs: `s.toLowerCase().replace(/\s+/g, '_')`
  // ---------------------------------------------------------------------------

  /** `toLowerCase` on one character, for the capitals A-Z (U+0041-U+005A),
      those of Latin-1 (U+00C0-U+00DE except U+00D7) and the basic Cyrillic
      capitals U+0400-U+042F; every other character is kept as it is. */
  function LowerChar(c: char): (r: char)
    ensures IsSpace(r) <==> IsSpace(c)
  {
    if 'A' <= c <= 'Z' then (c as int + 32) as char
    else if ('\U{00C0}' <= c <= '\U{00DE}') && c != '\U{00D7}' then (c as int + 32) as char
    else if '\U{0400}' <= c <= '\U{040F}' then (c as int + 80) as char
    else if '\U{0410}' <= c <= '\U{042F}' then (c as int + 32) as char
    else c
  }

  function Lower(s: string): (r: string)
    ensures |r| == |s|
    ensures forall i :: 0 <= i < |s| ==> r[i] == LowerChar(s[i])
  {
    if s == [] then [] else [LowerChar(s[0])] + Lower(s[1..])
  }

  /** `replace(/\s+/g, '_')`: every maximal run of whitespace becomes one `_`. */
  function CollapseSpaceRuns(s: string): (r: string)
    ensures |r| <= |s|
    ensures forall i :: 0 <= i < |r| ==> !IsSpace(r[i])
    decreases |s|
  {
    if s == [] then []
    else if IsSpace(s[0]) then "_" + CollapseSpaceRuns(TrimStart(s[1..]))
    else [s[0]] + CollapseSpaceRuns(s[1..])
  }

  /** `split(/\s+/)`: the pieces between whitespace runs, with an empty first
      (last) piece when the text starts (ends) with whitespace. */
  function Words(s: string): (ws: seq<string>)
    ensures |ws| >= 1
    ensures forall k, i :: 0 <= k < |ws| && 0 <= i < |ws[k]| ==> !IsSpace(ws[k][i])
    ensures s != [] && !IsSpace(s[0]) ==> ws[0] != []
    ensures forall k :: 0 < k < |ws| - 1 ==> ws[k] != []
    ensures |ws| == 1 ==> ws[0] == s
    decreases |s|
  {
    if s == [] then [""]
    else if IsSpace(s[0]) then [""] + Words(TrimStart(s[1..]))
    else
      var rest := Words(s[1..]);
      [[s[0]] + rest[0]] + rest[1..]
  }

  /** `join(sep)`. */
  function Join(ws: seq<string>, sep: char): string
    requires |ws| >= 1
  {
    if |ws| == 1 then ws[0] else ws[0] + [sep] + Join(ws[1..], sep)
  }

  /** Replacing whitespace runs by `_` is splitting at them and joining with `_`. */
  lemma {:induction false} CollapseIsSplitJoin(s: string)
    ensures CollapseSpaceRuns(s) == Join(Words(s), '_')
    decreases |s|
  {
    if s == [] {
    } else if IsSpace(s[0]) {
      var t := TrimStart(s[1..]);
      CollapseIsSplitJoin(t);
      var ws := Words(t);
      assert Words(s) == [""] + ws;
      assert ([""] + ws)[1..] == ws;
    } else {
      CollapseIsSplitJoin(s[1..]);
      var rest := Words(s[1..]);
      var ws := [[s[0]] + rest[0]] + rest[1..];
      assert Words(s) == ws;
      if |rest| > 1 {
        assert ws[1..] == rest[1..];
        assert Join(rest, '_') == rest[0] + ['_'] + Join(rest[1..], '_');
      }
    }
  }

  /** A text without whitespace is left as it is. */
  lemma {:induction false} CollapseKeepsSpaceFree(s: string)
    requires forall i :: 0 <= i < |s| ==> !IsSpace(s[i])
    ensures CollapseSpaceRuns(s) == s
    decreases |s|
  {
    if s != [] {
      assert !IsSpace(s[0]);
      CollapseKeepsSpaceFree(s[1..]);
    }
  }

  /** Collapsing is idempotent: a slug is its own slug. */
  lemma CollapseIdempotent(s: string)
    ensures CollapseSpaceRuns(CollapseSpaceRuns(s)) == CollapseSpaceRuns(s)
  {
    CollapseKeepsSpaceFree(CollapseSpaceRuns(s));
  }

  /** The internal bot name derived from a display name. */
  function Slug(displayName: string): (r: string)
    ensures |r| <= |displayName|
    ensures forall i :: 0 <= i < |r| ==> !IsSpace(r[i])
  {
    CollapseSpaceRuns(Lower(displayName))
  }

  /** The slug is the lower-cased display name's words joined with `_`. */
  lemma SlugIsJoinedWords(displayName: string)
    ensures Slug(displayName) == Join(Words(Lower(displayName)), '_')
  {
    CollapseIsSplitJoin(Lower(displayName));
  }

  // ---------------------------------------------------------------------------
  // Array operations
  // ---------------------------------------------------------------------------

  /** `r` is `s` with some elements left out, in the same order. */
  ghost predicate IsSubsequence<T>(r: seq<T>, s: seq<T>)
    decreases |s|
  {
    if r == [] then true
    else if s == [] then false
    else (r[0] == s[0] && IsSubsequence(r[1..], s[1..])) || IsSubsequence(r, s[1..])
  }

  /** `s.filter(keep)`. */
  function Filter<T(!new)>(s: seq<T>, keep: T -> bool): (r: seq<T>)
    ensures |r| <= |s|
    ensures forall i :: 0 <= i < |r| ==> keep(r[i]) && r[i] in s
    ensures forall i :: 0 <= i < |s| && keep(s[i]) ==> s[i] in r
  {
    if s == [] then []
    else if keep(s[0]) then [s[0]] + Filter(s[1..], keep)
    else Filter(s[1..], keep)
  }

  /** `filter` keeps every copy of what passes and no copy of what does not. */
  lemma {:induction false} FilterMultiplicity<T(!new)>(s: seq<T>, keep: T -> bool)
    ensures forall x :: multiset(Filter(s, keep))[x] == if keep(x) then multiset(s)[x] else 0
  {
    if s != [] {
      assert s == [s[0]] + s[1..];
      FilterMultiplicity(s[1..], keep);
    }
  }

  /** What `filter` keeps is a subsequence of what it was given. */
  lemma {:induction false} FilterIsSubsequence<T(!new)>(s: seq<T>, keep: T -> bool)
    ensures IsSubsequence(Filter(s, keep), s)
  {
    if s != [] {
      FilterIsSubsequence(s[1..], keep);
    }
  }

  lemma {:induction false} FilterConcat<T(!new)>(a: seq<T>, b: seq<T>, keep: T -> bool)
    ensures Filter(a + b, keep) == Filter(a, keep) + Filter(b, keep)
  {
    if a == [] {
      assert a + b == b;
    } else {
      assert (a + b)[0] == a[0] && (a + b)[1..] == a[1..] + b;
      FilterConcat(a[1..], b, keep);
      if keep(a[0]) {
        calc {
          Filter(a + b, keep);
          [a[0]] + Filter(a[1..] + b, keep);
          [a[0]] + (Filter(a[1..], keep) + Filter(b, keep));
          ([a[0]] + Filter(a[1..], keep)) + Filter(b, keep);
        }
      }
    }
  }

  lemma {:induction false} FilterKeepsAll<T(!new)>(s: seq<T>, keep: T -> bool)
    requires forall i :: 0 <= i < |s| ==> keep(s[i])
    ensures Filter(s, keep) == s
  {
    if s != [] {
      FilterKeepsAll(s[1..], keep);
    }
  }

  lemma {:induction false} FilterKeepsNone<T(!new)>(s: seq<T>, keep: T -> bool)
    requires forall i :: 0 <= i < |s| ==> !keep(s[i])
    ensures Filter(s, keep) == []
  {
    if s != [] {
      FilterKeepsNone(s[1..], keep);
    }
  }

  /** `s.map(x => sel(x) ? f(x) : x)`: the elements selected by `sel` are
      replaced by their image under `f`, the others are kept. */
  function MapIf<T>(s: seq<T>, sel: T -> bool, f: T -> T): (r: seq<T>)
    ensures |r| == |s|
    ensures forall i :: 0 <= i < |s| ==> r[i] == if sel(s[i]) then f(s[i]) else s[i]
  {
    if s == [] then [] else [if sel(s[0]) then f(s[0]) else s[0]] + MapIf(s[1..], sel, f)
  }

  /** `s.findIndex(p)`, with `None` for -1; `s.find(p)` is the element there. */
  function FirstIndex<T>(s: seq<T>, p: T -> bool): (r: Option<nat>)
    ensures r.None? <==> forall i :: 0 <= i < |s| ==> !p(s[i])
    ensures r.Some? ==> r.value < |s| && p(s[r.value])
    ensures r.Some? ==> forall j :: 0 <= j < r.value ==> !p(s[j])
  {
    if s == [] then None
    else if p(s[0]) then Some(0)
    else match FirstIndex(s[1..], p)
      case None => None
      case Some(i) => Some(i + 1)
  }

  /** Number of elements satisfying `p` (`s.filter(p).length`). */
  function CountIf<T(!new)>(s: seq<T>, p: T -> bool): (n: nat)
    ensures n <= |s|
    ensures n == |Filter(s, p)|
  {
    if s == [] then 0 else (if p(s[0]) then 1 else 0) + CountIf(s[1..], p)
  }

  /** `s.splice(i, 1)` on a copy: the element at `i` taken out. */
  function RemoveAt<T>(s: seq<T>, i: nat): (r: seq<T>)
    requires i < |s|
    ensures |r| == |s| - 1
    ensures forall k :: 0 <= k < |r| ==> r[k] == if k < i then s[k] else s[k + 1]
  {
    s[..i] + s[i + 1..]
  }

  /** `s.splice(j, 0, x)` on a copy: `x` put in at position `j`. */
  function InsertAt<T>(s: seq<T>, j: nat, x: T): (r: seq<T>)
    requires j <= |s|
    ensures |r| == |s| + 1 && r[j] == x
    ensures forall k :: 0 <= k < |r| && k != j ==> r[k] == if k < j then s[k] else s[k - 1]
  {
    s[..j] + [x] + s[j..]
  }

  /** Taking an element out and putting it back one place further up or down
      swaps it with that neighbour. */
  lemma SpliceNeighbourIsSwap<T>(s: seq<T>, i: nat, j: nat)
    requires i < |s| && j < |s| && (j == i + 1 || i == j + 1)
    ensures InsertAt(RemoveAt(s, i), j, s[i]) == s[i := s[j]][j := s[i]]
  {
    var r := InsertAt(RemoveAt(s, i), j, s[i]);
    var w := s[i := s[j]][j := s[i]];
    forall k | 0 <= k < |s| ensures r[k] == w[k] {
    }
  }

  /** Swapping two elements back undoes the swap. */
  lemma SwapBack<T>(s: seq<T>, a: nat, b: nat)
    requires a < |s| && b < |s|
    ensures var w := s[a := s[b]][b := s[a]]; w[b := w[a]][a := w[b]] == s
  {
  }
}
