/**
 * The JavaScript array built-ins the client relies on: `slice(-n)`,
 * `reverse()` followed by `find(...)`, and `join(sep)`.
 */
module JsArray {

  import opened Wrappers

  function Min(a: nat, b: nat): nat { if a <= b then a else b }

  /**
   * `s.slice(-n)` for `n >= 1`: the last `n` elements of `s`, or all of `s`
   * when it is shorter. (`slice(-0)` would return the whole array; the client
   * only ever passes 5.)
   */
  function SliceLast<T>(s: seq<T>, n: nat): (r: seq<T>)
    requires n >= 1
    ensures |r| == Min(|s|, n)
    ensures forall i :: 0 <= i < |r| ==> r[i] == s[|s| - |r| + i]
  {
    s[|s| - Min(|s|, n)..]
  }

  /** Nothing is dropped from a sequence that already fits. */
  lemma SliceLastShort<T>(s: seq<T>, n: nat)
    requires n >= 1 && |s| <= n
    ensures SliceLast(s, n) == s
  {
  }

  /**
   * Trimming before appending one element and trimming after give the same
   * window: the trim of a trim forgets nothing the second trim would keep.
   */
  lemma SliceLastAppend<T>(x: seq<T>, t: T, n: nat)
    requires n >= 1
    ensures SliceLast(SliceLast(x, n) + [t], n) == SliceLast(x + [t], n)
  {
    var a, b := SliceLast(SliceLast(x, n) + [t], n), SliceLast(x + [t], n);
    assert |a| == |b|;
    forall i | 0 <= i < |a| ensures a[i] == b[i] {
      if i < |a| - 1 {
        var k := |SliceLast(x, n)| - |a| + 1 + i;
        assert a[i] == SliceLast(x, n)[k];
      }
    }
  }

  /** `s.slice().reverse()` */
  function Reverse<T>(s: seq<T>): (r: seq<T>)
    ensures |r| == |s|
    ensures forall i :: 0 <= i < |s| ==> r[i] == s[|s| - 1 - i]
  {
    if s == [] then [] else Reverse(s[1..]) + [s[0]]
  }

  /** `s.find(p)`: the first element satisfying `p`, or `undefined`. */
  function Find<T>(s: seq<T>, p: T -> bool): (r: Option<T>)
    ensures r.None? <==> forall i :: 0 <= i < |s| ==> !p(s[i])
    ensures r.Some? ==> exists i :: 0 <= i < |s| && s[i] == r.value && p(s[i]) &&
                                   forall j :: 0 <= j < i ==> !p(s[j])
  {
    if s == [] then None
    else if p(s[0]) then Some(s[0])
    else
      var r := Find(s[1..], p);
      assert forall i :: 1 <= i < |s| ==> s[i] == s[1..][i - 1];
      r
  }
}

/**
 * The JavaScript string built-ins the client relies on: `trim()` and the
 * `join('\n')` that renders the context window, with a line splitter that
 * undoes the join.
 */
module JsString {

  /**
   * The characters `String.prototype.trim` removes: ECMAScript WhiteSpace
   * (tab, vertical tab, form feed, space, no-break space, byte order mark and
   * the other space separators) and LineTerminator (LF, CR, LS, PS).
   */
  predicate IsWhiteSpace(c: char) {
    c == '\t' || c == '\n' || c == '\U{000B}' || c == '\U{000C}' || c == '\r' || c == ' ' ||
    c == '\U{00A0}' || c == '\U{1680}' || ('\U{2000}' <= c <= '\U{200A}') ||
    c == '\U{2028}' || c == '\U{2029}' || c == '\U{202F}' || c == '\U{205F}' ||
    c == '\U{3000}' || c == '\U{FEFF}'
  }

  /**
   * Drops the leading characters that satisfy `drop`, keeping the rest
   * intact. The lemmas about stripping hold for any character class; trimming
   * uses them with `IsWhiteSpace`.
   */
  function StripStart(s: string, drop: char -> bool): (r: string)
    ensures |r| <= |s| && r == s[|s| - |r|..]
    ensures forall i :: 0 <= i < |s| - |r| ==> drop(s[i])
    ensures r == [] || !drop(r[0])
  {
    if |s| > 0 && drop(s[0]) then StripStart(s[1..], drop) else s
  }

  /** Drops the trailing characters that satisfy `drop`, keeping the rest intact. */
  function StripEnd(s: string, drop: char -> bool): (r: string)
    ensures |r| <= |s| && r == s[..|r|]
    ensures forall i :: |r| <= i < |s| ==> drop(s[i])
    ensures r == [] || !drop(r[|r| - 1])
  {
    if |s| > 0 && drop(s[|s| - 1]) then StripEnd(s[..|s| - 1], drop) else s
  }

  function Strip(s: string, drop: char -> bool): string {
    StripEnd(StripStart(s, drop), drop)
  }

  /** Neither end of a stripped string is a `drop` character. */
  lemma {:induction false} StripEnds(s: string, drop: char -> bool)
    ensures Strip(s, drop) == [] || (!drop(Strip(s, drop)[0]) && !drop(Strip(s, drop)[|Strip(s, drop)| - 1]))
  {
    var t := StripStart(s, drop);
    if Strip(s, drop) != [] {
      assert Strip(s, drop)[0] == t[0];
    }
  }

  /** Stripping leaves nothing exactly when every character is a `drop` character. */
  lemma {:induction false} StripEmptyIff(s: string, drop: char -> bool)
    ensures Strip(s, drop) == [] <==> forall k :: 0 <= k < |s| ==> drop(s[k])
  {
    var t := StripStart(s, drop);
    if Strip(s, drop) == [] {
      // StripStart leaves no leading `drop` character, so nothing of `s` survives it
      assert t == [];
    } else {
      StripEnds(s, drop);
      assert s[|s| - |t|] == t[0] == Strip(s, drop)[0];
    }
  }

  /** Stripping twice is stripping once. */
  lemma {:induction false} StripIdempotent(s: string, drop: char -> bool)
    ensures Strip(Strip(s, drop), drop) == Strip(s, drop)
  {
    var r := Strip(s, drop);
    StripEnds(s, drop);
    if r != [] {
      assert StripStart(r, drop) == r;
      assert StripEnd(r, drop) == r;
    }
  }

  /** `s.trim()`: a piece of `s` that neither starts nor ends with white space. */
  function Trim(s: string): (r: string)
    ensures |r| <= |s|
    ensures r == [] || (!IsWhiteSpace(r[0]) && !IsWhiteSpace(r[|r| - 1]))
  {
    StripEnds(s, IsWhiteSpace);
    Strip(s, IsWhiteSpace)
  }

  /** `trim()` is empty exactly when every character of `s` is white space. */
  lemma {:induction false} TrimEmptyIff(s: string)
    ensures Trim(s) == [] <==> forall k :: 0 <= k < |s| ==> IsWhiteSpace(s[k])
  {
    StripEmptyIff(s, IsWhiteSpace);
  }

  /** Trimming twice is trimming once. */
  lemma {:induction false} TrimIdempotent(s: string)
    ensures Trim(Trim(s)) == Trim(s)
  {
    StripIdempotent(s, IsWhiteSpace);
  }

  /** `lines.join(sep)` */
  function Join(lines: seq<string>, sep: string): (r: string)
    ensures lines == [] ==> r == []
    ensures |lines| == 1 ==> r == lines[0]
    ensures lines != [] ==> |r| >= |lines[0]| && r[..|lines[0]|] == lines[0]
  {
    if lines == [] then []
    else if |lines| == 1 then lines[0]
    else lines[0] + sep + Join(lines[1..], sep)
  }

  /** Joining one more line adds the separator and the line at the end. */
  lemma {:induction false} JoinAppend(lines: seq<string>, line: string, sep: string)
    requires lines != []
    ensures Join(lines + [line], sep) == Join(lines, sep) + sep + line
  {
    if |lines| == 1 {
      assert (lines + [line])[1..] == [line];
    } else {
      assert (lines + [line])[1..] == lines[1..] + [line];
      JoinAppend(lines[1..], line, sep);
    }
  }

  /** Splits at every `sep` character, the inverse of `Join` for lines that hold no `sep`. */
  function Split(s: string, sep: char): (r: seq<string>)
    ensures |r| >= 1
  {
    if s == [] then [[]]
    else if s[0] == sep then [[]] + Split(s[1..], sep)
    else
      var rest := Split(s[1..], sep);
      [[s[0]] + rest[0]] + rest[1..]
  }

  /** A line without `sep`, then `sep`, then anything: the first piece is that line. */
  lemma {:induction false} SplitLine(line: string, sep: char, rest: string)
    requires forall k :: 0 <= k < |line| ==> line[k] != sep
    ensures Split(line + [sep] + rest, sep) == [line] + Split(rest, sep)
    ensures Split(line, sep) == [line]
  {
    if line != [] {
      assert (line + [sep] + rest)[1..] == line[1..] + [sep] + rest;
      SplitLine(line[1..], sep, rest);
      assert [line[0]] + line[1..] == line;
    } else {
      assert line + [sep] + rest == [sep] + rest;
    }
  }

  /**
   * Joining with a one-character separator and splitting again gives back
   * the lines, when no line contains that character and there is at least one.
   */
  lemma {:induction false} SplitJoin(lines: seq<string>, sep: char)
    requires lines != []
    requires forall j, k :: 0 <= j < |lines| && 0 <= k < |lines[j]| ==> lines[j][k] != sep
    ensures Split(Join(lines, [sep]), sep) == lines
  {
    SplitLine(lines[0], sep, []);
    if |lines| > 1 {
      SplitJoin(lines[1..], sep);
      SplitLine(lines[0], sep, Join(lines[1..], [sep]));
    }
  }
}
