/** Splitting and joining on one character. */
module Text {
  /** `s.split(c)`: never empty; the empty string gives one empty part. */
  function Split(s: string, c: char): (parts: seq<string>)
    ensures |parts| > 0
  {
    if s == "" then [""]
    else
      var rest := Split(s[1..], c);
      if s[0] == c then [""] + rest else [[s[0]] + rest[0]] + rest[1..]
  }

  /** `c.join(parts)`. */
  function Join(parts: seq<string>, c: char): string {
    if parts == [] then "" else if |parts| == 1 then parts[0] else parts[0] + [c] + Join(parts[1..], c)
  }

  predicate AllFree(parts: seq<string>, c: char) {
    forall i :: 0 <= i < |parts| ==> c !in parts[i]
  }

  lemma {:induction false} JoinOfSplit(s: string, c: char)
    ensures Join(Split(s, c), c) == s
    ensures AllFree(Split(s, c), c)
    decreases |s|
  {
    if s != "" {
      JoinOfSplit(s[1..], c);
      var rest := Split(s[1..], c);
      assert s == [s[0]] + s[1..];
      if s[0] == c {
        assert ([""] + rest)[1..] == rest;
        assert "" + [c] + s[1..] == s;
      } else {
        assert Split(s, c) == [[s[0]] + rest[0]] + rest[1..];
        hide Split;
        JoinLonger(s[0], rest, c);
      }
    }
  }

  /** A character before the first part is one before the whole. */
  lemma JoinLonger(x: char, parts: seq<string>, c: char)
    requires parts != []
    ensures Join([[x] + parts[0]] + parts[1..], c) == [x] + Join(parts, c)
  {
    var longer := [[x] + parts[0]] + parts[1..];
    assert longer[1..] == parts[1..];
    if |parts| > 1 {
      var rest := Join(parts[1..], c);
      assert ([x] + parts[0]) + [c] + rest == [x] + (parts[0] + [c] + rest);
    }
  }

  /** The first field, the delimiter, and the rest. */
  lemma {:induction false} SplitFirst(p: string, s: string, c: char)
    requires c !in p
    ensures Split(p, c) == [p]
    ensures Split(p + [c] + s, c) == [p] + Split(s, c)
    decreases |p|
  {
    if p == "" {
      assert "" + [c] + s == [c] + s && ([c] + s)[1..] == s;
    } else {
      SplitFirst(p[1..], s, c);
      assert p == [p[0]] + p[1..];
      assert (p + [c] + s)[1..] == p[1..] + [c] + s;
    }
  }

  lemma {:induction false} SplitOfJoin(parts: seq<string>, c: char)
    requires |parts| > 0 && AllFree(parts, c)
    ensures Split(Join(parts, c), c) == parts
    decreases |parts|
  {
    if |parts| == 1 {
      SplitFirst(parts[0], "", c);
    } else {
      SplitOfJoin(parts[1..], c);
      SplitFirst(parts[0], Join(parts[1..], c), c);
      assert parts == [parts[0]] + parts[1..];
    }
  }

  /** Splitting is the only way to cut a string into delimiter-free parts. */
  lemma SplitUnique(s: string, parts: seq<string>, c: char)
    ensures parts == Split(s, c) <==> parts != [] && AllFree(parts, c) && Join(parts, c) == s
  {
    JoinOfSplit(s, c);
    if parts != [] && AllFree(parts, c) && Join(parts, c) == s {
      SplitOfJoin(parts, c);
    }
  }

  /** White space as `str.strip` sees it. */
  predicate IsSpace(c: char) {
    || '\U{9}' <= c <= '\U{d}' || '\U{1c}' <= c <= ' ' || c == '\U{85}' || c == '\U{a0}' || c == '\U{1680}'
    || '\U{2000}' <= c <= '\U{200a}' || c == '\U{2028}' || c == '\U{2029}' || c == '\U{202f}' || c == '\U{205f}'
    || c == '\U{3000}'
  }

  /** Blanks are spaces; printable characters of ASCII are not. */
  lemma Spaces(c: char)
    ensures c == ' ' || c == '\t' || c == '\n' || c == '\r' ==> IsSpace(c)
    ensures '!' <= c <= '~' ==> !IsSpace(c)
  {}

  function Strip(s: string): string
    decreases |s|
  {
    if s == "" then ""
    else if IsSpace(s[0]) then Strip(s[1..])
    else if IsSpace(s[|s| - 1]) then Strip(s[..|s| - 1])
    else s
  }

  /** Stripping cuts white space at both ends, and all of it. */
  lemma {:induction false} StripCuts(s: string) returns (i: nat, j: nat)
    ensures i <= j <= |s| && Strip(s) == s[i..j]
    ensures forall k :: 0 <= k < i || j <= k < |s| ==> IsSpace(s[k])
    ensures i < j ==> !IsSpace(s[i]) && !IsSpace(s[j - 1])
    decreases |s|
  {
    hide IsSpace;
    if s == "" {
      i, j := 0, 0;
    } else if IsSpace(s[0]) {
      var t := s[1..];
      var i', j' := StripCuts(t);
      i, j := i' + 1, j' + 1;
      TailSlice(s, i', j');
      forall k | 0 <= k < i || j <= k < |s| ensures IsSpace(s[k]) {
        if k > 0 { assert s[k] == t[k - 1]; }
      }
      if i < j { assert s[i] == t[i'] && s[j - 1] == t[j' - 1]; }
    } else if IsSpace(s[|s| - 1]) {
      var t := s[..|s| - 1];
      i, j := StripCuts(t);
      InitSlice(s, i, j);
      forall k | 0 <= k < i || j <= k < |s| ensures IsSpace(s[k]) {
        if k < |t| { assert s[k] == t[k]; }
      }
      if i < j { assert s[i] == t[i] && s[j - 1] == t[j - 1]; }
    } else {
      i, j := 0, |s|;
      assert s[i..j] == s;
    }
  }

  lemma TailSlice(s: string, i: nat, j: nat)
    requires i <= j < |s|
    ensures s[1..][i..j] == s[i + 1..j + 1]
  {}

  lemma InitSlice(s: string, i: nat, j: nat)
    requires i <= j < |s|
    ensures s[..|s| - 1][i..j] == s[i..j]
  {}

  lemma StripIdempotent(s: string)
    ensures Strip(Strip(s)) == Strip(s)
  {
    var i, j := StripCuts(s);
  }
}
