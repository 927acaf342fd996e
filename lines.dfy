/**
 * Cutting a chunk read from the console into lines and trimming each line.
 * The model's line boundary is the line feed alone and its whitespace is the
 * ASCII set below; within those sets the functions behave like Python's
 * `str.splitlines()` (no empty line after a final terminator) and `str.strip()`.
 */
module Lines {

  /** Space, tab, line feed, carriage return, vertical tab and form feed. */
  predicate IsSpace(c: char) {
    c == ' ' || c == '\t' || c == '\n' || c == '\r' || c == '\U{B}' || c == '\U{C}'
  }

  /** Every character of `s` from index `lo` up to (not including) `hi` is whitespace. */
  predicate SpaceBetween(s: string, lo: nat, hi: nat)
    requires lo <= hi <= |s|
  {
    forall k :: lo <= k < hi ==> IsSpace(s[k])
  }

  /** The end of the run of whitespace that starts at `i`. */
  function SkipSpace(s: string, i: nat): (j: nat)
    requires i <= |s|
    ensures i <= j <= |s| && SpaceBetween(s, i, j)
    ensures j == |s| || !IsSpace(s[j])
    decreases |s| - i
  {
    if i < |s| && IsSpace(s[i]) then SkipSpace(s, i + 1) else i
  }

  /** The start of the run of whitespace that ends at `j`, not going below `lo`. */
  function SkipSpaceBack(s: string, lo: nat, j: nat): (i: nat)
    requires lo <= j <= |s|
    ensures lo <= i <= j && SpaceBetween(s, i, j)
    ensures i == lo || !IsSpace(s[i - 1])
  {
    if lo < j && IsSpace(s[j - 1]) then SkipSpaceBack(s, lo, j - 1) else j
  }

  /** Python's `line.strip()` over the whitespace set above: `s` with its
      leading and trailing whitespace cut off, and nothing else changed. */
  function Strip(s: string): (r: string)
    ensures r == [] || (!IsSpace(r[0]) && !IsSpace(r[|r| - 1]))
    ensures exists i :: 0 <= i <= |s| - |r| && Trims(s, i, r)
  {
    var i := SkipSpace(s, 0);
    var j := SkipSpaceBack(s, i, |s|);
    assert Trims(s, i, s[i..j]);
    s[i..j]
  }

  /** `r` sits at offset `i` of `s`, with only whitespace around it. */
  predicate Trims(s: string, i: nat, r: string)
    requires i + |r| <= |s|
  {
    r == s[i..i + |r|] && SpaceBetween(s, 0, i) && SpaceBetween(s, i + |r|, |s|)
  }

  /** The lines of `[c] + s`, given the lines of `s`: a line feed starts a
      new (empty) first line; any other character is put in front of the
      first line, or makes a line of its own when `s` has none. */
  function PushChar(c: char, lines: seq<string>): (r: seq<string>)
    ensures r != []
    ensures c == '\n' ==> r == [""] + lines
    ensures c != '\n' && lines != [] ==> r[0] == [c] + lines[0] && r[1..] == lines[1..]
  {
    if c == '\n' then [""] + lines
    else if lines == [] then [[c]]
    else [[c] + lines[0]] + lines[1..]
  }

  /** `s.splitlines()` with the line feed as the only boundary: the pieces
      between line feeds, without an empty piece after a final line feed. */
  function SplitLines(s: string): (r: seq<string>)
    ensures forall i :: 0 <= i < |r| ==> '\n' !in r[i]
    ensures r == [] <==> s == []
  {
    if s == [] then [] else PushChar(s[0], SplitLines(s[1..]))
  }

  /** Each line followed by a line feed, concatenated: the inverse of SplitLines. */
  function JoinLines(lines: seq<string>): string {
    if lines == [] then [] else lines[0] + "\n" + JoinLines(lines[1..])
  }

  predicate EndsLine(s: string) {
    s == [] || s[|s| - 1] == '\n'
  }

  /** Splitting the joined lines gives back the lines, when none holds a line feed. */
  lemma {:induction false} SplitJoin(lines: seq<string>)
    requires forall i :: 0 <= i < |lines| ==> '\n' !in lines[i]
    ensures SplitLines(JoinLines(lines)) == lines
  {
    if lines != [] {
      var rest := JoinLines(lines[1..]);
      assert JoinLines(lines) == (lines[0] + "\n") + rest;
      SplitAppend(lines[0] + "\n", rest);
      SplitOneLine(lines[0]);
      SplitJoin(lines[1..]);
    }
  }

  /** A line without a line feed, terminated, splits into just that line. */
  lemma {:induction false} SplitOneLine(line: string)
    requires '\n' !in line
    ensures SplitLines(line + "\n") == [line]
  {
    var s := line + "\n";
    if line != [] {
      assert s[1..] == line[1..] + "\n";
      SplitOneLine(line[1..]);
      assert [line[0]] + line[1..] == line;
    } else {
      assert s[1..] == [];
    }
  }

  /** Joining the split lines gives back the chunk, with a line feed added
      when the chunk did not end with one. */
  lemma {:induction false} JoinSplit(s: string)
    ensures JoinLines(SplitLines(s)) == if EndsLine(s) then s else s + "\n"
  {
    if s != [] {
      var t := s[1..];
      if t == [] {
        assert SplitLines(t) == [];
        assert s == [s[0]];
      } else {
        JoinSplit(t);
        JoinPush(s[0], SplitLines(t));
        assert s == [s[0]] + t;
        assert s[|s| - 1] == t[|t| - 1];
      }
    }
  }

  /** Joining commutes with PushChar on a non-empty list of lines. */
  lemma JoinPush(c: char, lines: seq<string>)
    requires lines != []
    ensures JoinLines(PushChar(c, lines)) == [c] + JoinLines(lines)
  {
  }

  /** A chunk that ends a line can be split separately from what follows it. */
  lemma {:induction false} SplitAppend(a: string, b: string)
    requires EndsLine(a)
    ensures SplitLines(a + b) == SplitLines(a) + SplitLines(b)
  {
    if a == [] {
      assert a + b == b;
    } else {
      var a' := a[1..];
      assert (a + b)[1..] == a' + b;
      if a' == [] {
        assert a'+ b == b;
      } else {
        assert a'[|a'| - 1] == a[|a| - 1];
        SplitAppend(a', b);
        PushAppend(a[0], SplitLines(a'), SplitLines(b));
      }
    }
  }

  /** PushChar only touches the first line. */
  lemma PushAppend(c: char, xs: seq<string>, ys: seq<string>)
    requires xs != []
    ensures PushChar(c, xs + ys) == PushChar(c, xs) + ys
  {
  }
}
