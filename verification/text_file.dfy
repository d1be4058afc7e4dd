/**
 The pure part of loading and saving: line endings are normalized, the text
 is split at every newline, and saving joins the lines with one newline each.
 */
module TextFile {

  /** The number of "\r\n" pairs in `s`. Two pairs never overlap, since a
      pair ends in a newline and starts with a carriage return. */
  function CountCRLF(s: string): nat
    decreases |s|
  {
    if |s| < 2 then 0
    else (if s[0] == '\r' && s[1] == '\n' then 1 else 0) + CountCRLF(s[1..])
  }

  /** The number of newline characters in `s`. */
  function CountNewlines(s: string): nat
    decreases |s|
  {
    if |s| == 0 then 0 else (if s[0] == '\n' then 1 else 0) + CountNewlines(s[1..])
  }

  /** No carriage return in `s` is directly followed by a newline. */
  predicate NoCRLF(s: string) {
    forall k :: 0 <= k < |s| - 1 ==> !(s[k] == '\r' && s[k + 1] == '\n')
  }

  /** Replaces every "\r\n" pair by "\n", scanning left to right. */
  function Normalize(s: string): (r: string)
    ensures |r| == |s| - CountCRLF(s)
    ensures '\r' !in s ==> r == s
    ensures forall k :: 0 <= k < |r| && r[k] != '\n' ==> r[k] in s
    decreases |s|
  {
    if |s| >= 2 && s[0] == '\r' && s[1] == '\n' then
      var r := "\n" + Normalize(s[2..]);
      assert s[1..][1..] == s[2..];
      r
    else if |s| == 0 then ""
    else [s[0]] + Normalize(s[1..])
  }

  /** Writes every newline as a "\r\n" pair, the way a file saved with
      Windows line endings holds the text. */
  function ToCRLF(t: string): (r: string)
    ensures |r| == |t| + CountNewlines(t)
    decreases |t|
  {
    if |t| == 0 then ""
    else (if t[0] == '\n' then "\r\n" else [t[0]]) + ToCRLF(t[1..])
  }

  /** Splits at every newline, keeping empty pieces: k newlines give k + 1 lines. */
  function SplitLines(s: string): (ls: seq<string>)
    ensures |ls| >= 1
    decreases |s|
  {
    if |s| == 0 then [""]
    else
      var rest := SplitLines(s[1..]);
      if s[0] == '\n' then [""] + rest
      else [[s[0]] + rest[0]] + rest[1..]
  }

  /** The summed length of the lines. */
  function TotalLength(ls: seq<string>): nat
    decreases |ls|
  {
    if |ls| == 0 then 0 else |ls[0]| + TotalLength(ls[1..])
  }

  /** Joins lines with a single newline between neighbours. */
  function JoinLines(ls: seq<string>): (s: string)
    requires |ls| >= 1
    ensures |s| == TotalLength(ls) + |ls| - 1
    ensures s[..|ls[0]|] == ls[0]
    decreases |ls|
  {
    if |ls| == 1 then ls[0] else ls[0] + "\n" + JoinLines(ls[1..])
  }

  predicate NoNewline(line: string) {
    '\n' !in line
  }

  /** No line produced by splitting contains a newline. */
  lemma {:induction false} SplitLinesHaveNoNewline(s: string)
    ensures forall k :: 0 <= k < |SplitLines(s)| ==> NoNewline(SplitLines(s)[k])
    decreases |s|
  {
    if |s| > 0 {
      SplitLinesHaveNoNewline(s[1..]);
      var rest := SplitLines(s[1..]);
      var ls := SplitLines(s);
      if s[0] == '\n' {
        assert forall k :: 1 <= k < |ls| ==> ls[k] == rest[k - 1];
      } else {
        assert forall k :: 1 <= k < |ls| ==> ls[k] == rest[k];
        assert NoNewline(rest[0]);
      }
    }
  }

  /** Joining what was split gives back the text. */
  lemma {:induction false} JoinSplit(s: string)
    ensures JoinLines(SplitLines(s)) == s
    decreases |s|
  {
    if |s| > 0 {
      JoinSplit(s[1..]);
      var rest := SplitLines(s[1..]);
      var ls := SplitLines(s);
      if s[0] == '\n' {
        assert ls[1..] == rest;
      } else {
        assert ls[1..] == rest[1..];
        if |rest| > 1 {
          assert rest[0] + "\n" + JoinLines(rest[1..]) == JoinLines(rest);
          assert JoinLines(ls) == [s[0]] + rest[0] + "\n" + JoinLines(rest[1..]);
        }
        assert s == [s[0]] + s[1..];
      }
    }
  }

  /** A newline-free prefix stays on the first line. */
  lemma {:induction false} SplitPrefix(w: string, t: string)
    requires NoNewline(w)
    ensures SplitLines(w + t) == [w + SplitLines(t)[0]] + SplitLines(t)[1..]
    decreases |w|
  {
    if |w| > 0 {
      SplitPrefix(w[1..], t);
      var rest := SplitLines(w[1..] + t);
      assert (w + t)[0] == w[0] && (w + t)[1..] == w[1..] + t;
      assert rest[0] == w[1..] + SplitLines(t)[0];
      assert rest[1..] == SplitLines(t)[1..];
      assert [w[0]] + (w[1..] + SplitLines(t)[0]) == w + SplitLines(t)[0];
    } else {
      assert w + t == t;
      assert w + SplitLines(t)[0] == SplitLines(t)[0];
      assert SplitLines(t) == [SplitLines(t)[0]] + SplitLines(t)[1..];
    }
  }

  /** Splitting what was joined gives back the lines, provided none of them
      holds a newline. */
  lemma {:induction false} SplitJoin(ls: seq<string>)
    requires |ls| >= 1
    requires forall k :: 0 <= k < |ls| ==> NoNewline(ls[k])
    ensures SplitLines(JoinLines(ls)) == ls
    decreases |ls|
  {
    if |ls| == 1 {
      SplitPrefix(ls[0], "");
      assert SplitLines("") == [""];
      assert ls[0] + "" == ls[0];
    } else {
      SplitJoin(ls[1..]);
      var t := JoinLines(ls[1..]);
      SplitPrefix(ls[0], "\n" + t);
      assert ls[0] + "\n" + t == ls[0] + ("\n" + t);
      assert ("\n" + t)[0] == '\n' && ("\n" + t)[1..] == t;
      assert SplitLines("\n" + t) == [""] + ls[1..];
      assert ls[0] + "" == ls[0];
      assert ls == [ls[0]] + ls[1..];
    }
  }

  /** Normalizing a text with Windows line endings gives back the text. */
  lemma {:induction false} NormalizeCRLF(t: string)
    requires '\r' !in t
    ensures Normalize(ToCRLF(t)) == t
    decreases |t|
  {
    if |t| > 0 {
      NormalizeCRLF(t[1..]);
      var u := ToCRLF(t);
      if t[0] == '\n' {
        assert u == "\r\n" + ToCRLF(t[1..]);
        assert u[2..] == ToCRLF(t[1..]);
      } else {
        assert u == [t[0]] + ToCRLF(t[1..]);
        assert u[1..] == ToCRLF(t[1..]);
      }
      assert t == [t[0]] + t[1..];
    }
  }

  /** Normalizing changes nothing in a text without "\r\n" pairs. */
  lemma {:induction false} NormalizeNoCRLF(s: string)
    requires NoCRLF(s)
    ensures Normalize(s) == s
    decreases |s|
  {
    if |s| > 0 {
      assert NoCRLF(s[1..]) by {
        forall k | 0 <= k < |s[1..]| - 1
          ensures !(s[1..][k] == '\r' && s[1..][k + 1] == '\n')
        {
          assert s[1..][k] == s[k + 1] && s[1..][k + 1] == s[k + 2];
        }
      }
      NormalizeNoCRLF(s[1..]);
      assert s == [s[0]] + s[1..];
    }
  }

  /** Joining newline-free lines creates a "\r\n" pair only where a line
      other than the last ends in a carriage return. */
  lemma {:induction false} JoinNoCRLF(ls: seq<string>)
    requires |ls| >= 1
    requires forall k :: 0 <= k < |ls| ==> NoNewline(ls[k])
    requires forall k :: 0 <= k < |ls| - 1 && |ls[k]| > 0 ==> ls[k][|ls[k]| - 1] != '\r'
    ensures NoCRLF(JoinLines(ls))
    decreases |ls|
  {
    if |ls| > 1 {
      JoinNoCRLF(ls[1..]);
      var a := ls[0];
      var t := JoinLines(ls[1..]);
      var s := JoinLines(ls);
      assert s == a + "\n" + t;
      forall k | 0 <= k < |s| - 1
        ensures !(s[k] == '\r' && s[k + 1] == '\n')
      {
        if k + 1 < |a| {
          assert s[k + 1] == a[k + 1] && a[k + 1] in a;
        } else if k + 1 == |a| {
          assert s[k] == a[|a| - 1];
        } else if k == |a| {
          assert s[k] == '\n';
        } else {
          assert s[k] == t[k - |a| - 1] && s[k + 1] == t[k - |a|];
        }
      }
    }
  }

  /** A line ending in a carriage return, followed by another line, does not
      survive joining, normalizing and splitting. */
  lemma CarriageReturnLost()
    ensures SplitLines(Normalize(JoinLines(["a\r", "b"]))) == ["a", "b"]
  {
    var text := JoinLines(["a\r", "b"]);
    assert ["a\r", "b"][1..] == ["b"];
    assert text == "a\r\nb";
    assert Normalize(text) == "a\nb" by {
      assert text[1..] == "\r\nb" && text[1..][2..] == "b";
      assert Normalize("b") == "b";
    }
    assert SplitLines("a\nb") == ["a", "b"] by {
      assert "a\nb"[1..] == "\nb" && "\nb"[1..] == "b" && "b"[1..] == "";
      assert SplitLines("b") == ["b"];
      assert SplitLines("\nb") == ["", "b"];
      assert ["", "b"][1..] == ["b"] && ['a'] + "" == "a";
    }
  }

}
