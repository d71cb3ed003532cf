/**
 * Splitting a string on newline characters with the semantics of JavaScript's
 * `String.prototype.split("\n")`: every newline separates two pieces, empty
 * pieces are kept (so "a\n" gives ["a", ""]) and the empty string gives [""].
 * JoinLines is `Array.prototype.join("\n")`; it undoes SplitLines, and SplitLines
 * undoes it on non-empty lists of newline-free pieces.
 */
module Lines {

  /** The pieces of `s` between newline characters, in order. */
  function SplitLines(s: string): (r: seq<string>)
    ensures |r| >= 1
    decreases |s|
  {
    if s == [] then [""]
    else if s[0] == '\n' then [""] + SplitLines(s[1..])
    else
      var rest := SplitLines(s[1..]);
      [[s[0]] + rest[0]] + rest[1..]
  }

  /** The pieces joined with a newline between each two neighbours. */
  function JoinLines(parts: seq<string>): string
  {
    if |parts| == 0 then ""
    else if |parts| == 1 then parts[0]
    else parts[0] + "\n" + JoinLines(parts[1..])
  }

  /** The number of newline characters in `s`. */
  function NewlineCount(s: string): nat
  {
    if s == [] then 0
    else (if s[0] == '\n' then 1 else 0) + NewlineCount(s[1..])
  }

  ghost predicate NoNewline(p: string)
  {
    forall k :: 0 <= k < |p| ==> p[k] != '\n'
  }

  /** Prepending a character to the first piece prepends it to the joined string. */
  lemma {:induction false} JoinLinesConsChar(c: char, parts: seq<string>)
    requires |parts| >= 1
    ensures JoinLines([[c] + parts[0]] + parts[1..]) == [c] + JoinLines(parts)
  {
  }

  /** Joining the pieces of a split gives back the original string. */
  lemma {:induction false} JoinSplitLines(s: string)
    ensures JoinLines(SplitLines(s)) == s
    decreases |s|
  {
    if s == [] {
    } else if s[0] == '\n' {
      var rest := SplitLines(s[1..]);
      JoinSplitLines(s[1..]);
      assert ([""] + rest)[1..] == rest;
      assert "" + "\n" + s[1..] == s;
    } else {
      var rest := SplitLines(s[1..]);
      JoinSplitLines(s[1..]);
      JoinLinesConsChar(s[0], rest);
      assert [s[0]] + s[1..] == s;
    }
  }

  /** No piece of a split contains a newline. */
  lemma {:induction false} SplitLinesNoNewline(s: string)
    ensures forall i :: 0 <= i < |SplitLines(s)| ==> NoNewline(SplitLines(s)[i])
    decreases |s|
  {
    if s != [] {
      SplitLinesNoNewline(s[1..]);
      var rest := SplitLines(s[1..]);
      if s[0] != '\n' {
        assert NoNewline(rest[0]);
        assert NoNewline([s[0]] + rest[0]);
        var r := SplitLines(s);
        forall i | 0 <= i < |r| ensures NoNewline(r[i]) {
          if i > 0 { assert r[i] == rest[i]; }
        }
      } else {
        var r := SplitLines(s);
        forall i | 0 <= i < |r| ensures NoNewline(r[i]) {
          if i > 0 { assert r[i] == rest[i - 1]; }
        }
      }
    }
  }

  /** A split has one piece more than the string has newlines. */
  lemma {:induction false} SplitLinesCount(s: string)
    ensures |SplitLines(s)| == NewlineCount(s) + 1
    decreases |s|
  {
    if s != [] {
      SplitLinesCount(s[1..]);
    }
  }

  /** Splitting a string that starts with a newline-free prefix extends the first piece. */
  lemma {:induction false} SplitLinesPrefix(p: string, t: string)
    requires NoNewline(p)
    ensures SplitLines(p + t) == [p + SplitLines(t)[0]] + SplitLines(t)[1..]
    decreases |p|
  {
    if p != [] {
      assert (p + t)[0] == p[0];
      assert (p + t)[1..] == p[1..] + t;
      assert NoNewline(p[1..]) by {
        forall k | 0 <= k < |p[1..]| ensures p[1..][k] != '\n' {
          assert p[1..][k] == p[k + 1];
        }
      }
      SplitLinesPrefix(p[1..], t);
      assert [p[0]] + (p[1..] + SplitLines(t)[0]) == p + SplitLines(t)[0];
    } else {
      var r := SplitLines(t);
      assert p + t == t && p + r[0] == r[0];
      assert r == [r[0]] + r[1..];
    }
  }

  /** Splitting the join of newline-free pieces gives back exactly those pieces. */
  lemma {:induction false} SplitJoinLines(parts: seq<string>)
    requires |parts| >= 1
    requires forall i :: 0 <= i < |parts| ==> NoNewline(parts[i])
    ensures SplitLines(JoinLines(parts)) == parts
    decreases |parts|
  {
    if |parts| == 1 {
      SplitLinesPrefix(parts[0], "");
      assert parts[0] + "" == parts[0];
      assert parts == [parts[0]];
    } else {
      var tail := JoinLines(parts[1..]);
      SplitJoinLines(parts[1..]);
      SplitLinesPrefix(parts[0], "\n" + tail);
      assert ("\n" + tail)[0] == '\n' && ("\n" + tail)[1..] == tail;
      assert SplitLines("\n" + tail) == [""] + parts[1..];
      assert parts[0] + "\n" + tail == parts[0] + ("\n" + tail);
      var r := SplitLines("\n" + tail);
      assert r[0] == "" && r[1..] == parts[1..];
      assert parts[0] + r[0] == parts[0];
      assert parts == [parts[0]] + parts[1..];
    }
  }

  /** The three-source response used as an example for the question endpoint. */
  lemma SplitLinesExample()
    ensures SplitLines("s1\ns2\ns3") == ["s1", "s2", "s3"]
    ensures SplitLines("a\n") == ["a", ""]
  {
    var three: seq<string> := ["s1", "s2", "s3"];
    assert JoinLines(three) == "s1\ns2\ns3" by {
      assert three[1..] == ["s2", "s3"] && three[1..][1..] == ["s3"];
    }
    forall i | 0 <= i < |three| ensures NoNewline(three[i]) { }
    SplitJoinLines(three);
    var two: seq<string> := ["a", ""];
    assert JoinLines(two) == "a\n" by {
      assert two[1..] == [""];
    }
    forall i | 0 <= i < |two| ensures NoNewline(two[i]) { }
    SplitJoinLines(two);
  }
}
