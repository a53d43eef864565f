/** The string operations the result stream relies on, with the meaning the
    two runtimes give them: JavaScript's `split('\n')`, `trim()` and
    `startsWith`, and Python's substring test `pat in s`. */
module Text {

  /** Concatenation is associative. */
  lemma AppendAssoc<E>(a: seq<E>, b: seq<E>, c: seq<E>)
    ensures (a + b) + c == a + (b + c)
  {
  }

  predicate NewlineFree(s: string) {
    '\n' !in s
  }

  /** The WhiteSpace and LineTerminator code points of ECMAScript (sections
      12.2 and 12.3 of ECMA-262); `String.prototype.trim` strips exactly these
      from both ends. */
  predicate IsTrimmable(c: char) {
    || c == '\t' || c == '\n' || c == '\U{B}' || c == '\U{C}' || c == '\r' || c == ' '
    || c == '\U{A0}' || c == '\U{1680}' || ('\U{2000}' <= c <= '\U{200A}')
    || c == '\U{2028}' || c == '\U{2029}' || c == '\U{202F}' || c == '\U{205F}'
    || c == '\U{3000}' || c == '\U{FEFF}'
  }

  /** The suffix of `s` left after its leading trimmable characters. */
  function TrimStart(s: string): string {
    if s != [] && IsTrimmable(s[0]) then TrimStart(s[1..]) else s
  }

  /** The prefix of `s` left after its trailing trimmable characters. */
  function TrimEnd(s: string): string {
    if s != [] && IsTrimmable(s[|s| - 1]) then TrimEnd(s[..|s| - 1]) else s
  }

  /** Trimming the start removes exactly the longest run of trimmable
      characters at the front. */
  lemma {:induction false} TrimStartStrips(s: string)
    ensures var r := TrimStart(s);
      && |r| <= |s| && r == s[|s| - |r|..]
      && (forall k :: 0 <= k < |s| - |r| ==> IsTrimmable(s[k]))
      && (r != [] ==> !IsTrimmable(r[0]))
    decreases |s|
  {
    if s != [] && IsTrimmable(s[0]) {
      TrimStartStrips(s[1..]);
      var r := TrimStart(s[1..]);
      assert s[1..][|s| - 1 - |r|..] == s[|s| - |r|..];
      forall k | 0 <= k < |s| - |r| ensures IsTrimmable(s[k]) {
        if k > 0 {
          assert s[k] == s[1..][k - 1];
        }
      }
    }
  }

  /** Trimming the end removes exactly the longest run of trimmable
      characters at the back. */
  lemma {:induction false} TrimEndStrips(s: string)
    ensures var r := TrimEnd(s);
      && |r| <= |s| && r == s[..|r|]
      && (forall k :: |r| <= k < |s| ==> IsTrimmable(s[k]))
      && (r != [] ==> !IsTrimmable(r[|r| - 1]))
    decreases |s|
  {
    if s != [] && IsTrimmable(s[|s| - 1]) {
      TrimEndStrips(s[..|s| - 1]);
      var r := TrimEnd(s[..|s| - 1]);
      assert s[..|s| - 1][..|r|] == s[..|r|];
      forall k | |r| <= k < |s| ensures IsTrimmable(s[k]) {
        if k < |s| - 1 {
          assert s[k] == s[..|s| - 1][k];
        }
      }
    }
  }

  /** JavaScript's `s.trim()`. */
  function Trim(s: string): string {
    TrimEnd(TrimStart(s))
  }

  /** A string that neither begins nor ends with a trimmable character is
      its own trimmed form. */
  lemma TrimKeeps(s: string)
    requires s != [] && !IsTrimmable(s[0]) && !IsTrimmable(s[|s| - 1])
    ensures Trim(s) == s
  {
  }

  /** JavaScript's `s.startsWith(prefix)`. */
  predicate StartsWith(s: string, prefix: string) {
    |prefix| <= |s| && s[..|prefix|] == prefix
  }

  /** `pat` occurs in `s` starting at index `i`. */
  predicate OccursAt(s: string, pat: string, i: int) {
    0 <= i <= |s| - |pat| && s[i..i + |pat|] == pat
  }

  /** Python's `pat in s` on strings. */
  predicate Contains(s: string, pat: string)
    decreases |s|
  {
    StartsWith(s, pat) || (s != [] && Contains(s[1..], pat))
  }

  /** An occurrence at index `i` is found by the substring test. */
  lemma {:induction false} OccursContains(s: string, pat: string, i: int)
    requires OccursAt(s, pat, i)
    ensures Contains(s, pat)
    decreases i
  {
    if i > 0 {
      assert s[1..][i - 1..i - 1 + |pat|] == s[i..i + |pat|];
      OccursContains(s[1..], pat, i - 1);
    }
  }

  /** The substring test finds `pat` exactly when it occurs at some index. */
  lemma {:induction false} ContainsIffOccurs(s: string, pat: string)
    ensures Contains(s, pat) <==> exists i :: OccursAt(s, pat, i)
    decreases |s|
  {
    if StartsWith(s, pat) {
      assert OccursAt(s, pat, 0);
    } else if s != [] && Contains(s[1..], pat) {
      ContainsIffOccurs(s[1..], pat);
      var i :| OccursAt(s[1..], pat, i);
      assert s[i + 1..i + 1 + |pat|] == s[1..][i..i + |pat|];
      assert OccursAt(s, pat, i + 1);
    }
    forall i | OccursAt(s, pat, i) ensures Contains(s, pat) {
      OccursContains(s, pat, i);
    }
  }

  /** A text without the pattern's first character does not contain it. */
  lemma {:induction false} MissingFirstChar(s: string, pat: string)
    requires pat != [] && pat[0] !in s
    ensures !Contains(s, pat)
    decreases |s|
  {
    if s != [] {
      if |pat| <= |s| {
        assert s[..|pat|][0] == s[0];
      }
      assert pat[0] !in s[1..] by {
        assert forall k :: 0 <= k < |s[1..]| ==> s[1..][k] == s[k + 1];
      }
      MissingFirstChar(s[1..], pat);
    }
  }

  /** JavaScript's `s.split('\n')`: the pieces between the line feeds, of
      which there is always at least one. The last piece is the text after the
      final line feed. */
  function Split(s: string): (r: seq<string>)
    ensures |r| >= 1
  {
    if s == [] then [""]
    else
      var rest := Split(s[1..]);
      if s[0] == '\n' then [""] + rest else [[s[0]] + rest[0]] + rest[1..]
  }

  /** No piece of a split holds a line feed, and joining the pieces with
      line feeds gives back the text. */
  lemma {:induction false} SplitPieces(s: string)
    ensures forall k :: 0 <= k < |Split(s)| ==> NewlineFree(Split(s)[k])
    ensures Join(Split(s)) == s
    decreases |s|
  {
    if s != [] {
      var rest := Split(s[1..]);
      SplitPieces(s[1..]);
      if s[0] == '\n' {
        assert Split(s) == [""] + rest;
        assert Join(Split(s)) == "" + "\n" + Join(rest) by {
          if |rest| == 1 {
            assert ([""] + rest)[1..] == rest;
          }
        }
        assert [s[0]] + s[1..] == s;
      } else {
        assert Split(s) == [[s[0]] + rest[0]] + rest[1..];
        JoinExtendsHead([s[0]], rest);
        assert [s[0]] + s[1..] == s;
      }
    }
  }

  /** `lines.join('\n')`. */
  function Join(ls: seq<string>): string {
    if ls == [] then ""
    else if |ls| == 1 then ls[0]
    else ls[0] + "\n" + Join(ls[1..])
  }

  /** Each line followed by a line feed: the text of complete lines. */
  function Terminated(ls: seq<string>): string {
    if ls == [] then "" else ls[0] + "\n" + Terminated(ls[1..])
  }

  lemma JoinExtendsHead(a: string, ls: seq<string>)
    requires |ls| >= 1
    ensures Join([a + ls[0]] + ls[1..]) == a + Join(ls)
  {
    if |ls| == 1 {
      assert [a + ls[0]] + ls[1..] == [a + ls[0]];
    } else {
      JoinLongExtendsHead(a, ls);
    }
  }

  lemma JoinLongExtendsHead(a: string, ls: seq<string>)
    requires |ls| >= 2
    ensures Join([a + ls[0]] + ls[1..]) == a + Join(ls)
  {
    var m := [a + ls[0]] + ls[1..];
    assert m[1..] == ls[1..];
    var j := Join(ls[1..]);
    var x := ls[0];
    assert (a + x) + "\n" + j == a + (x + "\n" + j);
  }

  /** A string without a line feed splits into itself alone. */
  lemma {:induction false} SplitNewlineFree(a: string)
    requires NewlineFree(a)
    ensures Split(a) == [a]
    decreases |a|
  {
    if a != [] {
      SplitNewlineFree(a[1..]);
      assert [a[0]] + a[1..] == a;
    }
  }

  /** A complete line in front of `t` becomes one piece in front of `t`'s. */
  lemma {:induction false} SplitLine(a: string, t: string)
    requires NewlineFree(a)
    ensures Split(a + "\n" + t) == [a] + Split(t)
    decreases |a|
  {
    var s := a + "\n" + t;
    if a == [] {
      assert s[1..] == t;
    } else {
      assert s[1..] == a[1..] + "\n" + t;
      SplitLine(a[1..], t);
      assert [a[0]] + a[1..] == a;
    }
  }

  /** The first complete line, then the rest of the text. */
  lemma TerminatedStep(ls: seq<string>, t: string)
    requires ls != []
    ensures Terminated(ls) + t == ls[0] + "\n" + (Terminated(ls[1..]) + t)
  {
    var u := Terminated(ls[1..]);
    assert Terminated(ls) == ls[0] + "\n" + u;
    AppendAssoc(ls[0] + "\n", u, t);
  }

  /** Complete lines in front of `t` are split off unchanged. */
  lemma {:induction false} SplitTerminated(ls: seq<string>, t: string)
    requires forall k :: 0 <= k < |ls| ==> NewlineFree(ls[k])
    ensures Split(Terminated(ls) + t) == ls + Split(t)
    decreases |ls|
  {
    if ls != [] {
      var tail := ls[1..];
      TerminatedStep(ls, t);
      SplitLine(ls[0], Terminated(tail) + t);
      SplitTerminated(tail, t);
      assert ls == [ls[0]] + tail;
      AppendAssoc([ls[0]], tail, Split(t));
    } else {
      assert Terminated(ls) + t == t;
    }
  }

  lemma {:induction false} TerminatedAppend(a: seq<string>, b: seq<string>)
    ensures Terminated(a + b) == Terminated(a) + Terminated(b)
    decreases |a|
  {
    if a != [] {
      assert (a + b)[0] == a[0] && (a + b)[1..] == a[1..] + b;
      TerminatedAppend(a[1..], b);
      calc {
        Terminated(a + b);
        a[0] + "\n" + Terminated(a[1..] + b);
        a[0] + "\n" + (Terminated(a[1..]) + Terminated(b));
        (a[0] + "\n" + Terminated(a[1..])) + Terminated(b);
        Terminated(a) + Terminated(b);
      }
    } else {
      assert a + b == b;
    }
  }

  /** Joining is terminating every piece but the last, then the last. */
  lemma {:induction false} JoinIsTerminatedThenLast(ls: seq<string>)
    requires |ls| >= 1
    ensures Join(ls) == Terminated(ls[..|ls| - 1]) + ls[|ls| - 1]
    decreases |ls|
  {
    if |ls| > 1 {
      JoinIsTerminatedThenLast(ls[1..]);
      assert ls[1..][..|ls| - 2] == ls[1..|ls| - 1];
      assert ls[..|ls| - 1] == [ls[0]] + ls[1..|ls| - 1];
    }
  }

  /** Splitting inverts joining: pieces without line feeds are recovered. */
  lemma {:induction false} SplitJoin(ls: seq<string>)
    requires |ls| >= 1
    requires forall k :: 0 <= k < |ls| ==> NewlineFree(ls[k])
    ensures Split(Join(ls)) == ls
  {
    JoinIsTerminatedThenLast(ls);
    SplitTerminated(ls[..|ls| - 1], ls[|ls| - 1]);
    SplitNewlineFree(ls[|ls| - 1]);
  }

  /** Splitting `x + y` is splitting `x`, keeping its complete lines, and
      splitting what was after `x`'s last line feed together with `y`. */
  lemma SplitAppend(x: string, y: string)
    ensures var sx := Split(x);
      Split(x + y) == sx[..|sx| - 1] + Split(sx[|sx| - 1] + y)
  {
    var sx := Split(x);
    SplitPieces(x);
    JoinIsTerminatedThenLast(sx);
    assert x + y == Terminated(sx[..|sx| - 1]) + (sx[|sx| - 1] + y);
    SplitTerminated(sx[..|sx| - 1], sx[|sx| - 1] + y);
  }
}
