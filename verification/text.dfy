/** Python's built-in string operations used by the helper scripts:
    `str.isspace`, `str.strip`, `str.lstrip`, `str.startswith`, the `in`
    substring test and `''.join`. Strings are sequences of code points. */
module Text {

  /** `c.isspace()` for one code point: the characters Python's `str.strip()`
      with no argument removes. */
  predicate IsSpace(c: char)
  {
    var n := c as int;
    n == 0x20 || 0x09 <= n <= 0x0D || 0x1C <= n <= 0x1F || n == 0x85 || n == 0xA0
    || n == 0x1680 || 0x2000 <= n <= 0x200A || n == 0x2028 || n == 0x2029
    || n == 0x202F || n == 0x205F || n == 0x3000
  }

  predicate AllSpace(s: string)
  {
    forall i :: 0 <= i < |s| ==> IsSpace(s[i])
  }

  /** `s.lstrip()`: `s` without its leading whitespace. */
  function LStrip(s: string): string
  {
    if |s| > 0 && IsSpace(s[0]) then LStrip(s[1..]) else s
  }

  /** `s.rstrip()`: `s` without its trailing whitespace. */
  function RStrip(s: string): string
  {
    if |s| > 0 && IsSpace(s[|s| - 1]) then RStrip(s[..|s| - 1]) else s
  }

  /** `lstrip` removes a whitespace prefix and keeps the rest as it is. */
  lemma {:induction false} LStripSpec(s: string)
    ensures |LStrip(s)| <= |s| && LStrip(s) == s[|s| - |LStrip(s)|..]
    ensures AllSpace(s[..|s| - |LStrip(s)|])
    ensures LStrip(s) == [] || !IsSpace(LStrip(s)[0])
  {
    if |s| > 0 && IsSpace(s[0]) {
      LStripSpec(s[1..]);
      var r := LStrip(s);
      assert s[1..][..|s| - 1 - |r|] == s[1..|s| - |r|];
    }
  }

  /** `rstrip` removes a whitespace suffix and keeps the rest as it is. */
  lemma {:induction false} RStripSpec(s: string)
    ensures |RStrip(s)| <= |s| && RStrip(s) == s[..|RStrip(s)|]
    ensures AllSpace(s[|RStrip(s)|..])
    ensures RStrip(s) == [] || !IsSpace(RStrip(s)[|RStrip(s)| - 1])
  {
    if |s| > 0 && IsSpace(s[|s| - 1]) {
      var init := s[..|s| - 1];
      RStripSpec(init);
      var r := RStrip(s);
      assert r == RStrip(init);
      assert r == s[..|r|] by {
        assert init[..|r|] == s[..|r|];
      }
      assert AllSpace(s[|r|..]) by {
        assert s[|r|..] == init[|r|..] + [s[|s| - 1]];
      }
    }
  }

  /** `s.strip()`. */
  function Strip(s: string): (r: string)
  {
    RStrip(LStrip(s))
  }

  /** `s[:len(s) - len(s.lstrip())]`: the leading whitespace of `s`. */
  function LeadingSpace(s: string): (r: string)
    ensures AllSpace(r) && StartsWith(s, r)
    ensures r + LStrip(s) == s
  {
    LStripSpec(s);
    s[..|s| - |LStrip(s)|]
  }

  /** `s.startswith(prefix)`. */
  predicate StartsWith(s: string, prefix: string)
  {
    |prefix| <= |s| && s[..|prefix|] == prefix
  }

  predicate OccursAt(text: string, sub: string, i: int)
  {
    0 <= i <= |text| - |sub| && text[i..i + |sub|] == sub
  }

  /** `sub in text`: `sub` occurs at some position from `from` on. */
  predicate ContainsFrom(text: string, sub: string, from: nat)
    decreases |text| - from
  {
    from + |sub| <= |text| && (OccursAt(text, sub, from) || ContainsFrom(text, sub, from + 1))
  }

  /** `sub in text`. */
  predicate Contains(text: string, sub: string)
  {
    ContainsFrom(text, sub, 0)
  }

  /** The left-to-right scan finds `sub` exactly when it occurs somewhere. */
  lemma {:induction false} ContainsFromIff(text: string, sub: string, from: nat)
    ensures ContainsFrom(text, sub, from) <==> exists i :: from <= i && OccursAt(text, sub, i)
    decreases |text| - from
  {
    if from + |sub| <= |text| {
      ContainsFromIff(text, sub, from + 1);
      if exists i :: from <= i && OccursAt(text, sub, i) {
        var i :| from <= i && OccursAt(text, sub, i);
        assert i == from || (from + 1 <= i && OccursAt(text, sub, i));
      }
    }
  }

  /** `sub in text` holds exactly when `sub` occurs at some position. */
  lemma ContainsIff(text: string, sub: string)
    ensures Contains(text, sub) <==> exists i :: 0 <= i && OccursAt(text, sub, i)
  {
    ContainsFromIff(text, sub, 0);
  }

  /** `''.join(parts)`. */
  function Join(parts: seq<string>): (r: string)
  {
    if parts == [] then "" else parts[0] + Join(parts[1..])
  }

  lemma {:induction false} JoinAppend(a: seq<string>, b: seq<string>)
    ensures Join(a + b) == Join(a) + Join(b)
  {
    if a != [] {
      assert (a + b)[1..] == a[1..] + b;
      JoinAppend(a[1..], b);
    } else {
      assert a + b == b;
    }
  }

  /** What one of the parts contains, the joined text contains. */
  lemma JoinContainsPart(parts: seq<string>, i: nat, sub: string)
    requires i < |parts| && Contains(parts[i], sub)
    ensures Contains(Join(parts), sub)
  {
    var pre, post := parts[..i], parts[i + 1..];
    assert parts == pre + ([parts[i]] + post);
    JoinAppend(pre, [parts[i]] + post);
    assert ([parts[i]] + post)[1..] == post;
    assert Join([parts[i]] + post) == parts[i] + Join(post);
    assert Join(parts) == Join(pre) + parts[i] + Join(post);
    ContainsMiddle(Join(pre), parts[i], Join(post));
    ContainsTransitive(Join(parts), parts[i], sub);
  }

  /** A string is found in a text that has it between any prefix and suffix. */
  lemma ContainsMiddle(pre: string, sub: string, post: string)
    ensures Contains(pre + sub + post, sub)
  {
    assert OccursAt(pre + sub + post, sub, |pre|);
    ContainsIff(pre + sub + post, sub);
  }

  /** A string is found in any text that contains a string containing it. */
  lemma ContainsTransitive(text: string, mid: string, sub: string)
    requires Contains(text, mid) && Contains(mid, sub)
    ensures Contains(text, sub)
  {
    ContainsIff(text, mid);
    ContainsIff(mid, sub);
    var i :| 0 <= i && OccursAt(text, mid, i);
    var j :| 0 <= j && OccursAt(mid, sub, j);
    forall k | 0 <= k < |sub|
      ensures text[i + j + k] == sub[k]
    {
      assert text[i..i + |mid|][j + k] == mid[j + k];
      assert mid[j..j + |sub|][k] == sub[k];
    }
    assert OccursAt(text, sub, i + j);
    ContainsIff(text, sub);
  }

  /** Leading whitespace is exactly what `lstrip` removes. */
  lemma {:induction false} LStripAfterSpace(ws: string, rest: string)
    requires AllSpace(ws)
    requires rest == [] || !IsSpace(rest[0])
    ensures LStrip(ws + rest) == rest
  {
    if ws == [] {
      assert ws + rest == rest;
    } else {
      assert (ws + rest)[1..] == ws[1..] + rest;
      LStripAfterSpace(ws[1..], rest);
    }
  }

  /** Trailing whitespace is exactly what `rstrip` removes. */
  lemma {:induction false} RStripBeforeSpace(body: string, ws: string)
    requires AllSpace(ws)
    requires body == [] || !IsSpace(body[|body| - 1])
    ensures RStrip(body + ws) == body
  {
    if ws == [] {
      assert body + ws == body;
    } else {
      var n := |body + ws|;
      assert (body + ws)[..n - 1] == body + ws[..|ws| - 1];
      RStripBeforeSpace(body, ws[..|ws| - 1]);
    }
  }

  /** `s.strip()` leaves no whitespace at either end. */
  lemma StripEnds(s: string)
    ensures Strip(s) == [] || (!IsSpace(Strip(s)[0]) && !IsSpace(Strip(s)[|Strip(s)| - 1]))
  {
    var l := LStrip(s);
    var r := RStrip(l);
    LStripSpec(s);
    RStripSpec(l);
    if r != [] {
      assert r[0] == l[0];
    }
  }

  /** Stripping twice is stripping once. */
  lemma StripIdempotent(s: string)
    ensures Strip(Strip(s)) == Strip(s)
  {
    var t := Strip(s);
    StripEnds(s);
    LStripAfterSpace("", t);
    assert "" + t == t;
    RStripBeforeSpace(t, "");
    assert t + "" == t;
  }

  /** No line terminator anywhere in `s`. */
  predicate NoNewline(s: string)
  {
    forall i :: 0 <= i < |s| ==> s[i] != '\n'
  }

  /** One line as `readlines()` returns it: not empty, "\n" at most as its
      last character, and missing there only on the file's last line. */
  predicate IsReadLine(line: string, last: bool)
  {
    |line| > 0 && NoNewline(line[..|line| - 1]) && (last || line[|line| - 1] == '\n')
  }

  /** A list of lines as `readlines()` returns them. */
  predicate IsReadLines(lines: seq<string>)
  {
    forall i :: 0 <= i < |lines| ==> IsReadLine(lines[i], i == |lines| - 1)
  }

  /** Length of the first line of a non-empty text, terminator included. */
  function LineLength(text: string): (n: nat)
    requires text != []
    ensures 0 < n <= |text|
  {
    if text[0] == '\n' || |text| == 1 then 1 else 1 + LineLength(text[1..])
  }

  /** `io.StringIO(text).readlines()`: the text cut after every "\n"; the
      last line has no terminator when the text does not end with one. */
  function SplitLines(text: string): seq<string>
    decreases |text|
  {
    if text == [] then []
    else
      var n := LineLength(text);
      [text[..n]] + SplitLines(text[n..])
  }

  /** A text that starts with a whole line continues after that line. */
  lemma {:induction false} LineLengthOfLine(line: string, tail: string)
    requires |line| > 0 && NoNewline(line[..|line| - 1])
    requires line[|line| - 1] == '\n' || tail == []
    ensures LineLength(line + tail) == |line|
    decreases |line|
  {
    var text := line + tail;
    if |line| > 1 {
      assert text[0] == line[0] != '\n';
      assert text[1..] == line[1..] + tail;
      assert line[1..][..|line| - 2] == line[1..|line| - 1];
      LineLengthOfLine(line[1..], tail);
    }
  }

  /** Writing lines with `writelines` and reading them back with
      `readlines` gives the same lines. */
  lemma {:induction false} SplitJoin(lines: seq<string>)
    requires IsReadLines(lines)
    ensures SplitLines(Join(lines)) == lines
    decreases |lines|
  {
    if lines != [] {
      var line, rest := lines[0], lines[1..];
      assert IsReadLine(line, |lines| == 1);
      assert IsReadLines(rest) by {
        forall i | 0 <= i < |rest|
          ensures IsReadLine(rest[i], i == |rest| - 1)
        {
          assert rest[i] == lines[i + 1];
        }
      }
      if |lines| == 1 {
        assert rest == [];
      }
      var text := Join(lines);
      assert text == line + Join(rest);
      LineLengthOfLine(line, Join(rest));
      assert text[..|line|] == line;
      assert text[|line|..] == Join(rest);
      SplitJoin(rest);
    }
  }

  /** A whitespace character added at the end does not change `strip()`. */
  lemma StripAppendSpace(s: string, c: char)
    requires IsSpace(c)
    ensures Strip(s + [c]) == Strip(s)
  {
    var body := LStrip(s);
    LStripSpec(s);
    var ws := s[..|s| - |body|];
    assert s == ws + body;
    if body == [] {
      assert AllSpace(ws + [c]);
      LStripAfterSpace(ws + [c], []);
      assert ws + [c] + [] == s + [c];
    } else {
      assert s + [c] == ws + (body + [c]);
      LStripAfterSpace(ws, body + [c]);
      assert (body + [c])[..|body|] == body;
    }
  }

  /** Lines that all end with "\n", followed by a list of read lines, are
      again a list of read lines. */
  lemma ReadLinesAppend(a: seq<string>, b: seq<string>)
    requires forall i :: 0 <= i < |a| ==> IsReadLine(a[i], false)
    requires IsReadLines(b)
    ensures IsReadLines(a + b)
  {
    forall i | 0 <= i < |a + b|
      ensures IsReadLine((a + b)[i], i == |a + b| - 1)
    {
      if i >= |a| {
        assert (a + b)[i] == b[i - |a|];
      }
    }
  }

  /** The first lines of a file, read, are again a list of read lines. */
  lemma ReadLinesPrefix(lines: seq<string>, m: nat)
    requires IsReadLines(lines) && m <= |lines|
    ensures IsReadLines(lines[..m])
  {
    forall i | 0 <= i < m
      ensures IsReadLine(lines[..m][i], i == m - 1)
    {
      assert lines[..m][i] == lines[i];
    }
  }

  /** The last lines of a file, read, are again a list of read lines. */
  lemma ReadLinesSuffix(lines: seq<string>, m: nat)
    requires IsReadLines(lines) && m <= |lines|
    ensures IsReadLines(lines[m..])
  {
    forall i | 0 <= i < |lines| - m
      ensures IsReadLine(lines[m..][i], i == |lines| - m - 1)
    {
      assert lines[m..][i] == lines[m + i];
    }
  }
}
