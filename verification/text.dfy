/** The string primitives the source relies on: `toUpperCase`/`toLowerCase`
    (ASCII letters only), `slice(0, n)` and `split(/\s+/)`. */
module Text {

  /** JavaScript's `\s` class: the ECMAScript white-space and line-terminator
      characters. */
  predicate IsSpace(c: char) {
    c == ' ' || c == '\t' || c == '\n' || c == '\r' || c == '\U{0B}' || c == '\U{0C}'
    || c == '\U{A0}' || c == '\U{1680}' || ('\U{2000}' <= c <= '\U{200A}')
    || c == '\U{2028}' || c == '\U{2029}' || c == '\U{202F}' || c == '\U{205F}'
    || c == '\U{3000}' || c == '\U{FEFF}'
  }

  predicate NoSpace(s: string) {
    forall i :: 0 <= i < |s| ==> !IsSpace(s[i])
  }

  predicate IsLowerLetter(c: char) { 'a' <= c <= 'z' }
  predicate IsUpperLetter(c: char) { 'A' <= c <= 'Z' }

  function UpperChar(c: char): char {
    if IsLowerLetter(c) then (c as int - 32) as char else c
  }

  function LowerChar(c: char): char {
    if IsUpperLetter(c) then (c as int + 32) as char else c
  }

  /** `s.toUpperCase()` on ASCII letters: same length, each lower-case letter
      replaced by its upper-case letter (32 code points lower), every other
      character kept. */
  function Upper(s: string): (r: string)
    ensures |r| == |s|
    ensures forall i :: 0 <= i < |s| && IsLowerLetter(s[i]) ==>
      IsUpperLetter(r[i]) && r[i] as int == s[i] as int - 32
    ensures forall i :: 0 <= i < |s| && !IsLowerLetter(s[i]) ==> r[i] == s[i]
    ensures forall i :: 0 <= i < |r| ==> !IsLowerLetter(r[i])
  {
    seq(|s|, i requires 0 <= i < |s| => UpperChar(s[i]))
  }

  /** `s.toLowerCase()` on ASCII letters: same length, each upper-case letter
      replaced by its lower-case letter (32 code points higher), every other
      character kept. */
  function Lower(s: string): (r: string)
    ensures |r| == |s|
    ensures forall i :: 0 <= i < |s| && IsUpperLetter(s[i]) ==>
      IsLowerLetter(r[i]) && r[i] as int == s[i] as int + 32
    ensures forall i :: 0 <= i < |s| && !IsUpperLetter(s[i]) ==> r[i] == s[i]
    ensures forall i :: 0 <= i < |r| ==> !IsUpperLetter(r[i])
  {
    seq(|s|, i requires 0 <= i < |s| => LowerChar(s[i]))
  }

  /** `a` and `b` are the same character, or the same ASCII letter in the
      two cases. */
  predicate CaseVariants(a: char, b: char) {
    a == b
    || (IsLowerLetter(a) && IsUpperLetter(b) && a as int - b as int == 32)
    || (IsUpperLetter(a) && IsLowerLetter(b) && b as int - a as int == 32)
  }

  /** Two strings that differ only in the case of ASCII letters. */
  predicate SameIgnoringCase(a: string, b: string) {
    |a| == |b| && forall i :: 0 <= i < |a| ==> CaseVariants(a[i], b[i])
  }

  /** Upper-casing identifies exactly the strings that differ only in case. */
  lemma {:induction false} UpperIdentifiesCase(a: string, b: string)
    ensures Upper(a) == Upper(b) <==> SameIgnoringCase(a, b)
  {
    if Upper(a) == Upper(b) {
      forall i | 0 <= i < |a| ensures CaseVariants(a[i], b[i]) {
        assert Upper(a)[i] == Upper(b)[i];
      }
    }
    if SameIgnoringCase(a, b) {
      forall i | 0 <= i < |a| ensures Upper(a)[i] == Upper(b)[i] {
        assert CaseVariants(a[i], b[i]);
      }
    }
  }

  /** `s.slice(0, n)`: the first `n` characters, or all of `s` when shorter. */
  function Prefix(s: string, n: nat): (r: string)
    ensures r <= s
    ensures |r| == if |s| <= n then |s| else n
  {
    if |s| <= n then s else s[..n]
  }

  /** `<p><a>-<b>`, as the tools build their cache keys. */
  function Dashed(p: string, a: string, b: string): string {
    p + a + "-" + b
  }

  /** Two dashed keys that agree on one of their two fields are equal exactly
      when they agree on the other one too. */
  lemma DashedSeparates(p: string, a1: string, b1: string, a2: string, b2: string)
    requires a1 == a2 || b1 == b2
    ensures Dashed(p, a1, b1) == Dashed(p, a2, b2) <==> a1 == a2 && b1 == b2
  {
    var k1, k2 := Dashed(p, a1, b1), Dashed(p, a2, b2);
    if k1 == k2 && a1 == a2 {
      assert b1 == k1[|p| + |a1| + 1..];
      assert b2 == k2[|p| + |a2| + 1..];
    }
    if k1 == k2 && b1 == b2 {
      assert |a1| == |a2|;
      assert a1 == k1[|p|..|p| + |a1|];
      assert a2 == k2[|p|..|p| + |a2|];
    }
  }

  /** Drops the maximal run of white space at the front of `s`. */
  function SkipSpaces(s: string): (r: string)
    ensures |r| <= |s| && r == s[|s| - |r|..]
    ensures r == [] || !IsSpace(r[0])
    ensures forall i :: 0 <= i < |s| - |r| ==> IsSpace(s[i])
  {
    if s != [] && IsSpace(s[0]) then SkipSpaces(s[1..]) else s
  }

  /** `s.split(/\s+/)`: the fields between maximal runs of white space. A
      leading or trailing run yields an empty first or last field, and the
      empty string yields one empty field. */
  function Split(s: string): (parts: seq<string>)
    ensures |parts| >= 1
    ensures forall i :: 0 <= i < |parts| ==> NoSpace(parts[i])
    ensures s == [] ==> parts == [""]
    ensures s != [] && IsSpace(s[0]) ==> parts[0] == ""
    ensures s != [] && !IsSpace(s[0]) ==> parts[0] != "" && parts[0][0] == s[0]
    decreases |s|
  {
    if s == [] then [""]
    else if IsSpace(s[0]) then [""] + Split(SkipSpaces(s))
    else
      var rest := Split(s[1..]);
      [[s[0]] + rest[0]] + rest[1..]
  }

  /** Words joined by single spaces. */
  function Unwords(ws: seq<string>): string
    requires |ws| >= 1
  {
    if |ws| == 1 then ws[0] else ws[0] + " " + Unwords(ws[1..])
  }

  /** A space-free word in front of `s` becomes part of the first field. */
  lemma {:induction false} SplitAfterWord(w: string, s: string)
    requires NoSpace(w)
    ensures Split(w + s) == [w + Split(s)[0]] + Split(s)[1..]
    decreases |w|
  {
    var parts := Split(s);
    if w == [] {
      assert w + s == s;
      assert w + parts[0] == parts[0];
      assert parts == [parts[0]] + parts[1..];
    } else {
      var ws := w + s;
      assert ws[0] == w[0] && !IsSpace(ws[0]);
      assert ws[1..] == w[1..] + s;
      SplitAfterWord(w[1..], s);
      var rest := Split(ws[1..]);
      assert rest == [w[1..] + parts[0]] + parts[1..];
      assert Split(ws) == [[ws[0]] + rest[0]] + rest[1..];
      assert rest[1..] == parts[1..];
      assert [w[0]] + (w[1..] + parts[0]) == w + parts[0];
    }
  }

  /** Skipping a run of white space that ends where `s` starts gives `s`. */
  lemma {:induction false} SkipRun(run: string, s: string)
    requires forall i :: 0 <= i < |run| ==> IsSpace(run[i])
    requires s == [] || !IsSpace(s[0])
    ensures SkipSpaces(run + s) == s
  {
    if run == [] {
      assert run + s == s;
    } else {
      assert (run + s)[1..] == run[1..] + s;
      SkipRun(run[1..], s);
    }
  }

  lemma Regroup(a: string, b: string, c: string)
    ensures a + b + c == a + (b + c)
  {
  }

  /** A field followed by a run of white space, of any length, ends there:
      a run of several white-space characters separates fields as a single
      one does, and a leading run (an empty `w`) yields an empty first field. */
  lemma {:induction false} SplitAtRun(w: string, run: string, s: string)
    requires NoSpace(w)
    requires run != [] && forall i :: 0 <= i < |run| ==> IsSpace(run[i])
    requires s == [] || !IsSpace(s[0])
    ensures Split(w + run + s) == [w] + Split(s)
  {
    var tail := run + s;
    var rest := Split(s);
    assert tail != [] && IsSpace(tail[0]) by { assert tail[0] == run[0]; }
    assert SkipSpaces(tail) == s by { SkipRun(run, s); }
    assert Split(tail) == [""] + rest;
    SplitAfterWord(w, tail);
    calc {
      Split(w + run + s);
      { Regroup(w, run, s); }
      Split(w + tail);
      [w + Split(tail)[0]] + Split(tail)[1..];
      { assert Split(tail)[0] == "" && Split(tail)[1..] == rest; }
      [w + ""] + rest;
      { assert w + "" == w; }
      [w] + rest;
    }
  }

  /** Splitting undoes joining with single spaces, for non-empty space-free
      words. */
  lemma {:induction false} SplitUnwords(ws: seq<string>)
    requires |ws| >= 1
    requires forall i :: 0 <= i < |ws| ==> ws[i] != [] && NoSpace(ws[i])
    ensures Split(Unwords(ws)) == ws
  {
    if |ws| == 1 {
      SplitAfterWord(ws[0], "");
      assert ws[0] + "" == ws[0];
      assert Split(ws[0]) == [ws[0]];
    } else {
      var rest := Unwords(ws[1..]);
      SplitUnwords(ws[1..]);
      assert rest[0] == ws[1][0] by { UnwordsStartsWith(ws[1..]); }
      var tail := " " + rest;
      assert SkipSpaces(tail) == rest by { assert tail[1..] == rest; }
      assert Split(tail) == [""] + ws[1..];
      SplitAfterWord(ws[0], tail);
      assert Unwords(ws) == ws[0] + tail;
      assert ws[0] + "" == ws[0];
      assert [ws[0]] + ws[1..] == ws;
    }
  }

  lemma {:induction false} UnwordsStartsWith(ws: seq<string>)
    requires |ws| >= 1 && ws[0] != []
    ensures Unwords(ws) != [] && Unwords(ws)[0] == ws[0][0]
  {
  }
}
