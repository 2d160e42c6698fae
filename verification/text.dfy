/** Strings as the source uses them: trimming, substring tests, joining. */
module Text {

  /** The characters `String.prototype.trim` removes (white space and line terminators). */
  predicate IsSpace(c: char) {
    || '\t' <= c <= '\r' || c == ' ' || c == '\U{00A0}' || c == '\U{1680}' || '\U{2000}' <= c <= '\U{200A}'
    || c == '\U{2028}' || c == '\U{2029}' || c == '\U{202F}' || c == '\U{205F}' || c == '\U{3000}' || c == '\U{FEFF}'
  }

  function TrimStart(s: string): string {
    if s != [] && IsSpace(s[0]) then TrimStart(s[1..]) else s
  }

  function TrimEnd(s: string): string {
    if s != [] && IsSpace(s[|s| - 1]) then TrimEnd(s[..|s| - 1]) else s
  }

  function Trim(s: string): string {
    TrimEnd(TrimStart(s))
  }

  lemma {:induction false} TrimStartStops(s: string)
    ensures TrimStart(s) == [] || !IsSpace(TrimStart(s)[0])
  {
    if s != [] && IsSpace(s[0]) { TrimStartStops(s[1..]); }
  }

  lemma {:induction false} TrimEndStops(s: string)
    ensures TrimEnd(s) == [] || !IsSpace(TrimEnd(s)[|TrimEnd(s)| - 1])
    ensures TrimEnd(s) <= s
  {
    if s != [] && IsSpace(s[|s| - 1]) { TrimEndStops(s[..|s| - 1]); }
  }

  /** Trimming twice is trimming once: a stored, trimmed text is a fixed point. */
  lemma TrimIdempotent(s: string)
    ensures Trim(Trim(s)) == Trim(s)
  {
    var a := TrimStart(s);
    var b := TrimEnd(a);
    TrimStartStops(s);
    TrimEndStops(a);
    if b != [] {
      assert b[0] == a[0];
      assert TrimStart(b) == b;
      assert TrimEnd(b) == b;
    }
  }

  predicate AllSpace(s: string) { forall i :: 0 <= i < |s| ==> IsSpace(s[i]) }

  lemma {:induction false} TrimStartCuts(s: string)
    ensures exists a :: AllSpace(a) && s == a + TrimStart(s)
  {
    if s != [] && IsSpace(s[0]) {
      TrimStartCuts(s[1..]);
      var a :| AllSpace(a) && s[1..] == a + TrimStart(s[1..]);
      assert s == ([s[0]] + a) + TrimStart(s);
      assert AllSpace([s[0]] + a);
    } else {
      assert s == [] + TrimStart(s);
      assert AllSpace([]);
    }
  }

  lemma {:induction false} TrimEndCuts(s: string)
    ensures exists b :: AllSpace(b) && s == TrimEnd(s) + b
  {
    if s != [] && IsSpace(s[|s| - 1]) {
      TrimEndCuts(s[..|s| - 1]);
      var b :| AllSpace(b) && s[..|s| - 1] == TrimEnd(s[..|s| - 1]) + b;
      assert s == TrimEnd(s) + (b + [s[|s| - 1]]);
      assert AllSpace(b + [s[|s| - 1]]);
    } else {
      assert s == TrimEnd(s) + [];
      assert AllSpace([]);
    }
  }

  /** What is left begins and ends with no space, and only spaces were cut off around it. */
  ghost predicate IsTrimmed(s: string, t: string) {
    && (t == "" || (!IsSpace(t[0]) && !IsSpace(t[|t| - 1])))
    && exists a, b :: AllSpace(a) && AllSpace(b) && s == a + t + b
  }

  lemma TrimCuts(s: string)
    ensures IsTrimmed(s, Trim(s))
  {
    var a, t := TrimStart(s), Trim(s);
    TrimStartStops(s);
    TrimEndStops(a);
    TrimStartCuts(s);
    TrimEndCuts(a);
    var x :| AllSpace(x) && s == x + a;
    var y :| AllSpace(y) && a == t + y;
    assert s == x + t + y;
    if t != "" { assert t[0] == a[0]; }
  }

  /** And only one text is like that. */
  lemma TrimIs(s: string, t: string)
    requires IsTrimmed(s, t)
    ensures t == Trim(s)
  {
    TrimCuts(s);
    var u := Trim(s);
    var a, b :| AllSpace(a) && AllSpace(b) && s == a + t + b;
    var c, d :| AllSpace(c) && AllSpace(d) && s == c + u + d;
    if t == "" {
      AllSpaceOnly(s, a, b, c, u, d);
    } else if u == "" {
      AllSpaceOnly(s, c, d, a, t, b);
    } else {
      SameFront(s, a, t, b, c, u, d);
      SameFront(s, c, u, d, a, t, b);
      SameBack(s, a, t, b, c, u, d);
      SameBack(s, c, u, d, a, t, b);
      assert s[|a|..|s| - |b|] == t && s[|c|..|s| - |d|] == u;
    }
  }

  lemma AllSpaceOnly(s: string, a: string, b: string, c: string, u: string, d: string)
    requires AllSpace(a) && AllSpace(b) && s == a + "" + b && s == c + u + d && (u == "" || !IsSpace(u[0]))
    ensures u == ""
  {
    assert s == a + b && AllSpace(s);
    assert u == s[|c|..|c| + |u|];
  }

  lemma SameFront(s: string, a: string, t: string, b: string, c: string, u: string, d: string)
    requires s == a + t + b && s == c + u + d && AllSpace(a) && u != "" && !IsSpace(u[0])
    ensures |a| <= |c|
  {
    assert s[|c|] == u[0];
  }

  lemma SameBack(s: string, a: string, t: string, b: string, c: string, u: string, d: string)
    requires s == a + t + b && s == c + u + d && AllSpace(b) && u != "" && !IsSpace(u[|u| - 1])
    ensures |b| <= |d|
  {
    assert s[|s| - |d| - 1] == u[|u| - 1];
  }

  /** `text.includes(part)`. */
  predicate Includes(text: string, part: string) {
    exists i :: 0 <= i <= |text| - |part| && OccursAt(text, part, i)
  }

  predicate OccursAt(text: string, part: string, i: nat) {
    i + |part| <= |text| && text[i..i + |part|] == part
  }

  /** An occurrence survives anything appended behind it. */
  lemma IncludesPrefix(text: string, more: string, part: string)
    requires Includes(text, part)
    ensures Includes(text + more, part)
  {
    var i :| 0 <= i <= |text| - |part| && OccursAt(text, part, i);
    assert (text + more)[i..i + |part|] == text[i..i + |part|];
    assert OccursAt(text + more, part, i);
  }

  /** A text includes a part exactly if it is made of something, the part, and something. */
  lemma IncludesMeans(text: string, part: string)
    ensures Includes(text, part) <==> exists a, b :: text == a + part + b
  {
    if Includes(text, part) {
      var i :| 0 <= i <= |text| - |part| && OccursAt(text, part, i);
      assert text == text[..i] + part + text[i + |part|..];
    }
    if a, b :| text == a + part + b {
      assert OccursAt(text, part, |a|);
    }
  }
}
