/** The preceptor's brain: it reads the day out of the whole conversation on every turn, and re-plans. */
module Preceptor {
  import opened Options
  import opened Text
  import opened Situation
  import opened ToolLoop

  // --- finding `label: {...}` in a text ---------------------------------------------------

  function SkipSpaces(text: string, j: nat): (r: nat)
    requires j <= |text|
    ensures j <= r <= |text| && (r < |text| ==> !IsSpace(text[r]))
    ensures forall k :: j <= k < r ==> IsSpace(text[k])
    decreases |text| - j
  {
    if j < |text| && IsSpace(text[j]) then SkipSpaces(text, j + 1) else j
  }

  /** The first closing brace from `j` on, or the end. */
  function FindBrace(text: string, j: nat): (r: nat)
    requires j <= |text|
    ensures j <= r <= |text| && (r < |text| ==> text[r] == '}')
    ensures forall k :: j <= k < r ==> text[k] != '}'
    decreases |text| - j
  {
    if j < |text| && text[j] != '}' then FindBrace(text, j + 1) else j
  }

  predicate LabelAt(text: string, label_: string, i: nat) {
    i + |label_| <= |text| && text[i..i + |label_|] == label_
  }

  /** Behind the label, from `j` on: a colon, then everything from an opening to the first closing brace. */
  function Tail(text: string, j: nat): Option<string>
    requires j <= |text|
  {
    var colon := SkipSpaces(text, j);
    if colon == |text| || text[colon] != ':' then None else Braced(text, colon + 1)
  }

  function Braced(text: string, j: nat): Option<string>
    requires j <= |text|
  {
    var open := SkipSpaces(text, j);
    if open == |text| || text[open] != '{' then None
    else
      var close := FindBrace(text, open + 1);
      if close == |text| then None else Some(text[open..close + 1])
  }

  function BlockAt(text: string, label_: string, i: nat): Option<string> {
    if LabelAt(text, label_, i) then Tail(text, i + |label_|) else None
  }

  /** The leftmost match from position `i` on. */
  function FindFrom(text: string, label_: string, i: nat): Option<string>
    requires i <= |text|
    decreases |text| - i
  {
    if i == |text| then BlockAt(text, label_, i)
    else if BlockAt(text, label_, i).Some? then BlockAt(text, label_, i)
    else FindFrom(text, label_, i + 1)
  }

  function FindBlock(text: string, label_: string): Option<string> { FindFrom(text, label_, 0) }

  predicate NoBrace(s: string) { forall k :: 0 <= k < |s| ==> s[k] != '}' }

  // --- what a match is ----------------------------------------------------------------------

  /** An opening brace and everything up to the first closing one. */
  predicate IsBraced(b: string) { |b| >= 2 && b[0] == '{' && b[|b| - 1] == '}' && NoBrace(b[..|b| - 1]) }

  /** `x` is `y` behind white space, if any. */
  ghost predicate Spaced(x: string, y: string) { exists s :: AllSpace(s) && x == s + y }

  ghost predicate BracedIn(x: string, b: string) { IsBraced(b) && exists rest :: Spaced(x, b + rest) }

  ghost predicate TailIn(x: string, b: string) { exists y :: Spaced(x, ":" + y) && BracedIn(y, b) }

  /** The text is `pre`, the label, a colon, the block and more, with white space around the colon, if any. */
  ghost predicate Labelled(text: string, label_: string, pre: string, b: string) {
    exists x :: text == pre + (label_ + x) && TailIn(x, b)
  }

  lemma {:induction false} SpacesSkipped(text: string, s: string, rest: string, j: nat)
    requires j <= |text| && text[j..] == s + rest && AllSpace(s) && (rest == "" || !IsSpace(rest[0]))
    ensures SkipSpaces(text, j) == j + |s| && text[j + |s|..] == rest
    decreases |s|
  {
    assert text[j + |s|..] == text[j..][|s|..] == rest;
    if s != "" {
      assert text[j] == text[j..][0] == s[0];
      assert text[j + 1..] == s[1..] + rest;
      SpacesSkipped(text, s[1..], rest, j + 1);
    } else if rest != "" {
      assert text[j] == text[j..][0] == rest[0];
    }
  }

  lemma BlockEnds(text: string, open: nat, b: string, rest: string)
    requires open <= |text| && text[open..] == b + rest && IsBraced(b)
    ensures FindBrace(text, open + 1) == open + |b| - 1 && text[open] == '{' && text[open..open + |b|] == b
  {
    var close := open + |b| - 1;
    forall k | 0 <= k < |b| ensures text[open + k] == b[k] { assert text[open..][k] == text[open + k]; }
    assert text[open..open + |b|] == b;
    forall k | open + 1 <= k < close ensures text[k] != '}' {
      assert text[open + (k - open)] == b[k - open] == b[..|b| - 1][k - open];
    }
    assert text[close] == '}';
  }

  lemma SliceIsBraced(text: string, open: nat)
    requires open < |text| && text[open] == '{' && FindBrace(text, open + 1) < |text|
    ensures var b := text[open..FindBrace(text, open + 1) + 1];
            IsBraced(b) && text[open..] == b + text[open + |b|..]
  {
    var close := FindBrace(text, open + 1);
    var b := text[open..close + 1];
    forall k | 0 <= k < |b| - 1 ensures b[k] != '}' { assert b[k] == text[open + k]; }
    assert b[..|b| - 1] == text[open..close];
  }

  lemma SpacesRead(text: string, j: nat)
    requires j <= |text|
    ensures Spaced(text[j..], text[SkipSpaces(text, j)..])
  {
    var k := SkipSpaces(text, j);
    assert AllSpace(text[j..k]) && text[j..] == text[j..k] + text[k..];
  }

  lemma BracedReads(text: string, j: nat, b: string)
    requires j <= |text| && Braced(text, j) == Some(b)
    ensures BracedIn(text[j..], b)
  {
    SpacesRead(text, j);
    SliceIsBraced(text, SkipSpaces(text, j));
  }

  lemma BracedHas(text: string, j: nat, s: string, b: string, rest: string)
    requires j <= |text| && AllSpace(s) && text[j..] == s + (b + rest) && IsBraced(b)
    ensures Braced(text, j) == Some(b)
  {
    SpacesSkipped(text, s, b + rest, j);
    BlockEnds(text, j + |s|, b, rest);
  }

  lemma TailBehind(text: string, j: nat)
    requires j <= |text| && Tail(text, j).Some?
    ensures var colon := SkipSpaces(text, j);
            j <= colon < |text| && text[colon] == ':' && Tail(text, j) == Braced(text, colon + 1)
  {}

  lemma SpacedColon(text: string, j: nat)
    requires j <= |text| && SkipSpaces(text, j) < |text| && text[SkipSpaces(text, j)] == ':'
    ensures Spaced(text[j..], ":" + text[SkipSpaces(text, j) + 1..])
  {
    var colon := SkipSpaces(text, j);
    SpacesRead(text, j);
    assert text[colon..] == ":" + text[colon + 1..];
  }

  lemma TailReads(text: string, j: nat, b: string)
    requires j <= |text| && Tail(text, j) == Some(b)
    ensures TailIn(text[j..], b)
  {
    TailBehind(text, j);
    var colon := SkipSpaces(text, j);
    BracedReads(text, colon + 1, b);
    SpacedColon(text, j);
    ColonIn(text[j..], text[colon + 1..], b);
  }

  lemma ColonIn(x: string, y: string, b: string)
    requires Spaced(x, ":" + y) && BracedIn(y, b)
    ensures TailIn(x, b)
  {}

  lemma TailHas(text: string, j: nat, s: string, y: string, b: string)
    requires j <= |text| && AllSpace(s) && text[j..] == s + (":" + y) && BracedIn(y, b)
    ensures Tail(text, j) == Some(b)
  {
    SpacesSkipped(text, s, ":" + y, j);
    var colon := j + |s|;
    assert text[colon] == text[colon..][0] == ':';
    assert text[colon + 1..] == text[colon..][1..] == y;
    var rest :| Spaced(y, b + rest);
    var t :| AllSpace(t) && y == t + (b + rest);
    BracedHas(text, colon + 1, t, b, rest);
  }

  lemma LabelSplits(text: string, label_: string, pre: string)
    requires pre <= text
    ensures LabelAt(text, label_, |pre|) ==> text == pre + (label_ + text[|pre| + |label_|..])
    ensures forall x :: text == pre + (label_ + x) ==> LabelAt(text, label_, |pre|) && text[|pre| + |label_|..] == x
  {}

  /** A block is found at `|pre|` exactly if the text reads so. */
  lemma BlockAtIff(text: string, label_: string, pre: string, b: string)
    requires pre <= text
    ensures BlockAt(text, label_, |pre|) == Some(b) <==> Labelled(text, label_, pre, b)
  {
    LabelSplits(text, label_, pre);
    var j := |pre| + |label_|;
    if BlockAt(text, label_, |pre|) == Some(b) {
      TailReads(text, j, b);
    }
    if Labelled(text, label_, pre, b) {
      var x :| text == pre + (label_ + x) && TailIn(x, b);
      var y :| Spaced(x, ":" + y) && BracedIn(y, b);
      var s :| AllSpace(s) && x == s + (":" + y);
      TailHas(text, j, s, y, b);
    }
  }

  lemma {:induction false} FirstFrom(text: string, label_: string, i: nat)
    requires i <= |text|
    ensures FindFrom(text, label_, i).None? ==> NoneUpTo(text, label_, i, |text| + 1)
    ensures FindFrom(text, label_, i).Some? ==>
              exists n :: i <= n <= |text| && BlockAt(text, label_, n) == FindFrom(text, label_, i)
                          && NoneUpTo(text, label_, i, n)
    decreases |text| - i
  {
    if BlockAt(text, label_, i).Some? {
      assert NoneUpTo(text, label_, i, i);
    } else if i < |text| {
      FirstFrom(text, label_, i + 1);
      forall n | NoneUpTo(text, label_, i + 1, n) ensures NoneUpTo(text, label_, i, n) {}
    }
  }

  ghost predicate NoneUpTo(text: string, label_: string, i: nat, n: nat) {
    forall k :: i <= k < n ==> BlockAt(text, label_, k).None?
  }

  lemma NoneLabelled(text: string, label_: string, n: nat, pre: string, b: string)
    requires NoneUpTo(text, label_, 0, n) && Labelled(text, label_, pre, b)
    ensures n <= |pre| <= |text|
  {
    BlockAtIff(text, label_, pre, b);
  }

  /** `b` stands behind the label, and no other block stands earlier. */
  ghost predicate StandsFirst(text: string, label_: string, pre: string, b: string) {
    Labelled(text, label_, pre, b) && forall p, c :: Labelled(text, label_, p, c) ==> |pre| <= |p|
  }

  lemma FirstIsFirst(text: string, label_: string, n: nat, b: string)
    requires n <= |text| && BlockAt(text, label_, n) == Some(b) && NoneUpTo(text, label_, 0, n)
    ensures StandsFirst(text, label_, text[..n], b)
  {
    BlockAtIff(text, label_, text[..n], b);
    forall p, c | Labelled(text, label_, p, c) ensures n <= |p| { NoneLabelled(text, label_, n, p, c); }
  }

  /** Nothing is found exactly if there is no block behind the label; what is found is the first of them. */
  lemma FindBlockIs(text: string, label_: string)
    ensures match FindBlock(text, label_)
            case None => forall pre, b :: !Labelled(text, label_, pre, b)
            case Some(b) => exists pre :: StandsFirst(text, label_, pre, b)
  {
    FirstFrom(text, label_, 0);
    match FindBlock(text, label_)
    case None =>
      forall pre, b ensures !Labelled(text, label_, pre, b) {
        if Labelled(text, label_, pre, b) { NoneLabelled(text, label_, |text| + 1, pre, b); }
      }
    case Some(b) =>
      var n: nat :| n <= |text| && BlockAt(text, label_, n) == Some(b) && NoneUpTo(text, label_, 0, n);
      FirstIsFirst(text, label_, n, b);
  }

  // --- text behind the last brace does not matter -------------------------------------------

  lemma {:induction false} SameSpaces(text: string, more: string, j: nat)
    requires j <= |text| && SkipSpaces(text, j) < |text|
    ensures SkipSpaces(text + more, j) == SkipSpaces(text, j)
    decreases |text| - j
  {
    if IsSpace(text[j]) { SameSpaces(text, more, j + 1); }
  }

  lemma {:induction false} SameBrace(text: string, more: string, j: nat)
    requires j <= |text| && FindBrace(text, j) < |text|
    ensures FindBrace(text + more, j) == FindBrace(text, j)
    decreases |text| - j
  {
    if text[j] != '}' { SameBrace(text, more, j + 1); }
  }

  lemma {:induction false} PrefixSpaces(text: string, more: string, j: nat)
    requires j <= |text| && SkipSpaces(text + more, j) < |text|
    ensures SkipSpaces(text, j) == SkipSpaces(text + more, j)
    decreases |text| - j
  {
    if j < |text| && IsSpace(text[j]) { PrefixSpaces(text, more, j + 1); }
  }

  lemma {:induction false} PrefixBrace(text: string, more: string, j: nat)
    requires j <= |text| && FindBrace(text + more, j) < |text|
    ensures FindBrace(text, j) == FindBrace(text + more, j)
    decreases |text| - j
  {
    if j < |text| && text[j] != '}' { PrefixBrace(text, more, j + 1); }
  }

  lemma BracedStays(text: string, more: string, j: nat)
    requires j <= |text| && Braced(text, j).Some?
    ensures Braced(text + more, j) == Braced(text, j)
  {
    var open := SkipSpaces(text, j);
    var close := FindBrace(text, open + 1);
    SameSpaces(text, more, j);
    SameBrace(text, more, open + 1);
    assert text[open..close + 1] == (text + more)[open..close + 1];
  }

  /** A match needs a closing brace, so it lies wholly in front of brace-less text. */
  lemma BracedInFront(text: string, more: string, j: nat)
    requires NoBrace(more) && j <= |text + more| && Braced(text + more, j).Some?
    ensures j <= |text| && Braced(text, j) == Braced(text + more, j)
  {
    var t := text + more;
    var open := SkipSpaces(t, j);
    var close := FindBrace(t, open + 1);
    assert close < |text|;
    PrefixSpaces(text, more, j);
    PrefixBrace(text, more, open + 1);
    assert text[open..close + 1] == t[open..close + 1];
  }

  lemma TailStays(text: string, more: string, j: nat)
    requires j <= |text| && Tail(text, j).Some?
    ensures Tail(text + more, j) == Tail(text, j)
  {
    SameSpaces(text, more, j);
    BracedStays(text, more, SkipSpaces(text, j) + 1);
  }

  lemma MatchStays(text: string, more: string, label_: string, i: nat)
    requires BlockAt(text, label_, i).Some?
    ensures BlockAt(text + more, label_, i) == BlockAt(text, label_, i)
  {
    var j := i + |label_|;
    assert (text + more)[i..j] == text[i..j];
    TailStays(text, more, j);
  }

  lemma TailFrom(text: string, j: nat, colon: nat)
    requires j <= |text| && colon < |text| && SkipSpaces(text, j) == colon && text[colon] == ':'
    ensures Tail(text, j) == Braced(text, colon + 1)
  {}

  lemma TailInFront(text: string, more: string, j: nat)
    requires NoBrace(more) && j <= |text + more| && Tail(text + more, j).Some?
    ensures j <= |text| && Tail(text, j) == Tail(text + more, j)
  {
    TailBehind(text + more, j);
    var colon := SkipSpaces(text + more, j);
    BracedInFront(text, more, colon + 1);
    PrefixSpaces(text, more, j);
    assert text[colon] == (text + more)[colon];
    TailFrom(text, j, colon);
  }

  lemma MatchEndsInFront(text: string, more: string, label_: string, i: nat)
    requires NoBrace(more) && BlockAt(text + more, label_, i).Some?
    ensures i <= |text| && BlockAt(text, label_, i) == BlockAt(text + more, label_, i)
  {
    var j := i + |label_|;
    TailInFront(text, more, j);
    assert (text + more)[i..j] == text[i..j];
  }

  lemma {:induction false} FindStays(text: string, more: string, label_: string, i: nat)
    requires NoBrace(more) && i <= |text|
    ensures FindFrom(text + more, label_, i) == FindFrom(text, label_, i)
    decreases |text| - i
  {
    var t := text + more;
    if BlockAt(text, label_, i).Some? {
      MatchStays(text, more, label_, i);
    } else {
      if BlockAt(t, label_, i).Some? { MatchEndsInFront(text, more, label_, i); }
      if i < |text| { FindStays(text, more, label_, i + 1); } else { NothingBehind(text, more, label_, i); }
    }
  }

  lemma {:induction false} NothingBehind(text: string, more: string, label_: string, i: nat)
    requires NoBrace(more) && |text| <= i <= |text + more| && BlockAt(text, label_, |text|).None?
    ensures FindFrom(text + more, label_, i).None?
    decreases |text + more| - i
  {
    if BlockAt(text + more, label_, i).Some? { MatchEndsInFront(text, more, label_, i); }
    if i < |text + more| { NothingBehind(text, more, label_, i + 1); }
  }

  /** Appending text without a closing brace changes no block that is found. */
  lemma FindBlockStable(text: string, more: string, label_: string)
    requires NoBrace(more)
    ensures FindBlock(text + more, label_) == FindBlock(text, label_)
  {
    FindStays(text, more, label_, 0);
  }
}
