/** Counting the lines of a text that begin with a marker, and what appending does to the count. */
module LineMarks {

  predicate MarkAt(text: string, marker: string, isBreak: char -> bool, i: nat) {
    && i + |marker| <= |text| && text[i..i + |marker|] == marker
    && (i == 0 || isBreak(text[i - 1]))
  }

  /** Marked lines that begin before position `i`. */
  function MarksBefore(text: string, marker: string, isBreak: char -> bool, i: nat): nat {
    if i == 0 then 0
    else MarksBefore(text, marker, isBreak, i - 1) + (if MarkAt(text, marker, isBreak, i - 1) then 1 else 0)
  }

  function Marks(text: string, marker: string, isBreak: char -> bool): nat {
    MarksBefore(text, marker, isBreak, |text|)
  }

  predicate Unbroken(s: string, isBreak: char -> bool) { forall i :: 0 <= i < |s| ==> !isBreak(s[i]) }

  /** Nothing, or lines that are all ended. */
  predicate Whole(text: string, isBreak: char -> bool) { text == "" || isBreak(text[|text| - 1]) }

  lemma MarkChar(text: string, marker: string, isBreak: char -> bool, i: nat, j: nat)
    requires MarkAt(text, marker, isBreak, i) && i <= j < i + |marker|
    ensures text[j] == marker[j - i]
  {
    assert text[i..i + |marker|][j - i] == text[j];
  }

  /** Appended text changes no mark in front of it. */
  lemma {:induction false} OldMarks(text: string, more: string, marker: string, isBreak: char -> bool, i: nat)
    requires Whole(text, isBreak) && Unbroken(marker, isBreak) && i <= |text|
    ensures MarksBefore(text + more, marker, isBreak, i) == MarksBefore(text, marker, isBreak, i)
  {
    if i > 0 {
      OldMarks(text, more, marker, isBreak, i - 1);
      var t, k := text + more, i - 1;
      if k + |marker| > |text| {
        if MarkAt(t, marker, isBreak, k) {
          MarkChar(t, marker, isBreak, k, |text| - 1);
          assert false;
        }
      } else {
        assert t[k..k + |marker|] == text[k..k + |marker|];
      }
    }
  }

  lemma {:induction false} OneFurther(text: string, line: string, marker: string, isBreak: char -> bool, i: nat)
    requires Whole(text, isBreak) && Unbroken(line, isBreak) && marker <= line && marker != ""
    requires isBreak('\n') && |text| < i <= |text| + |line| + 1
    ensures MarksBefore(text + line + "\n", marker, isBreak, i) == MarksBefore(text, marker, isBreak, |text|) + 1
  {
    var t := text + line + "\n";
    if i == |text| + 1 {
      assert t == text + (line + "\n");
      OldMarks(text, line + "\n", marker, isBreak, |text|);
      assert t[|text|..|text| + |marker|] == line[..|marker|];
    } else {
      OneFurther(text, line, marker, isBreak, i - 1);
      assert t[i - 2] == line[i - 2 - |text|];
    }
  }

  /** Appending a marked line to ended lines adds exactly one mark. */
  lemma AppendAddsOne(text: string, line: string, marker: string, isBreak: char -> bool)
    requires Whole(text, isBreak) && Unbroken(line, isBreak) && marker <= line && marker != "" && isBreak('\n')
    ensures Marks(text + line + "\n", marker, isBreak) == Marks(text, marker, isBreak) + 1
    ensures Whole(text + line + "\n", isBreak)
  {
    OneFurther(text, line, marker, isBreak, |text| + |line| + 1);
  }
}
