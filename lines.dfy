/** Multi-line text as the debug window builds it, one newline-terminated
    line appended after another, and read back by splitting at newlines. */
module Lines {

  /** True when `s` can be one line: it holds no newline character. */
  predicate NoNewline(s: string)
  {
    forall i :: 0 <= i < |s| ==> s[i] != '\n'
  }

  /** The position of the first newline of `s`, or |s| when there is none. */
  function NewlineIndex(s: string): (i: nat)
    ensures i <= |s|
    ensures i < |s| ==> s[i] == '\n'
    ensures NoNewline(s[..i])
  {
    if s == [] || s[0] == '\n' then 0
    else
      var j := NewlineIndex(s[1..]);
      assert s[..1 + j] == [s[0]] + s[1..][..j];
      1 + j
  }

  /** Splits `s` at its newlines: one entry per newline-terminated line, plus a
      last entry for trailing characters that no newline ends. */
  function SplitLines(s: string): seq<string>
    decreases |s|
  {
    if s == [] then []
    else
      var i := NewlineIndex(s);
      if i == |s| then [s] else [s[..i]] + SplitLines(s[i + 1..])
  }

  /** The first newline of `l + "\n" + rest` is the one that ends `l`. */
  lemma {:induction false} NewlineIndexOfLine(l: string, rest: string)
    requires NoNewline(l)
    ensures NewlineIndex(l + "\n" + rest) == |l|
    decreases |l|
  {
    if l != [] {
      assert (l + "\n" + rest)[1..] == l[1..] + "\n" + rest;
      NewlineIndexOfLine(l[1..], rest);
    }
  }

  /** True when `t` is empty or ends with a newline: a further line starts afresh. */
  predicate AtLineStart(t: string)
  {
    t == [] || t[|t| - 1] == '\n'
  }

  /** A newline inside `t` is found before anything appended to `t`. */
  lemma {:induction false} NewlineIndexAppend(t: string, u: string)
    requires NewlineIndex(t) < |t|
    ensures NewlineIndex(t + u) == NewlineIndex(t)
    decreases |t|
  {
    if t[0] != '\n' {
      assert (t + u)[1..] == t[1..] + u;
      NewlineIndexAppend(t[1..], u);
    }
  }

  /** Appending a newline-terminated line to a text adds exactly that line. */
  lemma {:induction false} SplitAppendLine(t: string, l: string, piece: string)
    requires AtLineStart(t) && NoNewline(l) && piece == l + "\n"
    ensures SplitLines(t + piece) == SplitLines(t) + [l]
    decreases |t|
  {
    if t == [] {
      assert t + piece == l + "\n" + [];
      NewlineIndexOfLine(l, []);
      assert (t + piece)[..|l|] == l;
      assert (t + piece)[|l| + 1..] == [];
    } else {
      var i := NewlineIndex(t);
      NewlineIndexAppend(t, piece);
      assert (t + piece)[..i] == t[..i];
      assert (t + piece)[i + 1..] == t[i + 1..] + piece;
      SplitAppendLine(t[i + 1..], l, piece);
    }
  }

  /** Text without newlines stays without newlines when joined. */
  lemma NoNewlineJoin(a: string, b: string)
    requires NoNewline(a) && NoNewline(b)
    ensures NoNewline(a + b)
  {
    forall i | 0 <= i < |a + b|
      ensures (a + b)[i] != '\n'
    {
      if i < |a| { assert (a + b)[i] == a[i]; } else { assert (a + b)[i] == b[i - |a|]; }
    }
  }

  /** Appending `head + value + ending`, where `ending` is a newline-terminated
      tail, adds the line `head + value` followed by the tail without its newline. */
  lemma AppendLabelledLine(t: string, head: string, value: string, ending: string, tail: string)
    requires AtLineStart(t) && NoNewline(head) && NoNewline(value)
    requires NoNewline(tail) && ending == tail + "\n"
    ensures SplitLines(t + (head + value + ending)) == SplitLines(t) + [head + value + tail]
    ensures AtLineStart(t + (head + value + ending))
  {
    NoNewlineJoin(head, value);
    NoNewlineJoin(head + value, tail);
    assert head + value + ending == (head + value + tail) + "\n";
    SplitAppendLine(t, head + value + tail, head + value + ending);
  }
}
