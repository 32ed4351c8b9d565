/** Turning a byte offset in the configuration into a line and a column. */
module LineIndex {
  import opened Bytes

  const NEWLINE: byte := 10

  datatype LineCol = LineCol(line: nat, col: nat)

  // ---- The plain count ----

  function Newlines(s: seq<byte>): nat {
    if s == [] then 0 else Newlines(s[..|s| - 1]) + (if s[|s| - 1] == NEWLINE then 1 else 0)
  }

  /** Where the last line begins. */
  function LastStart(s: seq<byte>): (n: nat)
    ensures n <= |s|
  {
    if s == [] then 0 else if s[|s| - 1] == NEWLINE then |s| else LastStart(s[..|s| - 1])
  }

  // ---- The index ----

  /** The pieces between newlines; there is always at least one. */
  function Split(s: seq<byte>): (r: seq<seq<byte>>)
    ensures r != []
  {
    if s == [] then [[]]
    else
      var r := Split(s[1..]);
      if s[0] == NEWLINE then [[]] + r else [[s[0]] + r[0]] + r[1..]
  }

  /** Where the i-th piece begins. */
  function Offset(pieces: seq<seq<byte>>, i: nat): nat
    requires i <= |pieces|
  {
    if i == 0 then 0 else Offset(pieces, i - 1) + |pieces[i - 1]| + 1
  }

  method LineStarts(bytes: seq<byte>) returns (starts: seq<nat>)
    ensures |starts| == |Split(bytes)| + 1
    ensures forall i :: 0 <= i < |starts| ==> starts[i] == Offset(Split(bytes), i)
  {
    var pieces := Split(bytes);
    starts := [0];
    for i := 0 to |pieces|
      invariant |starts| == i + 1
      invariant forall j :: 0 <= j <= i ==> starts[j] == Offset(pieces, j)
    {
      var start := starts[i] + |pieces[i]| + 1;
      assert start == Offset(pieces, i + 1);
      starts := starts + [start];
    }
  }

  // ---- The index agrees with the count ----

  lemma {:induction false} OffsetTail(pieces: seq<seq<byte>>, i: nat)
    requires 0 < i <= |pieces|
    ensures Offset(pieces, i) == |pieces[0]| + 1 + Offset(pieces[1..], i - 1)
  {
    if i > 1 {
      OffsetTail(pieces, i - 1);
    }
  }

  /** One byte more in front moves every later line by one. */
  lemma SplitOffset(s: seq<byte>, i: nat)
    requires s != [] && 0 < i <= |Split(s)|
    ensures s[0] == NEWLINE ==> i - 1 <= |Split(s[1..])| && Offset(Split(s), i) == 1 + Offset(Split(s[1..]), i - 1)
    ensures s[0] != NEWLINE ==> i <= |Split(s[1..])| && Offset(Split(s), i) == 1 + Offset(Split(s[1..]), i)
  {
    var pieces, r := Split(s), Split(s[1..]);
    OffsetTail(pieces, i);
    if s[0] == NEWLINE {
      assert pieces[1..] == r;
    } else {
      assert pieces[1..] == r[1..];
      OffsetTail(r, i);
    }
  }

  lemma {:induction false} CountCons(c: byte, s: seq<byte>)
    ensures Newlines([c] + s) == (if c == NEWLINE then 1 else 0) + Newlines(s)
    ensures LastStart([c] + s) == if Newlines(s) > 0 || c == NEWLINE then 1 + LastStart(s) else 0
    ensures Newlines(s) == 0 ==> LastStart(s) == 0
  {
    var all := [c] + s;
    if s == [] {
      assert all[..|all| - 1] == [];
    } else {
      assert all[..|all| - 1] == [c] + s[..|s| - 1];
      CountCons(c, s[..|s| - 1]);
    }
  }

  /** The piece an offset falls into. */
  lemma {:induction false} PieceOf(bytes: seq<byte>, pos: nat, i: nat)
    requires pos <= |bytes| && i < |Split(bytes)|
    requires Offset(Split(bytes), i) <= pos < Offset(Split(bytes), i + 1)
    ensures Newlines(bytes[..pos]) == i && LastStart(bytes[..pos]) == Offset(Split(bytes), i)
    decreases |bytes|
  {
    if pos > 0 {
      var rest := bytes[1..];
      assert bytes[..pos] == [bytes[0]] + rest[..pos - 1];
      CountCons(bytes[0], rest[..pos - 1]);
      SplitOffset(bytes, i + 1);
      if i > 0 {
        SplitOffset(bytes, i);
      }
      PieceOf(rest, pos - 1, if bytes[0] == NEWLINE then i - 1 else i);
    }
  }

  /** One past the end comes last. */
  lemma {:induction false} LastOffset(bytes: seq<byte>)
    ensures Offset(Split(bytes), |Split(bytes)|) == |bytes| + 1
    ensures |Split(bytes)| == Newlines(bytes) + 1
  {
    if bytes != [] {
      LastOffset(bytes[1..]);
      SplitOffset(bytes, |Split(bytes)|);
      assert bytes == [bytes[0]] + bytes[1..];
      CountCons(bytes[0], bytes[1..]);
    }
  }

  class ConfigFile {
    const bytes: seq<byte>
    const lineStarts: seq<nat>

    ghost predicate Valid() {
      && |lineStarts| == |Split(bytes)| + 1
      && forall i :: 0 <= i < |lineStarts| ==> lineStarts[i] == Offset(Split(bytes), i)
    }

    constructor (bytes: seq<byte>)
      ensures Valid() && this.bytes == bytes
    {
      var starts := LineStarts(bytes);
      this.bytes, lineStarts := bytes, starts;
    }

    /** One more than the newlines before the offset, and than the distance from the last of them.
        An offset past the end counts as on one more line that begins one past the end. */
    method ResolvePos(pos: nat) returns (r: LineCol)
      requires Valid()
      ensures pos <= |bytes| ==> r == LineCol(1 + Newlines(bytes[..pos]), 1 + pos - LastStart(bytes[..pos]))
      ensures pos > |bytes| ==> r == LineCol(2 + Newlines(bytes), pos - |bytes|)
    {
      var idx := |lineStarts| - 1;
      while lineStarts[idx] > pos
        invariant 0 <= idx < |lineStarts|
        invariant idx + 1 < |lineStarts| ==> lineStarts[idx + 1] > pos
      {
        idx := idx - 1;
      }
      LastOffset(bytes);
      if pos <= |bytes| {
        PieceOf(bytes, pos, idx);
      } else if idx + 1 < |lineStarts| {
        Ascending(Split(bytes), idx + 1);
      }
      r := LineCol(idx + 1, pos - lineStarts[idx] + 1);
    }
  }

  lemma {:induction false} Ascending(pieces: seq<seq<byte>>, i: nat)
    requires i <= |pieces|
    ensures Offset(pieces, i) <= Offset(pieces, |pieces|)
    decreases |pieces| - i
  {
    if i < |pieces| {
      Ascending(pieces, i + 1);
    }
  }
}
