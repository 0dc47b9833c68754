/**
  Go strings and byte slices. A Go `string` is an immutable sequence of
  bytes, so both `string` and `[]byte` are modelled as `GoString`, and the
  conversions `[]byte(s)` and `string(b)` are the identity.
  `Join` is the standard library's `strings.Join`.
*/
module GoText {

  newtype byte = b: int | 0 <= b < 256

  type GoString = seq<byte>

  /** The bytes of an ASCII source-code literal (its UTF-8 encoding is one byte per character). */
  function Lit(s: string): GoString
    requires forall i :: 0 <= i < |s| ==> s[i] as int < 128
  {
    seq(|s|, i requires 0 <= i < |s| => s[i] as int as byte)
  }

  /**
    `strings.Join(elems, sep)`: no elements give the empty string, one
    element gives that element, more give the elements with `sep` between
    each neighbouring pair.
  */
  function Join(parts: seq<GoString>, sep: GoString): (r: GoString)
    ensures |parts| == 0 ==> r == []
    ensures |parts| > 0 ==> |parts[0]| <= |r| && r[..|parts[0]|] == parts[0]
  {
    if |parts| == 0 then []
    else if |parts| == 1 then parts[0]
    else parts[0] + sep + Join(parts[1..], sep)
  }

  /** Concatenation of a sequence of strings, in order. */
  function Concat(pieces: seq<GoString>): GoString
  {
    if |pieces| == 0 then [] else pieces[0] + Concat(pieces[1..])
  }

  /** Sum of the lengths of the parts. */
  function TotalLength(parts: seq<GoString>): nat
  {
    if |parts| == 0 then 0 else |parts[0]| + TotalLength(parts[1..])
  }

  /**
    An independent, position-based description of a joined list: the
    pieces at even positions are the parts, in order, and the pieces at the
    odd positions between them are the separator, one fewer than the parts.
  */
  function Interleave(parts: seq<GoString>, sep: GoString): (r: seq<GoString>)
    requires |parts| > 0
    ensures |r| == 2 * |parts| - 1
  {
    seq(2 * |parts| - 1, i requires 0 <= i < 2 * |parts| - 1 => if i % 2 == 0 then parts[i / 2] else sep)
  }

  lemma InterleaveCons(parts: seq<GoString>, sep: GoString)
    requires |parts| >= 2
    ensures Interleave(parts, sep) == [parts[0], sep] + Interleave(parts[1..], sep)
  {
  }

  /** Joining is concatenating the interleaving of the parts with the separator. */
  lemma {:induction false} JoinIsConcatOfInterleave(parts: seq<GoString>, sep: GoString)
    requires |parts| > 0
    ensures Join(parts, sep) == Concat(Interleave(parts, sep))
  {
    if |parts| == 1 {
      assert Interleave(parts, sep) == [parts[0]];
      assert Concat([parts[0]]) == parts[0] + Concat([]);
    } else {
      var rest := Interleave(parts[1..], sep);
      InterleaveCons(parts, sep);
      JoinIsConcatOfInterleave(parts[1..], sep);
      var whole := [parts[0], sep] + rest;
      assert whole[1..] == [sep] + rest;
      assert ([sep] + rest)[1..] == rest;
      calc {
        Concat(whole);
        parts[0] + Concat([sep] + rest);
        parts[0] + (sep + Concat(rest));
        parts[0] + sep + Join(parts[1..], sep);
      }
    }
  }

  /**
    The length of a join of n > 0 parts is the parts' total length plus
    n - 1 separators.
  */
  lemma {:induction false} JoinLength(parts: seq<GoString>, sep: GoString)
    requires |parts| > 0
    ensures |Join(parts, sep)| == TotalLength(parts) + (|parts| - 1) * |sep|
  {
    if |parts| > 1 {
      JoinLength(parts[1..], sep);
      assert (|parts| - 1) * |sep| == (|parts| - 2) * |sep| + |sep|;
    }
  }

  /** Appending a part to a non-empty list appends the separator and the part to its join. */
  lemma {:induction false} JoinAppend(parts: seq<GoString>, p: GoString, sep: GoString)
    requires |parts| > 0
    ensures Join(parts + [p], sep) == Join(parts, sep) + sep + p
  {
    if |parts| == 1 {
      assert (parts + [p])[1..] == [p];
    } else {
      assert (parts + [p])[1..] == parts[1..] + [p];
      JoinAppend(parts[1..], p, sep);
    }
  }
}
