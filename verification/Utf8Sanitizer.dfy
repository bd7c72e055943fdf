/**
 * Replacing 4-byte and malformed UTF-8 sequences by U+FFFD, byte by byte over a stream that is
 * wound back after an error.
 */
module Utf8Sanitizer {
  type Byte = b: int | 0 <= b < 256

  const SUBSTITUTION: seq<Byte> := [0xEF, 0xBF, 0xBD]

  // ----- the grammar -----

  predicate Tail(b: Byte) { 0x80 <= b <= 0xBF }

  /** UTF8-octets of RFC 3629, section 4. */
  predicate WellFormed(q: seq<Byte>) {
    || (|q| == 1 && q[0] <= 0x7F)
    || (|q| == 2 && 0xC2 <= q[0] <= 0xDF && Tail(q[1]))
    || (|q| == 3 && q[0] == 0xE0 && 0xA0 <= q[1] <= 0xBF && Tail(q[2]))
    || (|q| == 3 && 0xE1 <= q[0] <= 0xEC && Tail(q[1]) && Tail(q[2]))
    || (|q| == 3 && q[0] == 0xED && 0x80 <= q[1] <= 0x9F && Tail(q[2]))
    || (|q| == 3 && 0xEE <= q[0] <= 0xEF && Tail(q[1]) && Tail(q[2]))
    || (|q| == 4 && q[0] == 0xF0 && 0x90 <= q[1] <= 0xBF && Tail(q[2]) && Tail(q[3]))
    || (|q| == 4 && 0xF1 <= q[0] <= 0xF3 && Tail(q[1]) && Tail(q[2]) && Tail(q[3]))
    || (|q| == 4 && q[0] == 0xF4 && 0x80 <= q[1] <= 0x8F && Tail(q[2]) && Tail(q[3]))
  }

  /** An encoded surrogate, which the RFC forbids and the code lets through. */
  predicate Surrogate(q: seq<Byte>) { |q| == 3 && q[0] == 0xED && 0xA0 <= q[1] <= 0xBF && Tail(q[2]) }

  predicate Accepted(q: seq<Byte>) { WellFormed(q) || Surrogate(q) }

  /** The only length an accepted sequence with this first byte can have. */
  function LengthByLead(lead: Byte): nat {
    if lead <= 0x7F then 1 else if lead < 0xC2 then 0 else if lead <= 0xDF then 2
    else if lead <= 0xEF then 3 else if lead <= 0xF4 then 4 else 0
  }

  /** The length of the accepted sequence that s begins with, or 0. */
  function AcceptedLength(s: seq<Byte>): (n: nat)
    ensures n <= |s| && n <= 4 && (n > 0 ==> Accepted(s[..n]))
    ensures forall k | 0 <= k <= |s| && Accepted(s[..k]) :: k == n
  {
    if s != [] && LengthByLead(s[0]) <= |s| && Accepted(s[..LengthByLead(s[0])]) then LengthByLead(s[0]) else 0
  }

  /** s is not yet an accepted sequence, but more bytes could make it one. */
  ghost predicate Incomplete(s: seq<Byte>) { s != [] && exists t: seq<Byte> :: t != [] && Accepted(s + t) }

  predicate GoodSecond(first: Byte, second: Byte) {
    Tail(second) && (first == 0xE0 ==> second >= 0xA0) && (first == 0xF0 ==> second >= 0x90)
        && (first == 0xF4 ==> second < 0x90)
  }

  /** Incomplete, as a test on the bytes. */
  predicate CutShort(s: seq<Byte>) {
    || (|s| == 1 && 0xC2 <= s[0] <= 0xF4)
    || (|s| == 2 && 0xE0 <= s[0] <= 0xF4 && GoodSecond(s[0], s[1]))
    || (|s| == 3 && 0xF0 <= s[0] <= 0xF4 && GoodSecond(s[0], s[1]) && Tail(s[2]))
  }

  lemma CutShortIff(s: seq<Byte>)
    ensures CutShort(s) <==> Incomplete(s)
  {
    if CutShort(s) {
      var second: Byte := if s[0] == 0xE0 then 0xA0 else if s[0] == 0xF0 then 0x90 else 0x80;
      var t: seq<Byte> :=
        if |s| == 1 then
          (if s[0] <= 0xDF then [0x80] else if s[0] <= 0xEF then [second, 0x80] else [second, 0x80, 0x80])
        else if |s| == 2 then (if s[0] <= 0xEF then [0x80] else [0x80, 0x80])
        else [0x80];
      assert Accepted(s + t);
    }
    if Incomplete(s) {
      var t: seq<Byte> :| t != [] && Accepted(s + t);
      assert forall i | 0 <= i < |s| :: (s + t)[i] == s[i];
      assert |s + t| <= 4;
    }
  }

  // ----- what sanitizing means -----

  /** What a sequence is replaced by. */
  function Shown(q: seq<Byte>): seq<Byte> { if |q| <= 3 then q else SUBSTITUTION }

  /**
   * What the front of s becomes and how many bytes that takes: an accepted sequence is shown, any
   * other byte is replaced alone, and an incomplete sequence at the very end is replaced as one.
   */
  function Front(s: seq<Byte>, final: bool): (r: (seq<Byte>, nat))
    requires s != []
    ensures 1 <= r.1 <= |s|
  {
    var n := AcceptedLength(s);
    if n > 0 then (Shown(s[..n]), n)
    else (SUBSTITUTION, if final && CutShort(s) then |s| else 1)
  }

  /** final: the text ends here, rather than going on with a byte that starts anew. */
  function Sanitized(s: seq<Byte>, final: bool): seq<Byte>
    decreases |s|
  {
    if s == [] then [] else Front(s, final).0 + Sanitized(s[Front(s, final).1..], final)
  }

  /** Text made of accepted sequences of at most 3 bytes. */
  predicate Clean(s: seq<Byte>)
    decreases |s|
  {
    s == [] || (1 <= AcceptedLength(s) <= 3 && Clean(s[AcceptedLength(s)..]))
  }

  /** Only the first bytes decide how long an accepted sequence is. */
  lemma AcceptedLengthOf(q: seq<Byte>, r: seq<Byte>)
    requires Accepted(q)
    ensures AcceptedLength(q + r) == |q| && (q + r)[..|q|] == q && (q + r)[|q|..] == r
  {
    assert forall n | 1 <= n <= |q| :: (q + r)[..n] == q[..n];
    assert q[..|q|] == q;
  }

  lemma CleanMore(q: seq<Byte>, rest: seq<Byte>)
    requires Accepted(q) && |q| <= 3 && Clean(rest)
    ensures Clean(q + rest)
  {
    AcceptedLengthOf(q, rest);
  }

  lemma CleanParts(s: seq<Byte>) returns (q: seq<Byte>, rest: seq<Byte>)
    requires Clean(s) && s != []
    ensures s == q + rest && Accepted(q) && |q| <= 3 && Clean(rest) && |rest| < |s|
  {
    q, rest := s[..AcceptedLength(s)], s[AcceptedLength(s)..];
  }

  lemma ShownClean(q: seq<Byte>, rest: seq<Byte>)
    requires (Accepted(q) || q == SUBSTITUTION) && Clean(rest)
    ensures Clean(Shown(q) + rest)
  {
    assert Accepted(SUBSTITUTION);
    CleanMore(Shown(q), rest);
  }

  /** The output is always clean. */
  lemma {:induction false} OutputClean(s: seq<Byte>, final: bool)
    ensures Clean(Sanitized(s, final))
    decreases |s|
  {
    if s != [] {
      var (out, n) := Front(s, final);
      OutputClean(s[n..], final);
      ShownClean(if AcceptedLength(s) > 0 then s[..n] else SUBSTITUTION, Sanitized(s[n..], final));
    }
  }

  lemma {:induction false} CleanUnchanged(s: seq<Byte>, final: bool)
    requires Clean(s)
    ensures Sanitized(s, final) == s
    decreases |s|
  {
    if s != [] {
      var q, rest := CleanParts(s);
      CleanUnchanged(rest, final);
      FrontOf(q, rest, final);
    }
  }

  lemma FrontOf(q: seq<Byte>, rest: seq<Byte>, final: bool)
    requires Accepted(q)
    ensures q + rest != [] && Sanitized(q + rest, final) == Shown(q) + Sanitized(rest, final)
  {
    AcceptedLengthOf(q, rest);
  }

  /** Text passes unchanged exactly if it is clean: a 4-byte or malformed sequence always shows. */
  lemma {:induction false} UnchangedIffClean(s: seq<Byte>, final: bool)
    ensures Sanitized(s, final) == s <==> Clean(s)
  {
    if Clean(s) {
      CleanUnchanged(s, final);
    } else {
      OutputClean(s, final);
    }
  }

  lemma {:induction false} Idempotent(s: seq<Byte>, final: bool)
    ensures Sanitized(Sanitized(s, final), final) == Sanitized(s, final)
  {
    OutputClean(s, final);
    UnchangedIffClean(Sanitized(s, final), final);
  }

  // ----- code points -----

  type CodePoint = c: nat | c <= 0x10FFFF

  /** The encoding of a code point, surrogates included. */
  function Encode(c: CodePoint): (q: seq<Byte>) {
    if c < 0x80 then [c]
    else if c < 0x800 then [0xC0 + c / 0x40, 0x80 + c % 0x40]
    else if c < 0x1_0000 then [0xE0 + c / 0x1000, 0x80 + c / 0x40 % 0x40, 0x80 + c % 0x40]
    else [0xF0 + c / 0x4_0000, 0x80 + c / 0x1000 % 0x40, 0x80 + c / 0x40 % 0x40, 0x80 + c % 0x40]
  }

  /** The low 6 bits a tail byte carries. */
  function Bits(b: Byte): int { b - 0x80 }

  function Decode(q: seq<Byte>): int
    requires 1 <= |q| <= 4
  {
    if |q| == 1 then q[0]
    else if |q| == 2 then (q[0] - 0xC0) * 0x40 + Bits(q[1])
    else if |q| == 3 then (q[0] - 0xE0) * 0x1000 + Bits(q[1]) * 0x40 + Bits(q[2])
    else (q[0] - 0xF0) * 0x4_0000 + Bits(q[1]) * 0x1000 + Bits(q[2]) * 0x40 + Bits(q[3])
  }

  /** Three bytes hold exactly the code points from 0x800 up to 0xFFFF. */
  lemma ThreeBytes(q: seq<Byte>)
    requires Accepted(q) && |q| == 3
    ensures 0x800 <= Decode(q) < 0x1_0000 && Encode(Decode(q)) == q
  {
    var c := Decode(q);
    assert c / 0x1000 == q[0] - 0xE0 && c / 0x40 == (q[0] - 0xE0) * 0x40 + Bits(q[1]);
  }

  /** Four bytes hold exactly those beyond. */
  lemma FourBytes(q: seq<Byte>)
    requires Accepted(q) && |q| == 4
    ensures 0x1_0000 <= Decode(q) <= 0x10_FFFF && Encode(Decode(q)) == q
  {
    var c := Decode(q);
    assert c / 0x4_0000 == q[0] - 0xF0 && c / 0x1000 == (q[0] - 0xF0) * 0x40 + Bits(q[1]);
    assert c / 0x40 == (q[0] - 0xF0) * 0x1000 + Bits(q[1]) * 0x40 + Bits(q[2]);
  }

  lemma EncodeAccepted(c: CodePoint)
    ensures Accepted(Encode(c))
  {
  }

  /** The accepted sequences are the encodings of the code points. */
  lemma AcceptedIff(q: seq<Byte>)
    ensures Accepted(q) <==> exists c: CodePoint :: q == Encode(c)
  {
    if Accepted(q) {
      if |q| == 3 {
        ThreeBytes(q);
      } else if |q| == 4 {
        FourBytes(q);
      }
      assert q == Encode(Decode(q));
    }
    if c: CodePoint :| q == Encode(c) {
      EncodeAccepted(c);
    }
  }

  // ----- no accepted sequence is ever lost -----

  /** An accepted sequence never begins with a tail byte, so nothing before it can swallow it. */
  lemma FrontStops(p: seq<Byte>, x: seq<Byte>, final: bool)
    requires p != [] && x != [] && !Tail(x[0])
    ensures Front(p + x, final) == Front(p, false)
  {
    var s := p + x;
    assert forall i | 0 <= i < |p| :: s[i] == p[i];
    assert s[|p|] == x[0];
    forall n | 1 <= n <= 4 && n <= |s|
      ensures n <= |p| ==> s[..n] == p[..n]
      ensures n > |p| ==> !Accepted(s[..n])
    {
      if n > |p| {
        assert s[..n][|p|] == x[0];
      }
    }
    assert AcceptedLength(s) == AcceptedLength(p);
    assert AcceptedLength(s) == 0 ==> !CutShort(s) by {
      assert |s| <= 3 ==> |p| < 3;
    }
  }

  /** The front of p is sanitized the same whether x follows or not. */
  lemma SplitFront(p: seq<Byte>, x: seq<Byte>, final: bool) returns (out: seq<Byte>, rest: seq<Byte>)
    requires p != [] && x != [] && !Tail(x[0])
    ensures |rest| < |p|
    ensures Sanitized(p + x, final) == out + Sanitized(rest + x, final)
    ensures Sanitized(p, false) == out + Sanitized(rest, false)
  {
    FrontStops(p, x, final);
    var front := Front(p, false);
    out, rest := front.0, p[front.1..];
    assert (p + x)[front.1..] == rest + x;
  }

  lemma JoinAssociates(a: seq<Byte>, b: seq<Byte>, c: seq<Byte>)
    ensures a + (b + c) == a + b + c
  {
  }

  lemma {:induction false} SplitAt(p: seq<Byte>, x: seq<Byte>, final: bool)
    requires x != [] && !Tail(x[0])
    ensures Sanitized(p + x, final) == Sanitized(p, false) + Sanitized(x, final)
    decreases |p|
  {
    if p == [] {
      assert p + x == x;
    } else {
      var out, rest := SplitFront(p, x, final);
      SplitAt(rest, x, final);
      JoinAssociates(out, Sanitized(rest, false), Sanitized(x, final));
    }
  }

  /** Wherever an accepted sequence stands, whatever rubbish precedes it, it is shown in its place. */
  lemma NothingLost(p: seq<Byte>, q: seq<Byte>, r: seq<Byte>, final: bool)
    requires Accepted(q)
    ensures Sanitized(p + q + r, final) == Sanitized(p, false) + Shown(q) + Sanitized(r, final)
  {
    assert p + q + r == p + (q + r);
    SplitAt(p, q + r, final);
    FrontOf(q, r, final);
  }

  /**
   * Wherever it stands, a code point of the basic plane stays as it is, and one beyond comes out as
   * U+FFFD, which is EF BF BD.
   */
  lemma CodePointShown(p: seq<Byte>, c: CodePoint, r: seq<Byte>, final: bool)
    ensures Sanitized(p + Encode(c) + r, final)
         == Sanitized(p, false) + (if c < 0x1_0000 then Encode(c) else [0xEF, 0xBF, 0xBD]) + Sanitized(r, final)
  {
    EncodeAccepted(c);
    NothingLost(p, Encode(c), r, final);
  }

  /** A byte that starts no accepted sequence comes out as U+FFFD, and reading goes on right after it. */
  lemma MalformedShown(s: seq<Byte>, final: bool)
    requires s != [] && (forall n | 0 <= n <= |s| :: !Accepted(s[..n])) && !(final && Incomplete(s))
    ensures Sanitized(s, final) == [0xEF, 0xBF, 0xBD] + Sanitized(s[1..], final)
  {
    CutShortIff(s);
  }

  /** A sequence that the end of the text cuts short comes out as one U+FFFD, however many bytes are there. */
  lemma CutShortShown(s: seq<Byte>)
    requires Incomplete(s)
    ensures Sanitized(s, true) == [0xEF, 0xBF, 0xBD]
  {
    CutShortIff(s);
    assert AcceptedLength(s) == 0;
    assert Sanitized(s, true) == SUBSTITUTION + Sanitized(s[|s|..], true);
  }

  predicate Ascii(s: seq<Byte>) { forall i | 0 <= i < |s| :: s[i] < 0x80 }

  /** The short cut for plain text changes nothing. */
  lemma {:induction false} AsciiClean(s: seq<Byte>)
    requires Ascii(s)
    ensures Clean(s)
    decreases |s|
  {
    if s != [] {
      AsciiClean(s[1..]);
    }
  }

  // ----- the code -----

  class ByteStream {
    const data: seq<Byte>
    var position: nat

    constructor (data: seq<Byte>)
      ensures this.data == data && position == 0
    {
      this.data, position := data, 0;
    }

    predicate Valid()
      reads this
    {
      position <= |data|
    }

    function Rest(): seq<Byte>
      requires Valid()
      reads this
    {
      data[position..]
    }

    /** One byte, or -1 at the end. */
    method Read() returns (unit: int)
      requires Valid()
      modifies this
      ensures Valid()
      ensures if old(position) == |data| then unit == -1 && position == old(position)
              else unit == data[old(position)] && position == old(position) + 1
    {
      if position == |data| {
        return -1;
      }
      unit := data[position];
      position := position + 1;
    }

    method SeekBack(n: nat)
      requires n <= position
      modifies this
      ensures position == old(position) - n
    {
      position := position - n;
    }
  }

  /** The outcome of reading one sequence: how many bytes to wind back, if any. */
  datatype Outcome = Sequence(bytes: seq<Byte>) | SequenceError(back: nat) | EndOfFile

  /** unit & 0xC0 */
  function HighBits(unit: int): int { unit / 0x40 * 0x40 }

  /** Reads the units of one sequence, stopping at the first that does not fit. */
  method ReadUnits(stream: ByteStream) returns (outcome: Outcome, any: bool)
    requires stream.Valid()
    modifies stream
    ensures stream.Valid() && old(stream.position) <= stream.position
    ensures any <==> old(stream.position) < stream.position
    ensures any <==> old(stream.Rest()) != []
    ensures !any ==> outcome == EndOfFile && stream.position == old(stream.position)
    ensures any ==>
      var s, n := old(stream.Rest()), stream.position - old(stream.position);
      match outcome
      case Sequence(bytes) => AcceptedLength(s) == n && bytes == s[..n]
      case SequenceError(back) => AcceptedLength(s) == 0 && !CutShort(s) && back == n - 1
      case EndOfFile => AcceptedLength(s) == 0 && CutShort(s) && n == |s|
  {
    ghost var s := stream.Rest();
    var unit1 := stream.Read();
    any := unit1 != -1;
    if !any {
      return EndOfFile, any;
    }
    if unit1 < 0x80 {
      return Sequence([unit1]), any;
    } else if unit1 < 0xC2 {
      return SequenceError(0), any;
    } else if unit1 < 0xE0 {
      var unit2 := stream.Read();
      if unit2 == -1 {
        return EndOfFile, any;
      }
      if HighBits(unit2) != 0x80 {
        return SequenceError(1), any;
      }
      return Sequence([unit1, unit2]), any;
    } else if unit1 < 0xF0 {
      var unit2 := stream.Read();
      if unit2 == -1 {
        return EndOfFile, any;
      }
      if HighBits(unit2) != 0x80 {
        return SequenceError(1), any;
      }
      if unit1 == 0xE0 && unit2 < 0xA0 {
        return SequenceError(1), any;
      }
      var unit3 := stream.Read();
      if unit3 == -1 {
        return EndOfFile, any;
      }
      if HighBits(unit3) != 0x80 {
        return SequenceError(2), any;
      }
      return Sequence([unit1, unit2, unit3]), any;
    } else if unit1 < 0xF5 {
      var unit2 := stream.Read();
      if unit2 == -1 {
        return EndOfFile, any;
      }
      if HighBits(unit2) != 0x80 {
        return SequenceError(1), any;
      }
      if unit1 == 0xF0 && unit2 < 0x90 {
        return SequenceError(1), any;
      }
      if unit1 == 0xF4 && unit2 >= 0x90 {
        return SequenceError(1), any;
      }
      var unit3 := stream.Read();
      if unit3 == -1 {
        return EndOfFile, any;
      }
      if HighBits(unit3) != 0x80 {
        return SequenceError(2), any;
      }
      var unit4 := stream.Read();
      if unit4 == -1 {
        return EndOfFile, any;
      }
      if HighBits(unit4) != 0x80 {
        return SequenceError(3), any;
      }
      return Sequence([unit1, unit2, unit3, unit4]), any;
    } else {
      return SequenceError(0), any;
    }
  }

  /** The next sequence, the substitution for a malformed or incomplete one, or nothing at the end. */
  method ReadSequenceFromUtf8(stream: ByteStream) returns (sequence: seq<Byte>)
    requires stream.Valid()
    modifies stream
    ensures stream.Valid()
    ensures old(stream.Rest()) == [] ==> sequence == [] && stream.Rest() == []
    ensures old(stream.Rest()) != [] ==>
      var s := old(stream.Rest());
      && sequence != [] && Shown(sequence) == Front(s, true).0
      && stream.position == old(stream.position) + Front(s, true).1
  {
    var outcome, any := ReadUnits(stream);
    match outcome
    case Sequence(bytes) =>
      return bytes;
    case SequenceError(back) =>
      stream.SeekBack(back);
      return SUBSTITUTION;
    case EndOfFile =>
      return if any then SUBSTITUTION else [];
  }

  /** left is what is still to come out of the stream. */
  ghost predicate StillToCome(stream: ByteStream, left: seq<Byte>)
    reads stream
  {
    stream.Valid() && left == Sanitized(stream.Rest(), true)
  }

  /** One turn of the sequence generator: the next piece of the output, or nothing at the end. */
  method NextSequence(stream: ByteStream, ghost left: seq<Byte>) returns (piece: seq<Byte>, ghost left': seq<Byte>)
    requires StillToCome(stream, left)
    modifies stream
    ensures StillToCome(stream, left') && left == piece + left'
    ensures if piece == [] then left' == [] else stream.position > old(stream.position)
  {
    ghost var rest := stream.Rest();
    var sequence := ReadSequenceFromUtf8(stream);
    if rest != [] {
      assert stream.Rest() == rest[Front(rest, true).1..];
    }
    left' := Sanitized(stream.Rest(), true);
    return if |sequence| <= 3 then sequence else SUBSTITUTION, left';
  }

  /** Joins all pieces. */
  method JoinSequences(stream: ByteStream, ghost all: seq<Byte>) returns (clean: seq<Byte>)
    requires StillToCome(stream, all)
    modifies stream
    ensures clean == all
  {
    ghost var left := all;
    clean := [];
    while true
      invariant StillToCome(stream, left) && clean + left == all
      decreases |stream.data| - stream.position
    {
      var piece;
      piece, left := NextSequence(stream, left);
      assert clean + (piece + left) == clean + piece + left;
      if piece == [] {
        break;
      }
      clean := clean + piece;
    }
  }

  /** Sanitizes encoded text; plain ASCII is handed back at once. */
  method Sanitize4ByteUnicode(text: seq<Byte>) returns (clean: seq<Byte>)
    ensures clean == Sanitized(text, true)
  {
    if forall c | c in text :: c < 128 {
      assert forall i | 0 <= i < |text| :: text[i] in text;
      AsciiClean(text);
      UnchangedIffClean(text, true);
      return text;
    }
    var stream := new ByteStream(text);
    assert text[0..] == text;
    clean := JoinSequences(stream, Sanitized(text, true));
  }
}
