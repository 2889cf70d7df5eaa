/** Streaming detokenisation over a byte-level vocabulary: text is UTF-8 decoded with replacement, and a
    character that is still incomplete is held back. */
module Detokenizer {

  type Byte = b: int | 0 <= b < 256

  /** A Unicode code point. */
  type Char = nat

  const REPLACEMENT: Char := 0xFFFD

  // ---------------------------------------------------------------- UTF-8, sections 3 and 4 of RFC 3629

  predicate Scalar(c: Char)
  {
    c <= 0x10FFFF && !(0xD800 <= c <= 0xDFFF)
  }

  function Encode(c: Char): seq<Byte>
    requires Scalar(c)
  {
    if c < 0x80 then [c]
    else if c < 0x800 then [0xC0 + c / 64, 0x80 + c % 64]
    else if c < 0x10000 then [0xE0 + c / 4096, 0x80 + c / 64 % 64, 0x80 + c % 64]
    else [0xF0 + c / 262144, 0x80 + c / 4096 % 64, 0x80 + c / 64 % 64, 0x80 + c % 64]
  }

  /** How many bytes follow a lead byte; none for a byte that cannot start a character. */
  function Follow(b: Byte): nat
  {
    if 0xC2 <= b <= 0xDF then 1
    else if 0xE0 <= b <= 0xEF then 2
    else if 0xF0 <= b <= 0xF4 then 3
    else 0
  }

  predicate Tail(b: Byte)
  {
    0x80 <= b <= 0xBF
  }

  /** The second byte's range is narrower after E0, ED, F0 and F4: no overlong forms, no surrogates, nothing
      past U+10FFFF. */
  predicate Second(lead: Byte, b: Byte)
  {
    Tail(b) && (lead == 0xE0 ==> b >= 0xA0) && (lead == 0xED ==> b <= 0x9F)
    && (lead == 0xF0 ==> b >= 0x90) && (lead == 0xF4 ==> b <= 0x8F)
  }

  function Two(a: int, b: int): int
  {
    64 * (a - 0xC0) + (b - 0x80)
  }

  function Three(a: int, b: int, d: int): int
  {
    4096 * (a - 0xE0) + 64 * (b - 0x80) + (d - 0x80)
  }

  function Four(a: int, b: int, d: int, e: int): int
  {
    262144 * (a - 0xF0) + 4096 * (b - 0x80) + 64 * (d - 0x80) + (e - 0x80)
  }

  datatype Piece = Piece(size: nat, code: Char)

  /** The first character of `bs` and the bytes it takes. An ill-formed sequence yields one U+FFFD for its
      longest prefix that could have begun a character, as section 3.9 of the Unicode Standard recommends. */
  function Take(bs: seq<Byte>): (r: Piece)
    requires bs != []
    ensures 1 <= r.size <= |bs|
  {
    var n := Follow(bs[0]);
    if bs[0] < 0x80 then Piece(1, bs[0])
    else if n == 0 || |bs| < 2 || !Second(bs[0], bs[1]) then Piece(1, REPLACEMENT)
    else if n == 1 then Piece(2, Two(bs[0], bs[1]))
    else if |bs| < 3 || !Tail(bs[2]) then Piece(2, REPLACEMENT)
    else if n == 2 then Piece(3, Three(bs[0], bs[1], bs[2]))
    else if |bs| < 4 || !Tail(bs[3]) then Piece(3, REPLACEMENT)
    else Piece(4, Four(bs[0], bs[1], bs[2], bs[3]))
  }

  function Decode(bs: seq<Byte>): seq<Char>
  {
    if bs == [] then [] else [Take(bs).code] + Decode(bs[Take(bs).size..])
  }

  function EncodeAll(cs: seq<Char>): seq<Byte>
    requires forall i :: 0 <= i < |cs| ==> Scalar(cs[i])
  {
    if cs == [] then [] else Encode(cs[0]) + EncodeAll(cs[1..])
  }

  // ---------------------------------------------------------------- decoding undoes encoding

  lemma ThreeParts(c: int)
    requires 0 <= c
    ensures c == 4096 * (c / 4096) + 64 * (c / 64 % 64) + c % 64
  {
    assert c / 64 / 64 == c / 4096;
  }

  lemma FourParts(c: int)
    requires 0 <= c
    ensures c == 262144 * (c / 262144) + 4096 * (c / 4096 % 64) + 64 * (c / 64 % 64) + c % 64
  {
    ThreeParts(c);
    assert c / 4096 / 64 == c / 262144;
  }

  lemma TakeEncoded(c: Char, rest: seq<Byte>)
    requires Scalar(c)
    ensures Take(Encode(c) + rest) == Piece(|Encode(c)|, c)
  {
    var bs := Encode(c) + rest;
    if c < 0x80 {
    } else if c < 0x800 {
      assert bs[0] == 0xC0 + c / 64 && bs[1] == 0x80 + c % 64;
    } else if c < 0x10000 {
      ThreeParts(c);
      assert bs[0] == 0xE0 + c / 4096 && bs[1] == 0x80 + c / 64 % 64 && bs[2] == 0x80 + c % 64;
    } else {
      FourParts(c);
      assert bs[0] == 0xF0 + c / 262144 && bs[1] == 0x80 + c / 4096 % 64 && bs[2] == 0x80 + c / 64 % 64 && bs[3] == 0x80 + c % 64;
    }
  }

  /** Every text survives being encoded and decoded. */
  lemma {:induction false} DecodeEncode(cs: seq<Char>)
    requires forall i :: 0 <= i < |cs| ==> Scalar(cs[i])
    ensures Decode(EncodeAll(cs)) == cs
  {
    if cs != [] {
      var rest := EncodeAll(cs[1..]);
      TakeEncoded(cs[0], rest);
      assert (Encode(cs[0]) + rest)[|Encode(cs[0])|..] == rest;
      DecodeEncode(cs[1..]);
    }
  }

  lemma TwoSound(a: Byte, b: Byte)
    requires Follow(a) == 1 && Second(a, b)
    ensures Two(a, b) >= 0 && Scalar(Two(a, b)) && Encode(Two(a, b)) == [a, b]
  {
  }

  lemma ThreeSound(a: Byte, b: Byte, d: Byte)
    requires Follow(a) == 2 && Second(a, b) && Tail(d)
    ensures Three(a, b, d) >= 0 && Scalar(Three(a, b, d)) && Encode(Three(a, b, d)) == [a, b, d]
  {
    var c := Three(a, b, d);
    assert c / 4096 == a - 0xE0 && c / 64 == 64 * (a - 0xE0) + (b - 0x80);
  }

  lemma FourSound(a: Byte, b: Byte, d: Byte, e: Byte)
    requires Follow(a) == 3 && Second(a, b) && Tail(d) && Tail(e)
    ensures Four(a, b, d, e) >= 0 && Scalar(Four(a, b, d, e)) && Encode(Four(a, b, d, e)) == [a, b, d, e]
  {
    var c := Four(a, b, d, e);
    assert c / 262144 == a - 0xF0 && c / 4096 == 64 * (a - 0xF0) + (b - 0x80);
    assert c / 64 == 4096 * (a - 0xF0) + 64 * (b - 0x80) + (d - 0x80);
  }

  /** A character other than U+FFFD is read only from its own, shortest encoding. */
  lemma TakeSound(bs: seq<Byte>)
    requires bs != [] && Take(bs).code != REPLACEMENT
    ensures Scalar(Take(bs).code) && bs[..Take(bs).size] == Encode(Take(bs).code)
  {
    var n := Follow(bs[0]);
    if bs[0] >= 0x80 {
      if n == 1 {
        TwoSound(bs[0], bs[1]);
      } else if n == 2 {
        ThreeSound(bs[0], bs[1], bs[2]);
      } else {
        FourSound(bs[0], bs[1], bs[2], bs[3]);
      }
    }
  }

  // ---------------------------------------------------------------- the order of encodings

  /** The first byte in which they differ is smaller in `p`. */
  ghost predicate Before(p: seq<Byte>, q: seq<Byte>, k: nat)
  {
    k < |p| && k < |q| && p[..k] == q[..k] && p[k] < q[k]
  }

  lemma TwoOrder(c: Char, d: Char) returns (k: nat)
    requires 0x80 <= c < d < 0x800
    ensures Before(Encode(c), Encode(d), k)
  {
    k := if c / 64 < d / 64 then 0 else 1;
  }

  lemma ThreeOrder(c: Char, d: Char) returns (k: nat)
    requires 0x800 <= c < d < 0x10000 && Scalar(c) && Scalar(d)
    ensures Before(Encode(c), Encode(d), k)
  {
    ThreeParts(c);
    ThreeParts(d);
    k := if c / 4096 < d / 4096 then 0 else if c / 64 % 64 < d / 64 % 64 then 1 else 2;
  }

  lemma FourOrder(c: Char, d: Char) returns (k: nat)
    requires 0x10000 <= c < d && Scalar(c) && Scalar(d)
    ensures Before(Encode(c), Encode(d), k)
  {
    FourParts(c);
    FourParts(d);
    k := if c / 262144 < d / 262144 then 0 else if c / 4096 % 64 < d / 4096 % 64 then 1
         else if c / 64 % 64 < d / 64 % 64 then 2 else 3;
  }

  /** Encoding keeps the order: bytes compare as the characters they stand for (section 1 of RFC 3629). */
  lemma EncodeOrder(c: Char, d: Char) returns (k: nat)
    requires Scalar(c) && Scalar(d) && c < d
    ensures Before(Encode(c), Encode(d), k)
  {
    if 0x80 <= c && d < 0x800 {
      k := TwoOrder(c, d);
    } else if 0x800 <= c && d < 0x10000 {
      k := ThreeOrder(c, d);
    } else if 0x10000 <= c {
      k := FourOrder(c, d);
    } else {
      k := 0;
    }
  }

  // ---------------------------------------------------------------- decoding in terms of encoding alone

  ghost predicate StartsWith(bs: seq<Byte>, p: seq<Byte>)
  {
    |p| <= |bs| && bs[..|p|] == p
  }

  /** `p` could be the beginning of a character. */
  ghost predicate Begins(p: seq<Byte>)
  {
    exists c: Char {:trigger Scalar(c)} :: Scalar(c) && StartsWith(Encode(c), p)
  }

  lemma EncodeShape(c: Char)
    requires Scalar(c)
    ensures var e := Encode(c);
            && 1 <= |e| <= 4 && (|e| == 1 ==> e[0] < 0x80) && (|e| > 1 ==> e[0] >= 0x80 && Follow(e[0]) == |e| - 1 && Second(e[0], e[1]))
            && (|e| > 2 ==> Tail(e[2])) && (|e| > 3 ==> Tail(e[3]))
  {
    if c >= 0x10000 { assert c / 262144 <= 4; } else if c >= 0x800 { assert c / 4096 <= 15; } else if c >= 0x80 { assert c / 64 <= 31; }
  }

  /** The bytes of a character seen from a text that shares its first `k`. */
  lemma SharedShape(bs: seq<Byte>, c: Char, k: nat)
    requires Scalar(c) && k <= |bs| && StartsWith(Encode(c), bs[..k]) && k > 0
    ensures k == 1 || (Follow(bs[0]) == |Encode(c)| - 1 && bs[0] >= 0x80 && Second(bs[0], bs[1]))
    ensures (k > 2 ==> Tail(bs[2])) && (k > 3 ==> Tail(bs[3])) && k <= |Encode(c)| <= 4
    ensures |Encode(c)| == 1 ==> bs[0] < 0x80
    ensures |Encode(c)| > 1 ==> Follow(bs[0]) == |Encode(c)| - 1
  {
    EncodeShape(c);
    var e := Encode(c);
    assert forall i :: 0 <= i < k ==> e[i] == bs[..k][i] == bs[i];
  }

  lemma BeginsShape(bs: seq<Byte>, k: nat)
    requires 1 < k <= |bs| && Begins(bs[..k])
    ensures k <= Follow(bs[0]) + 1 && bs[0] >= 0x80 && Second(bs[0], bs[1]) && (k > 2 ==> Tail(bs[2])) && (k > 3 ==> Tail(bs[3]))
  {
    var c :| Scalar(c) && StartsWith(Encode(c), bs[..k]);
    SharedShape(bs, c, k);
  }

  /** A lead byte with some of the bytes it calls for can be completed. */
  lemma CanBegin(bs: seq<Byte>, n: nat)
    requires 2 <= n <= 3 && n <= |bs| && Follow(bs[0]) >= n && Second(bs[0], bs[1]) && (n == 3 ==> Tail(bs[2]))
    ensures Begins(bs[..n])
  {
    var a, b := bs[0], bs[1];
    if Follow(a) == 2 {
      ThreeSound(a, b, 0x80);
      assert bs[..2] == [a, b] == [a, b, 0x80][..2];
      assert Scalar(Three(a, b, 0x80));
    } else {
      var d: Byte := if n == 3 then bs[2] else 0x80;
      FourSound(a, b, d, 0x80);
      assert bs[..n] == [a, b, d, 0x80][..n];
      assert Scalar(Four(a, b, d, 0x80));
    }
  }

  /** The first `n` bytes are the longest beginning of a character, or a single byte that begins none. */
  ghost predicate LongestBeginning(bs: seq<Byte>, n: nat)
  {
    1 <= n <= |bs| && (n == 1 || Begins(bs[..n])) && forall k {:trigger bs[..k]} :: n < k <= |bs| ==> !Begins(bs[..k])
  }

  ghost predicate WellFormed(bs: seq<Byte>)
  {
    exists c: Char {:trigger Scalar(c)} :: Scalar(c) && StartsWith(bs, Encode(c))
  }

  lemma IllFormed(bs: seq<Byte>)
    requires bs != [] && bs[0] >= 0x80 && Take(bs).code == REPLACEMENT && !StartsWith(bs, Encode(REPLACEMENT))
    ensures !WellFormed(bs) && LongestBeginning(bs, Take(bs).size)
  {
    var n := Take(bs).size;
    TooShort(bs);
    if n > 1 { CanBegin(bs, n); }
    forall k | n < k <= |bs| ensures !Begins(bs[..k]) {
      if Begins(bs[..k]) { BeginsShape(bs, k); }
    }
    if WellFormed(bs) {
      var c :| Scalar(c) && StartsWith(bs, Encode(c));
      TakeEncodedHere(bs, c);
    }
  }

  lemma TakeEncodedHere(bs: seq<Byte>, c: Char)
    requires Scalar(c) && StartsWith(bs, Encode(c))
    ensures Take(bs) == Piece(|Encode(c)|, c)
  {
    assert bs == Encode(c) + bs[|Encode(c)|..];
    TakeEncoded(c, bs[|Encode(c)|..]);
  }

  /** A replacement not read from its own encoding stands for bytes that run out or go wrong. */
  lemma TooShort(bs: seq<Byte>)
    requires bs != [] && bs[0] >= 0x80 && Take(bs).code == REPLACEMENT && !StartsWith(bs, Encode(REPLACEMENT))
    ensures var n := Take(bs).size;
            && n <= 3 && (n == 1 ==> Follow(bs[0]) == 0 || |bs| < 2 || !Second(bs[0], bs[1]))
            && (n > 1 ==> Follow(bs[0]) >= n && Second(bs[0], bs[1]) && (|bs| == n || !Tail(bs[n])))
            && (n == 3 ==> Tail(bs[2]))
  {
    hide Encode, StartsWith;
    var n := Follow(bs[0]);
    if n == 2 && |bs| >= 3 && Second(bs[0], bs[1]) && Tail(bs[2]) {
      NotReplacement(bs);
    }
  }

  lemma NotReplacement(bs: seq<Byte>)
    requires |bs| >= 3 && Follow(bs[0]) == 2 && Second(bs[0], bs[1]) && Tail(bs[2]) && !StartsWith(bs, Encode(REPLACEMENT))
    ensures Three(bs[0], bs[1], bs[2]) != REPLACEMENT
  {
    ThreeSound(bs[0], bs[1], bs[2]);
    assert bs[..3] == [bs[0], bs[1], bs[2]];
    hide Encode;
  }

  /** What the decoder reads first, said with `Encode` alone: a character that stands there encoded, or else one
      U+FFFD for the longest beginning of a character, or for a single byte that begins none. */
  lemma TakeExact(bs: seq<Byte>)
    requires bs != []
    ensures forall c: Char {:trigger Scalar(c)} :: Scalar(c) && StartsWith(bs, Encode(c)) ==> Take(bs) == Piece(|Encode(c)|, c)
    ensures !WellFormed(bs) ==> Take(bs).code == REPLACEMENT && LongestBeginning(bs, Take(bs).size)
  {
    forall c: Char | Scalar(c) && StartsWith(bs, Encode(c)) ensures Take(bs) == Piece(|Encode(c)|, c) {
      TakeEncodedHere(bs, c);
    }
    Proper(bs);
    if !WellFormed(bs) { IllFormed(bs); }
  }

  lemma Proper(bs: seq<Byte>)
    requires bs != []
    ensures Take(bs).code != REPLACEMENT || StartsWith(bs, Encode(REPLACEMENT)) ==> WellFormed(bs)
    ensures Take(bs).code == REPLACEMENT ==> bs[0] >= 0x80
  {
    assert Scalar(REPLACEMENT);
    if Take(bs).code != REPLACEMENT {
      TakeSound(bs);
      assert Scalar(Take(bs).code) && StartsWith(bs, Encode(Take(bs).code));
    }
  }

  // ---------------------------------------------------------------- cutting a text in two

  /** Text that may be released: empty, or not ending in U+FFFD. */
  predicate Clean(text: seq<Char>)
  {
    text == [] || text[|text| - 1] != REPLACEMENT
  }

  /** What stands first is decided by the bytes at hand, unless they run out in the middle of it. */
  lemma TakeStable(u: seq<Byte>, v: seq<Byte>)
    requires u != [] && (Take(u).size < |u| || Take(u).code != REPLACEMENT)
    ensures Take(u + v) == Take(u)
  {
  }

  /** If the first part decodes to clean text, decoding the whole is decoding the parts. */
  lemma {:induction false} DecodeSplit(u: seq<Byte>, v: seq<Byte>)
    requires Clean(Decode(u))
    ensures Decode(u + v) == Decode(u) + Decode(v)
    decreases |u|
  {
    if u == [] {
      assert u + v == v;
    } else {
      hide *;
      DecodeOnce(u);
      LastPiece(Take(u).code, u[Take(u).size..]);
      DecodeFirst(u, v);
      DecodeSplit(u[Take(u).size..], v);
    }
  }

  /** What stands first in the first part stands first in the whole. */
  lemma DecodeFirst(u: seq<Byte>, v: seq<Byte>)
    requires u != [] && (Take(u).size < |u| || Take(u).code != REPLACEMENT)
    ensures Decode(u + v) == [Take(u).code] + Decode(u[Take(u).size..] + v)
  {
    TakeStable(u, v);
    DecodeOnce(u + v);
    hide Take, Decode;
    assert (u + v)[Take(u).size..] == u[Take(u).size..] + v;
  }

  lemma DecodeOnce(u: seq<Byte>)
    requires u != []
    ensures Decode(u) == [Take(u).code] + Decode(u[Take(u).size..])
  {
    hide Take;
  }

  lemma LastPiece(c: Char, rest: seq<Byte>)
    requires Clean([c] + Decode(rest))
    ensures Clean(Decode(rest)) && (rest == [] ==> c != REPLACEMENT)
  {
    if rest == [] { assert ([c] + Decode(rest))[0] == c; }
  }

  // ---------------------------------------------------------------- tokens

  type Vocabulary = int -> seq<Byte>

  function Bytes(tok: Vocabulary, ids: seq<int>): seq<Byte>
  {
    if ids == [] then [] else Bytes(tok, ids[..|ids| - 1]) + tok(ids[|ids| - 1])
  }

  /** The plain, whole-sequence decode. */
  function Text(tok: Vocabulary, ids: seq<int>): seq<Char>
  {
    Decode(Bytes(tok, ids))
  }

  lemma {:induction false} BytesSplit(tok: Vocabulary, xs: seq<int>, ys: seq<int>)
    ensures Bytes(tok, xs + ys) == Bytes(tok, xs) + Bytes(tok, ys)
  {
    if ys == [] {
      assert xs + ys == xs;
    } else {
      var n := |ys| - 1;
      assert (xs + ys)[..|xs| + n] == xs + ys[..n];
      BytesSplit(tok, xs, ys[..n]);
    }
  }

  /** After tokens whose text is clean, the rest decodes on its own. */
  lemma TextSplit(tok: Vocabulary, xs: seq<int>, ys: seq<int>)
    requires Clean(Text(tok, xs))
    ensures Text(tok, xs + ys) == Text(tok, xs) + Text(tok, ys)
  {
    BytesSplit(tok, xs, ys);
    DecodeSplit(Bytes(tok, xs), Bytes(tok, ys));
  }

  lemma ThreeRuns(tok: Vocabulary, xs: seq<int>, ys: seq<int>, zs: seq<int>)
    requires Clean(Text(tok, xs)) && Clean(Text(tok, xs + ys))
    ensures Text(tok, ys + zs) == Text(tok, ys) + Text(tok, zs)
    ensures Text(tok, xs + ys + zs) == Text(tok, xs + ys) + Text(tok, zs)
  {
    hide Text;
    TextSplit(tok, xs, ys);
    TextSplit(tok, xs, ys + zs);
    TextSplit(tok, xs + ys, zs);
    assert xs + (ys + zs) == xs + ys + zs;
    Uncons(Text(tok, xs), Text(tok, ys + zs), Text(tok, ys) + Text(tok, zs));
  }

  /** The window re-decoded at each push shows the released text's tail and then the new text. */
  lemma Window(tok: Vocabulary, ids: seq<int>, start: nat, read: nat)
    requires start <= read <= |ids| && Clean(Text(tok, ids[..start])) && Clean(Text(tok, ids[..read]))
    ensures Text(tok, ids[start..]) == Text(tok, ids[start..read]) + Text(tok, ids[read..])
    ensures Text(tok, ids) == Text(tok, ids[..read]) + Text(tok, ids[read..])
  {
    hide Text, Clean;
    var xs, ys, zs := ids[..start], ids[start..read], ids[read..];
    assert xs + ys == ids[..read] && ys + zs == ids[start..] && xs + ys + zs == ids;
    ThreeRuns(tok, xs, ys, zs);
  }

  lemma Uncons(a: seq<Char>, b: seq<Char>, d: seq<Char>)
    requires a + b == a + d
    ensures b == d
  {
    assert (a + b)[|a|..] == b && (a + d)[|a|..] == d;
  }

  // ---------------------------------------------------------------- the detokenizer

  class IncrementalDetokenizer {
    const tok: Vocabulary
    var ids: seq<int>
    var start: nat   // start of the window that is decoded again
    var read: nat    // ids before this have been released as text

    ghost predicate Valid()
      reads this
    {
      start <= read <= |ids| && Clean(Text(tok, ids[..start])) && Clean(Text(tok, ids[..read]))
    }

    /** Everything released so far. */
    ghost function Released(): seq<Char>
      requires Valid()
      reads this
    {
      Text(tok, ids[..read])
    }

    constructor (tok: Vocabulary)
      ensures Valid() && ids == [] && Released() == [] && this.tok == tok
    {
      this.tok := tok;
      ids, start, read := [], 0, 0;
    }

    /** The new text is whatever the tokens not yet released decode to, if that is something and does not
        end in the middle of a character; otherwise nothing is released. Either way the text released is
        the plain decode of the tokens released, and it never ends in U+FFFD. */
    method Push(id: int) returns (text: seq<Char>)
      requires Valid()
      modifies this
      ensures Valid() && ids == old(ids) + [id]
      ensures Released() == old(Released()) + text && Clean(Released())
      ensures var pending := Text(tok, ids[old(read)..]);
              text == if pending != [] && pending[|pending| - 1] != REPLACEMENT then pending else []
      ensures text != [] ==> Released() == Text(tok, ids)
    {
      ids := ids + [id];
      assert ids[..start] == old(ids)[..start] && ids[..read] == old(ids)[..read];
      Window(tok, ids, start, read);
      var prefixText := Text(tok, ids[start..read]);
      var newText := Text(tok, ids[start..]);
      var pending := newText[|prefixText|..];
      if |newText| > |prefixText| && newText[|newText| - 1] != REPLACEMENT {
        assert ids[..|ids|] == ids;
        start, read := read, |ids|;
        return pending;
      }
      return [];
    }

    /** Release what is left; an incomplete tail comes out as U+FFFD, as in a plain decode. */
    method Flush() returns (text: seq<Char>)
      requires Valid()
      modifies this`start, this`read
      ensures old(Released()) + text == Text(tok, ids) && start == read == |ids|
    {
      Window(tok, ids, start, read);
      var prefixText := Text(tok, ids[start..read]);
      var newText := Text(tok, ids[start..]);
      text := newText[|prefixText|..];
      start, read := |ids|, |ids|;
    }
  }

  /** Whenever the stream is cut off between pushes, what has come out does not end in U+FFFD. */
  ghost predicate CleanThroughout(pieces: seq<seq<Char>>)
  {
    forall i {:trigger pieces[..i]} :: 0 <= i <= |pieces| ==>
      var text := Concat(pieces[..i]); text == [] || text[|text| - 1] != REPLACEMENT
  }

  lemma NothingYet()
    ensures CleanThroughout([]) && Concat([]) == []
  {
  }

  lemma CleanMore(pieces: seq<seq<Char>>, text: seq<Char>)
    requires CleanThroughout(pieces) && Clean(Concat(pieces + [text]))
    ensures CleanThroughout(pieces + [text])
  {
    var more := pieces + [text];
    forall i | 0 <= i <= |more| ensures Clean(Concat(more[..i])) {
      if i <= |pieces| { assert more[..i] == pieces[..i]; } else { assert more[..i] == more; }
    }
  }

  /** Streaming equals batch decoding: the pieces pushed and the final flush concatenate to the plain
      decode of all the tokens. */
  method Stream(tok: Vocabulary, ids: seq<int>) returns (pieces: seq<seq<Char>>, tail: seq<Char>)
    ensures |pieces| == |ids| && Concat(pieces) + tail == Text(tok, ids) && CleanThroughout(pieces)
  {
    var d := new IncrementalDetokenizer(tok);
    pieces := [];
    NothingYet();
    hide Text, Clean, CleanThroughout, Concat;
    assert ids[..0] == [];
    for i := 0 to |ids|
      invariant d.Valid() && fresh(d) && d.tok == tok && d.ids == ids[..i] && |pieces| == i
      invariant d.Released() == Concat(pieces) && CleanThroughout(pieces)
    {
      assert ids[..i] + [ids[i]] == ids[..i + 1];
      var text := d.Push(ids[i]);
      ConcatMore(pieces, text);
      CleanMore(pieces, text);
      pieces := pieces + [text];
    }
    assert ids[..|ids|] == ids;
    tail := d.Flush();
  }

  function Concat(pieces: seq<seq<Char>>): seq<Char>
  {
    if pieces == [] then [] else Concat(pieces[..|pieces| - 1]) + pieces[|pieces| - 1]
  }

  lemma ConcatMore(pieces: seq<seq<Char>>, text: seq<Char>)
    ensures Concat(pieces + [text]) == Concat(pieces) + text
  {
    assert (pieces + [text])[..|pieces|] == pieces;
  }
}
