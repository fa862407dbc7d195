/**
 * The Solidity contract ABI encoding ("Formal Specification of the Encoding"
 * in the Solidity ABI specification), restricted to what `ethabi::encode`
 * is given by the asset-metadata encoder: a list of dynamic
 * (string, string, uint256) tuples.
 *
 * Encoding rules used here:
 *  - a uint256 is one 32-byte big-endian word;
 *  - a string is its length word followed by its bytes, right-padded with
 *    zeros to a multiple of 32;
 *  - a dynamic tuple (or the top-level parameter list) is its head words
 *    (an offset for every dynamic member, the value itself for a static
 *    one) followed by the tails of the dynamic members, in order; offsets
 *    count from the start of that tuple (or parameter list).
 */
module Abi {
  import opened Wrappers
  import opened Bytes

  /**
   * Any Rust length: a `String`, a `Vec` of parameters or of assets holds
   * fewer than 2^63 elements (isize::MAX).
   */
  const LEN_BOUND: nat := 0x8000_0000_0000_0000

  /** The UTF-8 bytes of a Rust `String`. */
  type Str = s: seq<byte> | |s| < LEN_BOUND

  /** The range of `U256`. */
  type u256 = n: nat | n < WORD_BOUND

  /** `Token::Tuple([Token::String(name), Token::String(symbol), Token::Uint(decimals)])`. */
  datatype Token = Tuple(name: Str, symbol: Str, decimals: u256)

  /** One 32-byte word: the low 32 bytes of `n`, big-endian. */
  function Word(n: nat): (w: seq<byte>)
    ensures |w| == 32
  {
    BigEndian(n, 32)
  }

  /** The least multiple of 32 that is at least `n`. */
  function Ceil32(n: nat): (c: nat)
    ensures c % 32 == 0 && n <= c < n + 32
  {
    (n + 31) / 32 * 32
  }

  function PadRight(b: seq<byte>): (p: seq<byte>)
    ensures |p| == Ceil32(|b|) && p[..|b|] == b
    ensures forall i :: |b| <= i < |p| ==> p[i] == 0
  {
    b + Zeros(Ceil32(|b|) - |b|)
  }

  /** Encoding of a `string`: the length word, then the bytes padded to a multiple of 32. */
  function EncodeString(b: Str): (e: seq<byte>)
    ensures |e| == 32 + Ceil32(|b|) && |e| % 32 == 0
  {
    Word(|b|) + PadRight(b)
  }

  /**
   * Encoding of one (string, string, uint256) tuple: head words for the
   * offset of the name, the offset of the symbol and the number, then
   * the name's tail and the symbol's tail.
   */
  function EncodeTuple(t: Token): (e: seq<byte>)
    ensures |e| == 96 + |EncodeString(t.name)| + |EncodeString(t.symbol)|
  {
    var name := EncodeString(t.name);
    Word(96) + Word(96 + |name|) + Word(t.decimals) + name + EncodeString(t.symbol)
  }

  /** The tuples' encodings, one after the other. */
  function Tails(ts: seq<Token>): seq<byte>
  {
    if ts == [] then [] else Tails(ts[..|ts| - 1]) + EncodeTuple(ts[|ts| - 1])
  }

  /** Where the i-th tuple starts, counted from the start of the parameter list. */
  function Offset(ts: seq<Token>, i: nat): nat
    requires i <= |ts|
  {
    32 * |ts| + |Tails(ts[..i])|
  }

  /** The first k head words: the offsets of tuples 0 .. k-1. */
  function Heads(ts: seq<Token>, k: nat): (r: seq<byte>)
    requires k <= |ts|
    ensures |r| == 32 * k
  {
    if k == 0 then [] else Heads(ts, k - 1) + Word(Offset(ts, k - 1))
  }

  /**
   * `ethabi::encode(&tokens)` for a list of tuple tokens, each a separate
   * top-level parameter: one offset word per token, then the tuples.
   */
  function Encode(ts: seq<Token>): (r: seq<byte>)
    ensures |r| == 32 * |ts| + |Tails(ts)|
  {
    Heads(ts, |ts|) + Tails(ts)
  }

  // ---------------------------------------------------------------------
  // A reference decoder, reading the layout above back.

  /** The 32-byte word at position p, if there is one. */
  function WordAt(r: seq<byte>, p: nat): Option<u256>
  {
    if p + 32 <= |r| then
      ValueOfBound(r[p..p + 32]);
      WordBoundIsPow256();
      Some(ValueOf(r[p..p + 32]))
    else None
  }

  /** The string whose length word is at position q. */
  function StringAt(r: seq<byte>, q: nat): Option<Str>
  {
    var len :- WordAt(r, q);
    if q + 32 + len <= |r| && len < LEN_BOUND then Some(r[q + 32..q + 32 + len]) else None
  }

  /** The tuple whose head starts at position p. */
  function TupleAt(r: seq<byte>, p: nat): Option<Token>
  {
    var nameOffset :- WordAt(r, p);
    var symbolOffset :- WordAt(r, p + 32);
    var decimals :- WordAt(r, p + 64);
    var name :- StringAt(r, p + nameOffset);
    var symbol :- StringAt(r, p + symbolOffset);
    Some(Tuple(name, symbol, decimals))
  }

  /** Decodes `n` top-level tuple parameters. */
  function Decode(r: seq<byte>, n: nat): (d: Option<seq<Token>>)
    ensures d.Some? ==> |d.value| == n
  {
    if n == 0 then Some([])
    else
      var init :- Decode(r, n - 1);
      var offset :- WordAt(r, 32 * (n - 1));
      var t :- TupleAt(r, offset);
      Some(init + [t])
  }

  // ---------------------------------------------------------------------
  // Layout and round-trip lemmas.

  lemma WordAtOccurs(r: seq<byte>, p: nat, n: nat)
    requires n < WORD_BOUND && Occurs(r, p, Word(n))
    ensures WordAt(r, p) == Some(n)
  {
    WordBoundIsPow256();
    ValueOfBigEndian(n, 32);
  }

  lemma StringAtOccurs(r: seq<byte>, q: nat, b: Str)
    requires Occurs(r, q, EncodeString(b))
    ensures StringAt(r, q) == Some(b)
  {
    var pad := Zeros(Ceil32(|b|) - |b|);
    assert EncodeString(b) == Word(|b|) + (b + pad);
    OccursSplit(r, q, Word(|b|), b + pad);
    OccursSplit(r, q + 32, b, pad);
    WordAtOccurs(r, q, |b|);
  }

  /** Where the five parts of a tuple's encoding sit. */
  lemma TuplePartsOccur(r: seq<byte>, p: nat, t: Token)
    requires Occurs(r, p, EncodeTuple(t))
    ensures Occurs(r, p, Word(96))
    ensures Occurs(r, p + 32, Word(96 + |EncodeString(t.name)|))
    ensures Occurs(r, p + 64, Word(t.decimals))
    ensures Occurs(r, p + 96, EncodeString(t.name))
    ensures Occurs(r, p + 96 + |EncodeString(t.name)|, EncodeString(t.symbol))
  {
    var name, symbol := EncodeString(t.name), EncodeString(t.symbol);
    var w0, w1, w2 := Word(96), Word(96 + |name|), Word(t.decimals);
    OccursSplit(r, p, w0 + w1 + w2 + name, symbol);
    OccursSplit(r, p, w0 + w1 + w2, name);
    OccursSplit(r, p, w0 + w1, w2);
    OccursSplit(r, p, w0, w1);
  }

  lemma TupleAtOccurs(r: seq<byte>, p: nat, t: Token)
    requires Occurs(r, p, EncodeTuple(t))
    ensures TupleAt(r, p) == Some(t)
  {
    var n := |EncodeString(t.name)|;
    TuplePartsOccur(r, p, t);
    WordAtOccurs(r, p, 96);
    WordAtOccurs(r, p + 32, 96 + n);
    WordAtOccurs(r, p + 64, t.decimals);
    StringAtOccurs(r, p + 96, t.name);
    StringAtOccurs(r, p + 96 + n, t.symbol);
    TupleAtParts(r, p, 96, 96 + n, t.decimals, t.name, t.symbol);
  }

  /** One step of `TupleAt`, over named parts. */
  lemma TupleAtParts(r: seq<byte>, p: nat, a: u256, b: u256, c: u256, name: Str, symbol: Str)
    requires WordAt(r, p) == Some(a) && WordAt(r, p + 32) == Some(b) && WordAt(r, p + 64) == Some(c)
    requires StringAt(r, p + a) == Some(name) && StringAt(r, p + b) == Some(symbol)
    ensures TupleAt(r, p) == Some(Tuple(name, symbol, c))
  {
  }

  lemma {:induction false} HeadsOccur(r: seq<byte>, ts: seq<Token>, k: nat, i: nat)
    requires k <= |ts| && i < k && Occurs(r, 0, Heads(ts, k))
    ensures Occurs(r, 32 * i, Word(Offset(ts, i)))
  {
    OccursSplit(r, 0, Heads(ts, k - 1), Word(Offset(ts, k - 1)));
    if i < k - 1 {
      HeadsOccur(r, ts, k - 1, i);
    }
  }

  lemma TailsSplit(ts: seq<Token>)
    requires ts != []
    ensures Tails(ts) == Tails(ts[..|ts| - 1]) + EncodeTuple(ts[|ts| - 1])
  {
  }

  /** The tails are the earlier tuples' tails followed by the last tuple. */
  lemma TailsSplitOccurs(r: seq<byte>, q: nat, ts: seq<Token>)
    requires ts != [] && Occurs(r, q, Tails(ts))
    ensures Occurs(r, q, Tails(ts[..|ts| - 1]) + EncodeTuple(ts[|ts| - 1]))
  {
    TailsSplit(ts);
  }

  /** `OccursSplit` on the last tuple, with the two parts named so the solver does not unfold them. */
  lemma LastTailSplit(r: seq<byte>, q: nat, ts: seq<Token>, init: seq<byte>, last: seq<byte>)
    requires ts != [] && init == Tails(ts[..|ts| - 1]) && last == EncodeTuple(ts[|ts| - 1])
    requires Occurs(r, q, init + last)
    ensures Occurs(r, q, init) && Occurs(r, q + |init|, last)
  {
    OccursSplit(r, q, init, last);
  }

  lemma LastTailOccurs(r: seq<byte>, q: nat, ts: seq<Token>, i: nat)
    requires i == |ts| - 1 && Occurs(r, q, Tails(ts))
    ensures Occurs(r, q + |Tails(ts[..i])|, EncodeTuple(ts[i]))
  {
    TailsSplitOccurs(r, q, ts);
    LastTailSplit(r, q, ts, Tails(ts[..i]), EncodeTuple(ts[i]));
  }

  lemma InitPrefix(ts: seq<Token>, i: nat)
    requires i < |ts| - 1
    ensures ts[..|ts| - 1][..i] == ts[..i] && ts[..|ts| - 1][i] == ts[i]
  {
  }

  lemma {:induction false} TailsOccur(r: seq<byte>, q: nat, ts: seq<Token>, i: nat)
    requires i < |ts| && Occurs(r, q, Tails(ts))
    ensures Occurs(r, q + |Tails(ts[..i])|, EncodeTuple(ts[i]))
  {
    var init := ts[..|ts| - 1];
    if i < |ts| - 1 {
      TailsSplitOccurs(r, q, ts);
      LastTailSplit(r, q, ts, Tails(init), EncodeTuple(ts[|ts| - 1]));
      TailsOccur(r, q, init, i);
      InitPrefix(ts, i);
      OccursMove(r, q + |Tails(init[..i])|, q + |Tails(ts[..i])|, EncodeTuple(init[i]), EncodeTuple(ts[i]));
    } else {
      LastTailOccurs(r, q, ts, i);
    }
  }

  /** No tuple encoding reaches 2^65 bytes. */
  const TUPLE_BOUND: nat := 0x2_0000_0000_0000_0000

  lemma {:induction false} TailsBound(ts: seq<Token>)
    ensures |Tails(ts)| <= |ts| * TUPLE_BOUND
  {
    if ts != [] {
      TailsBound(ts[..|ts| - 1]);
    }
  }

  lemma OffsetBound(ts: seq<Token>, i: nat)
    requires i <= |ts| < LEN_BOUND
    ensures Offset(ts, i) < WORD_BOUND
  {
    TailsBound(ts[..i]);
  }

  /** An encoding is the head words followed by the tails. */
  lemma EncodeParts(ts: seq<Token>)
    ensures Occurs(Encode(ts), 0, Heads(ts, |ts|))
    ensures Occurs(Encode(ts), 32 * |ts|, Tails(ts))
  {
    NamedSplit(Encode(ts), Heads(ts, |ts|), Tails(ts));
  }

  lemma NamedSplit(r: seq<byte>, x: seq<byte>, y: seq<byte>)
    requires r == x + y
    ensures Occurs(r, 0, x) && Occurs(r, |x|, y)
  {
    OccursSplit(r, 0, x, y);
  }

  /** Parameter i can be read back from any bytes that hold the heads at 0 and the tails after them, at q. */
  lemma ParamFrom(r: seq<byte>, q: nat, ts: seq<Token>, i: nat)
    requires i < |ts| < LEN_BOUND && q == 32 * |ts|
    requires Occurs(r, 0, Heads(ts, |ts|)) && Occurs(r, q, Tails(ts))
    ensures ParamReadable(r, ts, i)
  {
    HeadWordAt(r, ts, i);
    TupleAtTail(r, q, ts, i);
  }

  lemma HeadWordAt(r: seq<byte>, ts: seq<Token>, i: nat)
    requires i < |ts| < LEN_BOUND && Occurs(r, 0, Heads(ts, |ts|))
    ensures WordAt(r, 32 * i) == Some(Offset(ts, i))
  {
    HeadsOccur(r, ts, |ts|, i);
    OffsetBound(ts, i);
    WordAtOccurs(r, 32 * i, Offset(ts, i));
  }

  lemma TupleAtTail(r: seq<byte>, q: nat, ts: seq<Token>, i: nat)
    requires i < |ts| && q == 32 * |ts| && Occurs(r, q, Tails(ts))
    ensures TupleAt(r, Offset(ts, i)) == Some(ts[i])
  {
    TupleOccursAtOffset(r, q, ts, i);
    TupleAtOccurs(r, Offset(ts, i), ts[i]);
  }

  lemma TupleOccursAtOffset(r: seq<byte>, q: nat, ts: seq<Token>, i: nat)
    requires i < |ts| && q == 32 * |ts| && Occurs(r, q, Tails(ts))
    ensures Occurs(r, Offset(ts, i), EncodeTuple(ts[i]))
  {
    var p := Offset(ts, i);
    assert p == q + |Tails(ts[..i])|;
    TailsOccur(r, q, ts, i);
  }

  /** Parameter i of ts can be read from r: its head word, then its tuple. */
  predicate ParamReadable(r: seq<byte>, ts: seq<Token>, i: nat)
    requires i < |ts|
  {
    WordAt(r, 32 * i) == Some(Offset(ts, i)) && TupleAt(r, Offset(ts, i)) == Some(ts[i])
  }

  /** Reading k parameters from any bytes whose first k parameters are readable as those of ts. */
  lemma {:induction false} DecodePrefix(r: seq<byte>, ts: seq<Token>, k: nat)
    requires k <= |ts|
    requires forall i :: 0 <= i < k ==> ParamReadable(r, ts, i)
    ensures Decode(r, k) == Some(ts[..k])
  {
    if k > 0 {
      DecodePrefix(r, ts, k - 1);
      assert ParamReadable(r, ts, k - 1);
      SnocPrefix(ts, k);
      DecodeStep(r, k, ts[..k - 1], Offset(ts, k - 1), ts[k - 1], ts[..k]);
    }
  }

  lemma SnocPrefix(ts: seq<Token>, k: nat)
    requires 0 < k <= |ts|
    ensures ts[..k] == ts[..k - 1] + [ts[k - 1]]
  {
  }

  /** One step of `Decode`, over named parts. */
  lemma DecodeStep(r: seq<byte>, n: nat, init: seq<Token>, offset: nat, t: Token, whole: seq<Token>)
    requires n > 0 && Decode(r, n - 1) == Some(init) && whole == init + [t]
    requires WordAt(r, 32 * (n - 1)) == Some(offset) && TupleAt(r, offset) == Some(t)
    ensures Decode(r, n) == Some(whole)
  {
  }

  /** Decoding an encoding, told how many parameters there are, gives back the tokens. */
  lemma DecodeEncode(ts: seq<Token>)
    requires |ts| < LEN_BOUND
    ensures Decode(Encode(ts), |ts|) == Some(ts)
  {
    forall i | 0 <= i < |ts|
      ensures ParamReadable(Encode(ts), ts, i)
    {
      EncodeParts(ts);
      ParamFrom(Encode(ts), 32 * |ts|, ts, i);
    }
    DecodePrefix(Encode(ts), ts, |ts|);
    assert ts[..|ts|] == ts;
  }

  /** Distinct token lists of the same length have distinct encodings. */
  lemma EncodeInjective(ts: seq<Token>, us: seq<Token>)
    requires |ts| == |us| < LEN_BOUND
    ensures Encode(ts) == Encode(us) <==> ts == us
  {
    if Encode(ts) == Encode(us) {
      DecodeEncode(ts);
      DecodeEncode(us);
    }
  }

  /** The first word of an encoding is the offset of the first tuple, 32 per parameter. */
  lemma FirstWord(ts: seq<Token>)
    requires |ts| > 0
    ensures Encode(ts)[..32] == Word(32 * |ts|)
  {
    var r := Encode(ts);
    OccursSplit(r, 0, Heads(ts, |ts|), Tails(ts));
    HeadsOccur(r, ts, |ts|, 0);
    assert ts[..0] == [];
  }

  lemma AddMultiples(a: nat, b: nat)
    requires a % 32 == 0 && b % 32 == 0
    ensures (a + b) % 32 == 0
  {
  }

  lemma MulWords(k: nat)
    ensures (32 * k) % 32 == 0
  {
  }

  lemma TupleWords(t: Token)
    ensures |EncodeTuple(t)| % 32 == 0
  {
    var a, b := |EncodeString(t.name)|, |EncodeString(t.symbol)|;
    AddMultiples(96, a);
    AddMultiples(96 + a, b);
  }

  lemma {:induction false} TailsWords(ts: seq<Token>)
    ensures |Tails(ts)| % 32 == 0
  {
    if ts != [] {
      var pre, t := ts[..|ts| - 1], ts[|ts| - 1];
      assert Tails(ts) == Tails(pre) + EncodeTuple(t);
      TailsWords(pre);
      TupleWords(t);
      AddMultiples(|Tails(pre)|, |EncodeTuple(t)|);
    }
  }

  /** Every encoding is a whole number of 32-byte words. */
  lemma EncodeWords(ts: seq<Token>)
    ensures |Encode(ts)| % 32 == 0
  {
    var heads, tails := 32 * |ts|, |Tails(ts)|;
    assert heads % 32 == 0 by { MulWords(|ts|); }
    assert tails % 32 == 0 by { TailsWords(ts); }
    AddMultiples(heads, tails);
  }

  /** With one parameter the encoding is the offset 0x20 followed by the tuple. */
  lemma EncodeSingle(t: Token)
    ensures Encode([t]) == Word(32) + EncodeTuple(t)
  {
    assert [t][..0] == [];
    assert [t][..1] == [t];
    assert Heads([t], 1) == Word(32);
    assert Tails([t]) == Tails([]) + EncodeTuple(t);
  }
}
