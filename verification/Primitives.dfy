/** ULEB128 lengths (section 7.6 of DWARF Version 5), strings and integers on the wire,
    with the reader that consumes them. Text is its encoded byte sequence. */
module Primitives {
  import opened Wrappers
  import opened Bytes

  /** Result of a read: the value and the bytes left, or an exception. */
  datatype Parse<+T> = Raised | Parsed(value: T, rest: bytes) {
    predicate IsFailure() {
      Raised?
    }

    function PropagateFailure<U>(): Parse<U>
      requires Raised?
    {
      Raised
    }

    function Extract(): (T, bytes)
      requires Parsed?
    {
      (value, rest)
    }
  }

  // ---------------------------------------------------------------- ULEB128

  /** The unsigned LEB128 encoding of `n`: seven bits a byte, least significant first. */
  function Uleb(n: nat): (r: bytes)
    ensures |r| > 0
  {
    if n < 128 then [n] else [n % 128 + 128] + Uleb(n / 128)
  }

  /** `num & 0x7F` is `num % 128`, `num >>= 7` is `num / 128`, and `|= 0x80` adds the clear bit 128. */
  method WriteUleb128(num: nat) returns (ret: bytes)
    ensures ret == Uleb(num)
  {
    if num == 0 {
      return [0];
    }
    ret := [];
    var n := num;
    while n != 0
      invariant n != 0 ==> ret + Uleb(n) == Uleb(num)
      invariant n == 0 ==> ret == Uleb(num)
    {
      ghost var before, was := ret, n;
      ret := ret + [n % 128];
      n := n / 128;
      if n != 0 {
        ret := ret[|ret| - 1 := ret[|ret| - 1] + 128];
        assert ret + Uleb(n) == before + ([was % 128 + 128] + Uleb(n));
      }
    }
  }

  function Pow128(k: nat): (p: nat)
    ensures p >= 1
  {
    if k == 0 then 1 else 128 * Pow128(k - 1)
  }

  /** What the length loop of `read_string` computes; it raises when the view ends inside the number. */
  function ParseUleb(s: bytes): (r: Parse<nat>)
    ensures r.Parsed? ==> |r.rest| < |s|
  {
    if s == [] then Raised
    else if s[0] < 128 then Parsed(s[0], s[1..])
    else
      var (high, rest) :- ParseUleb(s[1..]);
      Parsed(s[0] % 128 + 128 * high, rest)
  }

  /** The same length as the reader's loop builds it, from `length` so far and `shift` sevens. */
  function AccumulateUleb(s: bytes, length: nat, shift: nat): Parse<nat> {
    if s == [] then Raised
    else
      var longer := length + (s[0] % 128) * Pow128(shift);
      if s[0] < 128 then Parsed(longer, s[1..]) else AccumulateUleb(s[1..], longer, shift + 1)
  }

  lemma {:induction false} AccumulateIsParse(s: bytes, length: nat, shift: nat)
    ensures AccumulateUleb(s, length, shift) ==
      match ParseUleb(s)
      case Raised => Raised
      case Parsed(n, rest) => Parsed(length + n * Pow128(shift), rest)
  {
    if s != [] && s[0] >= 128 {
      var d, p := s[0] % 128, Pow128(shift);
      AccumulateIsParse(s[1..], length + d * p, shift + 1);
      if ParseUleb(s[1..]).Parsed? {
        Distribute(d, ParseUleb(s[1..]).value, p);
      }
    }
  }

  lemma Distribute(d: nat, high: nat, p: nat)
    ensures d * p + high * (128 * p) == (d + 128 * high) * p
  {
  }

  lemma {:induction false} UlebRoundTrip(n: nat, rest: bytes)
    ensures ParseUleb(Uleb(n) + rest) == Parsed(n, rest)
  {
    var s := Uleb(n) + rest;
    if n < 128 {
      assert s[1..] == rest;
    } else {
      UlebRoundTrip(n / 128, rest);
      assert s[1..] == Uleb(n / 128) + rest;
    }
  }

  /** The number that the low seven bits of these bytes spell, the first being the least significant. */
  function Sevens(s: bytes): nat {
    if s == [] then 0 else s[0] % 128 + 128 * Sevens(s[1..])
  }

  /** Every byte but the last has its top bit set, the bytes spell the number, and there are no more of them
      than it takes. */
  lemma {:induction false} UlebShape(n: nat)
    ensures var r := Uleb(n);
      && Sevens(r) == n
      && (forall i :: 0 <= i < |r| ==> (r[i] >= 128 <==> i < |r| - 1))
      && (r[|r| - 1] == 0 ==> n == 0)
  {
    var r := Uleb(n);
    if n >= 128 {
      UlebShape(n / 128);
      assert r[1..] == Uleb(n / 128);
      assert forall i :: 1 <= i < |r| ==> r[i] == Uleb(n / 128)[i - 1];
    } else {
      assert r[1..] == [];
    }
  }

  /** A length ends with the first byte whose top bit is clear; without one the view ends first. */
  lemma {:induction false} UlebReads(s: bytes, k: nat)
    requires k <= |s| && forall i :: 0 <= i < k ==> s[i] >= 128
    ensures k == |s| ==> ParseUleb(s) == Raised
    ensures k < |s| && s[k] < 128 ==> ParseUleb(s) == Parsed(Sevens(s[..k + 1]), s[k + 1..])
  {
    if k > 0 {
      UlebReads(s[1..], k - 1);
      if k < |s| {
        assert s[..k + 1][1..] == s[1..][..k];
        assert s[1..][k..] == s[k + 1..];
      }
    } else if s != [] {
      assert s[..1][1..] == [];
    }
  }

  // ---------------------------------------------------------------- strings

  function EncodeString(s: bytes): bytes {
    if s == [] then [0] else [0x0b] + Uleb(|s|) + s
  }

  method WriteString(s: bytes) returns (ret: bytes)
    ensures ret == EncodeString(s)
  {
    if s != [] {
      var size := WriteUleb128(|s|);
      ret := [0x0b] + size + s;
    } else {
      ret := [0];
    }
  }

  function ParseString(s: bytes): (r: Parse<bytes>)
    ensures r.Parsed? ==> |r.rest| < |s|
  {
    if s == [] then Raised
    else if s[0] != 0x0b then Parsed([], s[1..])
    else
      var (length, body) :- ParseUleb(s[1..]);
      Parsed(Take(body, length), Drop(body, length))
  }

  /** An empty string is one zero byte; any other is marked by the byte 11 and its length, which is a single
      byte up to 127. Text that the view cuts short is read as far as it goes, and any other mark as empty. */
  lemma StringLayout(s: bytes, view: bytes)
    ensures s == [] ==> EncodeString(s) == [0]
    ensures 1 <= |s| < 128 ==> EncodeString(s) == [11, |s|] + s
    ensures 1 <= |s| ==> EncodeString(s)[0] == 11 && EncodeString(s)[1 + |Uleb(|s|)|..] == s
    ensures view == [] ==> ParseString(view) == Raised
    ensures view != [] && view[0] != 11 ==> ParseString(view) == Parsed([], view[1..])
    ensures |view| > 1 && view[0] == 11 && view[1] < 128 ==>
      ParseString(view) ==
        if view[1] <= |view| - 2 then Parsed(view[2..2 + view[1]], view[2 + view[1]..]) else Parsed(view[2..], [])
  {
    if |view| > 1 && view[0] == 11 {
      assert view[1..][1..] == view[2..];
      if view[1] <= |view| - 2 {
        assert view[2..][..view[1]] == view[2..2 + view[1]] && view[2..][view[1]..] == view[2 + view[1]..];
      }
    }
  }

  lemma StringRoundTrip(s: bytes, rest: bytes)
    ensures ParseString(EncodeString(s) + rest) == Parsed(s, rest)
  {
    var e := EncodeString(s) + rest;
    if s == [] {
      assert e[1..] == rest;
    } else {
      assert e[0] == 0x0b && e[1..] == Uleb(|s|) + (s + rest);
      BodyRoundTrip(s, rest);
    }
  }

  lemma BodyRoundTrip(s: bytes, rest: bytes)
    ensures ParseUleb(Uleb(|s|) + (s + rest)) == Parsed(|s|, s + rest)
    ensures Take(s + rest, |s|) == s && Drop(s + rest, |s|) == rest
  {
    UlebRoundTrip(|s|, s + rest);
    TakeDropOfConcat(s, rest);
  }

  /** The spelling of a password that exists but is withheld. */
  lemma HiddenStringReadsEmpty(rest: bytes)
    ensures ParseString([0x0b, 0] + rest) == Parsed([], rest)
  {
    var e: bytes := [0x0b, 0] + rest;
    assert e[1..] == Uleb(0) + rest;
    UlebRoundTrip(0, rest);
  }

  // ---------------------------------------------------------------- integers

  function SignedByte(b: int): int {
    if b > 127 then b - 256 else b
  }

  function ParseI8(s: bytes): (r: Parse<int>)
    ensures r.Parsed? ==> |r.rest| < |s|
  {
    if s == [] then Raised else Parsed(SignedByte(s[0]), s[1..])
  }

  /** Slicing never raises, so a short view gives a short number. */
  function ParseSigned(s: bytes, len: nat): (int, bytes) {
    (SignedFromLE(Take(s, len)), Drop(s, len))
  }

  lemma UnsignedReadSigned(n: nat, len: nat, rest: bytes)
    requires n < Capacity(len)
    ensures ParseSigned(ToLE(n, len) + rest, len) == (Reinterpret(n, len), rest)
  {
    TakeDropOfConcat(ToLE(n, len), rest);
    FromLEOfToLE(n, len);
  }

  lemma SignedRoundTrip(x: int, len: nat, rest: bytes)
    requires FitsSigned(x, len)
    ensures ParseSigned(SignedToLE(x, len) + rest, len) == (x, rest)
  {
    TakeDropOfConcat(SignedToLE(x, len), rest);
    SignedFromLEOfSignedToLE(x, len);
  }

  // ---------------------------------------------------------------- the reader

  /** The reader's state and its primitive reads. `None` stands for the exception (IndexError)
      that leaves the handler; the view is then somewhere inside the failed field. */
  class BanchoPacketReader {
    var bodyView: bytes
    var currentLen: nat
    const packetMap: set<int>

    constructor (body: bytes, packetMap: set<int>)
      ensures bodyView == body && currentLen == 0 && this.packetMap == packetMap
    {
      bodyView := body;
      currentLen := 0;
      this.packetMap := packetMap;
    }

    method ReadRaw() returns (val: bytes)
      modifies this`bodyView
      ensures val == Take(old(bodyView), currentLen) && bodyView == Drop(old(bodyView), currentLen)
    {
      val := Take(bodyView, currentLen);
      bodyView := Drop(bodyView, currentLen);
    }

    method ReadI8() returns (val: Option<int>)
      modifies this`bodyView
      ensures Agrees(val, ParseI8(old(bodyView)))
    {
      if bodyView == [] {
        return None;
      }
      var b := bodyView[0];
      bodyView := bodyView[1..];
      val := Some(SignedByte(b));
    }

    method ReadSigned(len: nat) returns (val: int)
      modifies this`bodyView
      ensures (val, bodyView) == ParseSigned(old(bodyView), len)
    {
      val := SignedFromLE(Take(bodyView, len));
      bodyView := Drop(bodyView, len);
    }

    /** `length |= (byte & 0x7F) << shift` adds: `length` only has bits below `shift`. */
    method ReadString() returns (val: Option<bytes>)
      modifies this`bodyView
      ensures Agrees(val, ParseString(old(bodyView)))
    {
      if bodyView == [] {
        return None;
      }
      var exists_ := bodyView[0] == 0x0b;
      bodyView := bodyView[1..];
      if !exists_ {
        return Some([]);
      }
      var length: nat, shift: nat := 0, 0;
      ghost var start := bodyView;
      AccumulateIsParse(bodyView, 0, 0);
      while true
        invariant AccumulateUleb(bodyView, length, shift) == ParseUleb(start)
        decreases |bodyView|
      {
        if bodyView == [] {
          return None;
        }
        var b := bodyView[0];
        bodyView := bodyView[1..];
        length := length + (b % 128) * Pow128(shift);
        if b < 128 {
          break;
        }
        shift := shift + 1;
      }
      val := Some(Take(bodyView, length));
      bodyView := Drop(bodyView, length);
    }

    /** `val` and the new view are what the pure parse says. */
    ghost predicate Agrees<T>(val: Option<T>, p: Parse<T>)
      reads this
    {
      match p
      case Raised => val == None
      case Parsed(v, rest) => val == Some(v) && bodyView == rest
    }
  }
}
