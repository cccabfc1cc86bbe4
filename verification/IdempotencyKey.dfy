/** apps/web/lib/idempotency.ts: the fallback that shapes 16 bytes as a version 4 UUID (RFC 9562, section 5.4). */
module IdempotencyKey {
  import opened Wrappers

  type Byte = b: int | 0 <= b < 256

  function HexDigit(n: int): (c: char)
    requires 0 <= n < 16
  {
    if n < 10 then '0' + n as char else 'a' + (n - 10) as char
  }

  predicate IsHex(c: char) {
    '0' <= c <= '9' || 'a' <= c <= 'f'
  }

  function JoinHex(bytes: seq<Byte>): (s: string) {
    if bytes == [] then "" else JoinHex(bytes[..|bytes| - 1]) + HexOf(bytes[|bytes| - 1])
  }

  function HexOf(b: Byte): (s: string) {
    [HexDigit(b / 16), HexDigit(b % 16)]
  }

  /** The version nibble and the variant bits set, all other bits kept. */
  function Masked(bytes: seq<Byte>): (m: seq<Byte>)
    requires |bytes| == 16
  {
    bytes[6 := bytes[6] % 16 + 64][8 := bytes[8] % 64 + 128]
  }

  function KeyText(bytes: seq<Byte>): (key: string)
    requires |bytes| == 16
  {
    JoinHex(bytes[0..4]) + "-" + JoinHex(bytes[4..6]) + "-" + JoinHex(bytes[6..8]) + "-" + JoinHex(bytes[8..10]) +
    "-" + JoinHex(bytes[10..16])
  }

  function CounterBytes(counter: nat): (bytes: seq<Byte>) {
    seq(16, i requires 0 <= i < 16 => (counter + i * 31 + 1) % 256)
  }

  class KeyMinter {
    var keyCounter: nat

    constructor ()
      ensures keyCounter == 0
    {
      keyCounter := 0;
    }

    /** The bytes of the current counter, in place, and the counter moved on. */
    method FillFromCounter(bytes: array<Byte>)
      requires bytes.Length == 16
      modifies this, bytes
      ensures bytes[..] == CounterBytes(old(keyCounter))
      ensures keyCounter == old(keyCounter) + 1
    {
      for i := 0 to 16
        invariant keyCounter == old(keyCounter)
        invariant forall k :: 0 <= k < i ==> bytes[k] == CounterBytes(keyCounter)[k]
      {
        bytes[i] := (keyCounter + i * 31 + 1) % 256;
      }
      keyCounter := keyCounter + 1;
    }

    /** The platform's own UUID when it has one; else its random bytes, else the counter's, shaped as a key. The
        counter moves only when it is used. */
    method MintIdempotencyKey(randomUuid: Option<string>, randomBytes: Option<seq<Byte>>) returns (key: string)
      requires randomBytes.Some? ==> |randomBytes.value| == 16
      modifies this
      ensures randomUuid.Some? ==> key == randomUuid.value
      ensures randomUuid.None? ==>
                key == KeyText(Masked(randomBytes.GetOr(CounterBytes(old(keyCounter)))))
      ensures keyCounter == old(keyCounter) + if randomUuid.None? && randomBytes.None? then 1 else 0
    {
      if randomUuid.Some? {
        return randomUuid.value;
      }
      var bytes := new Byte[16](_ => 0);
      if randomBytes.Some? {
        var random := randomBytes.value;
        forall i | 0 <= i < 16 {
          bytes[i] := random[i];
        }
        assert bytes[..] == random;
      } else {
        FillFromCounter(bytes);
      }
      ghost var drawn := bytes[..];
      bytes[6] := bytes[6] % 16 + 64;
      bytes[8] := bytes[8] % 64 + 128;
      assert bytes[..] == Masked(drawn);
      key := KeyText(bytes[..]);
    }
  }

  /** The layout of a version 4 UUID: 8-4-4-4-12 lower-case hex digits, version nibble 4, variant bits 10. */
  predicate IsVersion4(key: string) {
    && |key| == 36
    && (forall i :: 0 <= i < 36 ==> if IsDash(i) then key[i] == '-' else IsHex(key[i]))
    && key[14] == '4'
    && key[19] in "89ab"
  }

  predicate IsDash(i: int) {
    i == 8 || i == 13 || i == 18 || i == 23
  }

  // Where the two digits of byte `i` stand.
  function Position(i: int): (p: int)
    requires 0 <= i < 16
    ensures 0 <= p < 35
  {
    2 * i + if i < 4 then 0 else if i < 6 then 1 else if i < 8 then 2 else if i < 10 then 3 else 4
  }

  lemma {:induction false} JoinHexAt(bytes: seq<Byte>, i: nat)
    requires i < |bytes|
    ensures |JoinHex(bytes)| == 2 * |bytes|
    ensures JoinHex(bytes)[2 * i..2 * i + 2] == HexOf(bytes[i])
  {
    var front := bytes[..|bytes| - 1];
    if front == [] {
      assert JoinHex(front) == "";
    } else if i < |front| {
      JoinHexAt(front, i);
      assert JoinHex(bytes)[2 * i..2 * i + 2] == JoinHex(front)[2 * i..2 * i + 2];
    } else {
      JoinHexAt(front, 0);
    }
  }

  // The group that starts at byte `from` holds the digits of byte `i` of the group.
  lemma {:induction false} GroupAt(bytes: seq<Byte>, from: nat, to: nat, i: nat)
    requires from <= i < to <= |bytes|
    ensures |JoinHex(bytes[from..to])| == 2 * (to - from)
    ensures JoinHex(bytes[from..to])[2 * (i - from)] == HexDigit(bytes[i] / 16)
    ensures JoinHex(bytes[from..to])[2 * (i - from) + 1] == HexDigit(bytes[i] % 16)
  {
    JoinHexAt(bytes[from..to], i - from);
    assert JoinHex(bytes[from..to])[2 * (i - from)..2 * (i - from) + 2][0] == HexDigit(bytes[i] / 16);
    assert JoinHex(bytes[from..to])[2 * (i - from)..2 * (i - from) + 2][1] == HexDigit(bytes[i] % 16);
  }

  // Five groups joined by dashes, and where each of them lies.
  lemma {:induction false} Joined(a: string, b: string, c: string, d: string, e: string)
    requires |a| == 8 && |b| == |c| == |d| == 4 && |e| == 12
    ensures var key := a + "-" + b + "-" + c + "-" + d + "-" + e;
            && |key| == 36
            && key[0..8] == a && key[9..13] == b && key[14..18] == c && key[19..23] == d && key[24..36] == e
            && key[8] == '-' && key[13] == '-' && key[18] == '-' && key[23] == '-'
  {
  }

  lemma {:induction false} KeyShape(bytes: seq<Byte>)
    requires |bytes| == 16
    ensures var key := KeyText(bytes);
            && |key| == 36 && key[8] == '-' && key[13] == '-' && key[18] == '-' && key[23] == '-'
            && key[0..8] == JoinHex(bytes[0..4]) && key[9..13] == JoinHex(bytes[4..6])
            && key[14..18] == JoinHex(bytes[6..8]) && key[19..23] == JoinHex(bytes[8..10])
            && key[24..36] == JoinHex(bytes[10..16])
  {
    JoinHexAt(bytes[0..4], 0);
    JoinHexAt(bytes[4..6], 0);
    JoinHexAt(bytes[6..8], 0);
    JoinHexAt(bytes[8..10], 0);
    JoinHexAt(bytes[10..16], 0);
    Joined(JoinHex(bytes[0..4]), JoinHex(bytes[4..6]), JoinHex(bytes[6..8]), JoinHex(bytes[8..10]),
           JoinHex(bytes[10..16]));
  }

  /** Every byte stands in the key as its two digits, at a fixed place. */
  lemma {:induction false} KeyTextAt(bytes: seq<Byte>, i: nat)
    requires |bytes| == 16 && i < 16
    ensures var key := KeyText(bytes);
            && |key| == 36
            && key[Position(i)] == HexDigit(bytes[i] / 16)
            && key[Position(i) + 1] == HexDigit(bytes[i] % 16)
  {
    KeyShape(bytes);
    if i < 4 {
      DigitsInGroup(bytes, 0, 4, i, KeyText(bytes), 0);
    } else if i < 6 {
      DigitsInGroup(bytes, 4, 6, i, KeyText(bytes), 9);
    } else if i < 8 {
      DigitsInGroup(bytes, 6, 8, i, KeyText(bytes), 14);
    } else if i < 10 {
      DigitsInGroup(bytes, 8, 10, i, KeyText(bytes), 19);
    } else {
      DigitsInGroup(bytes, 10, 16, i, KeyText(bytes), 24);
    }
  }

  lemma {:induction false} DigitsInGroup(bytes: seq<Byte>, from: nat, to: nat, i: nat, key: string, at: nat)
    requires from <= i < to <= |bytes| && at + 2 * (to - from) <= |key|
    requires key[at..at + 2 * (to - from)] == JoinHex(bytes[from..to])
    ensures key[at + 2 * (i - from)] == HexDigit(bytes[i] / 16)
    ensures key[at + 2 * (i - from) + 1] == HexDigit(bytes[i] % 16)
  {
    GroupAt(bytes, from, to, i);
  }

  // The byte whose digit stands at a position that holds no dash.
  function ByteAt(p: int): (i: nat)
    requires 0 <= p < 36 && !IsDash(p)
    ensures i < 16 && (p == Position(i) || p == Position(i) + 1)
  {
    if p < 8 then p / 2 else if p < 13 then (p - 1) / 2 else if p < 18 then (p - 2) / 2
    else if p < 23 then (p - 3) / 2 else (p - 4) / 2
  }

  /** Any 16 bytes make a key with the version 4 layout. */
  lemma {:induction false} KeyIsVersion4(bytes: seq<Byte>)
    requires |bytes| == 16
    ensures IsVersion4(KeyText(Masked(bytes)))
  {
    var key := KeyText(Masked(bytes));
    KeyShape(Masked(bytes));
    forall p | 0 <= p < 36
      ensures if IsDash(p) then key[p] == '-' else IsHex(key[p])
    {
      if !IsDash(p) {
        KeyTextAt(Masked(bytes), ByteAt(p));
      }
    }
    KeyTextAt(Masked(bytes), 6);
    KeyTextAt(Masked(bytes), 8);
    VariantDigit(bytes[8]);
  }

  lemma {:induction false} VariantDigit(b: Byte)
    ensures 8 <= (b % 64 + 128) / 16 <= 11 && HexDigit((b % 64 + 128) / 16) in "89ab"
  {
    var v := (b % 64 + 128) / 16;
    assert "89ab"[v - 8] == HexDigit(v);
  }

  lemma {:induction false} HexDigitInjective(m: int, n: int)
    requires 0 <= m < 16 && 0 <= n < 16 && HexDigit(m) == HexDigit(n)
    ensures m == n
  {
    assert (HexDigit(m) as int - 'a' as int) >= 0 <==> m >= 10;
  }

  /** Two keys are equal exactly when the masked bytes are: only the six overwritten bits are lost. */
  lemma {:induction false} KeyDeterminesBytes(a: seq<Byte>, b: seq<Byte>)
    requires |a| == 16 && |b| == 16
    ensures KeyText(Masked(a)) == KeyText(Masked(b)) <==>
            && a[6] % 16 == b[6] % 16 && a[8] % 64 == b[8] % 64
            && forall i :: 0 <= i < 16 && i != 6 && i != 8 ==> a[i] == b[i]
  {
    if a[6] % 16 == b[6] % 16 && a[8] % 64 == b[8] % 64 {
      if forall i :: 0 <= i < 16 && i != 6 && i != 8 ==> a[i] == b[i] {
        assert Masked(a) == Masked(b);
      }
    }
    if KeyText(Masked(a)) == KeyText(Masked(b)) {
      forall i | 0 <= i < 16
        ensures Masked(a)[i] == Masked(b)[i]
      {
        KeyTextAt(Masked(a), i);
        KeyTextAt(Masked(b), i);
        HexDigitInjective(Masked(a)[i] / 16, Masked(b)[i] / 16);
        HexDigitInjective(Masked(a)[i] % 16, Masked(b)[i] % 16);
      }
      assert Masked(a)[6] == a[6] % 16 + 64 && Masked(b)[6] == b[6] % 16 + 64;
      assert Masked(a)[8] == a[8] % 64 + 128 && Masked(b)[8] == b[8] % 64 + 128;
      assert forall i :: 0 <= i < 16 && i != 6 && i != 8 ==> a[i] == Masked(a)[i] && b[i] == Masked(b)[i];
    }
  }

  /** Two counter-made keys are equal exactly when the counters agree modulo 256. */
  lemma {:induction false} CounterKeysRepeat(c: nat, c': nat)
    ensures KeyText(Masked(CounterBytes(c))) == KeyText(Masked(CounterBytes(c'))) <==> c % 256 == c' % 256
  {
    var a, b := CounterBytes(c), CounterBytes(c');
    forall i | 0 <= i < 16
      ensures a[i] == b[i] <==> c % 256 == c' % 256
    {
      SameResidue(c, c', i * 31 + 1);
    }
    KeyDeterminesBytes(a, b);
    if c % 256 == c' % 256 {
      assert a == b;
    } else {
      assert a[0] != b[0];
    }
  }

  lemma {:induction false} SameResidue(c: nat, c': nat, k: nat)
    ensures (c + k) % 256 == (c' + k) % 256 <==> c % 256 == c' % 256
  {
  }
}
