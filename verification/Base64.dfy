/** The Base64 codec: the encoder's and decoder's loops over preallocated buffers,
    against RFC 4648.

    Java's `char` is a code unit and its `byte` is signed.  Shifts and masks are written
    as division and remainder by powers of two; the parts joined by `|` do not overlap. */
module Base64 {
  type Unit = c: int | 0 <= c < 0x10000

  type Text = seq<Unit>

  type Byte = b: int | -128 <= b < 128

  /** `b & 0xff` */
  function Octet(b: Byte): (o: nat)
    ensures o < 256
  {
    if b < 0 then b + 256 else b
  }

  /** `(byte) i` for an octet. */
  function ToByte(o: nat): Byte
    requires o < 256
  {
    if o < 128 then o else o - 256
  }

  const PAD: Unit := 61  // '='

  /** `S_BASE64CHAR`: A-Z, a-z, 0-9, '+', '/'. */
  function CharOf(i: nat): Unit
    requires i < 64
  {
    if i < 26 then 65 + i else if i < 52 then 97 + (i - 26) else if i < 62 then 48 + (i - 52)
    else if i == 62 then 43 else 47
  }

  const MAX_VALUE := 127

  /** `S_DECODETABLE`, for code units below 128. */
  function ValueOf(c: Unit): (v: nat)
    ensures v < 128
  {
    if 65 <= c <= 90 then c - 65
    else if 97 <= c <= 122 then c - 97 + 26
    else if 48 <= c <= 57 then c - 48 + 52
    else if c == 43 then 62 else if c == 47 then 63 else MAX_VALUE
  }

  lemma ValueOfChar(i: nat)
    requires i < 64
    ensures ValueOf(CharOf(i)) == i && CharOf(i) != PAD && CharOf(i) < 128
  {
  }

  lemma CharOfValue(c: Unit)
    requires ValueOf(c) != MAX_VALUE
    ensures ValueOf(c) < 64 && CharOf(ValueOf(c)) == c && c != PAD
  {
  }

  /** The static initialiser. */
  method DecodeTable() returns (table: array<int>)
    ensures fresh(table) && table.Length == 128
    ensures forall c :: 0 <= c < 128 ==> table[c] == ValueOf(c)
  {
    table := new int[128];
    var i := 0;
    while i < table.Length
      invariant 0 <= i <= 128 && forall c :: 0 <= c < i ==> table[c] == MAX_VALUE
    {
      table[i] := MAX_VALUE;
      i := i + 1;
    }
    i := 0;
    while i < 64
      invariant 0 <= i <= 64
      invariant forall c :: 0 <= c < 128 ==> table[c] == if ValueOf(c) < i then ValueOf(c) else MAX_VALUE
    {
      ValueOfChar(i);
      table[CharOf(i)] := i;
      forall c | 0 <= c < 128 && ValueOf(c) == i ensures c == CharOf(i) { CharOfValue(c); }
      i := i + 1;
    }
    forall c | 0 <= c < 128 ensures table[c] == ValueOf(c) {
      if ValueOf(c) != MAX_VALUE { CharOfValue(c); }
    }
  }

  // ---- Encoding ----

  function Group3(a: nat, b: nat, c: nat): (g: Text)
    requires a < 256 && b < 256 && c < 256
    ensures |g| == 4
  {
    var i := a * 65536 + b * 256 + c;
    [CharOf(i / 262144), CharOf(i / 4096 % 64), CharOf(i / 64 % 64), CharOf(i % 64)]
  }

  function Group2(a: nat, b: nat): (g: Text)
    requires a < 256 && b < 256
    ensures |g| == 4
  {
    var i := a * 256 + b;
    [CharOf(i / 1024), CharOf(i / 16 % 64), CharOf(i * 4 % 64), PAD]
  }

  function Group1(a: nat): (g: Text)
    requires a < 256
    ensures |g| == 4
  {
    [CharOf(a / 4), CharOf(a * 16 % 64), PAD, PAD]
  }

  /** What `encode` computes, group by group. */
  function Encode(d: seq<Byte>): Text {
    if |d| == 0 then []
    else if |d| == 1 then Group1(Octet(d[0]))
    else if |d| == 2 then Group2(Octet(d[0]), Octet(d[1]))
    else Group3(Octet(d[0]), Octet(d[1]), Octet(d[2])) + Encode(d[3..])
  }

  /** Four characters for each three bytes or part of three. */
  lemma {:induction false} EncodeLength(d: seq<Byte>)
    ensures |Encode(d)| == (|d| + 2) / 3 * 4
  {
    hide Group1, Group2, Group3, Octet;
    if |d| > 2 { EncodeLength(d[3..]); }
  }

  lemma {:induction false} EncodeSplit(a: seq<Byte>, b: seq<Byte>)
    requires |a| % 3 == 0
    ensures Encode(a + b) == Encode(a) + Encode(b)
  {
    if a == [] {
      assert a + b == b;
    } else {
      assert (a + b)[3..] == a[3..] + b;
      EncodeSplit(a[3..], b);
    }
  }

  lemma EncodeStep(d: seq<Byte>, r: nat)
    requires r % 3 == 0 && r + 3 <= |d|
    ensures Encode(d[..r + 3]) == Encode(d[..r]) + Group3(Octet(d[r]), Octet(d[r + 1]), Octet(d[r + 2]))
  {
    var g := d[r..r + 3];
    assert d[..r + 3] == d[..r] + g;
    EncodeSplit(d[..r], g);
    assert g[3..] == [] && Encode([]) == [];
  }

  lemma EncodeRest(d: seq<Byte>, r: nat)
    requires r % 3 == 0 && r <= |d| < r + 3
    ensures Encode(d) == Encode(d[..r]) +
      if |d| == r then [] else if |d| == r + 1 then Group1(Octet(d[r])) else Group2(Octet(d[r]), Octet(d[r + 1]))
  {
    assert d == d[..r] + d[r..];
    EncodeSplit(d[..r], d[r..]);
  }

  lemma EncodeNothing(d: seq<Byte>)
    ensures Encode(d[..0]) == []
  {
  }

  /** Four times `out[windex++] = ...`. */
  method Emit(out: array<Unit>, windex: nat, group: Text)
    requires |group| == 4 && windex + 4 <= out.Length
    modifies out
    ensures out[..windex + 4] == old(out[..windex]) + group
  {
    out[windex] := group[0];
    out[windex + 1] := group[1];
    out[windex + 2] := group[2];
    out[windex + 3] := group[3];
  }

  /** `encode(data, off, len)`: note that `len` serves as an end index. */
  method EncodeRange(data: array<Byte>, off: int, len: int) returns (text: Text)
    requires 0 < len && off < len ==> 0 <= off && len <= data.Length
    ensures text == Encode(if 0 < len && off < len then data[off..len] else [])
  {
    hide Encode, Octet, Group1, Group2, Group3;
    EncodeNothing([]);
    if len <= 0 {
      return [];
    }
    var out := new Unit[len / 3 * 4 + 4];
    var rindex, windex, rest := off, 0, len - off;
    ghost var d := if off < len then data[off..len] else [];
    ghost var groups := 0;
    EncodeNothing(d);
    while rest >= 3
      invariant rindex == off + 3 * groups && rest == len - rindex && (rest < 0 ==> groups == 0)
      invariant 3 * groups <= |d| && 0 <= windex == 4 * groups && windex <= out.Length
      invariant out[..windex] == Encode(d[..3 * groups])
    {
      assert data[rindex] == d[3 * groups];
      assert data[rindex + 1] == d[3 * groups + 1] && data[rindex + 2] == d[3 * groups + 2];
      Emit(out, windex, Group3(Octet(data[rindex]), Octet(data[rindex + 1]), Octet(data[rindex + 2])));
      EncodeStep(d, 3 * groups);
      groups := groups + 1;
      windex := windex + 4;
      rindex := rindex + 3;
      rest := rest - 3;
    }
    EncodeRest(d, 3 * groups);
    assert rest >= 1 ==> data[rindex] == d[3 * groups];
    if rest == 1 {
      Emit(out, windex, Group1(Octet(data[rindex])));
      windex := windex + 4;
    } else if rest == 2 {
      Emit(out, windex, Group2(Octet(data[rindex]), Octet(data[rindex + 1])));
      windex := windex + 4;
    }
    return out[..windex];
  }

  // ---- Decoding ----

  /** The code units `decode` does not skip. */
  predicate Accepted(c: Unit) {
    c == PAD || ValueOf(c) != MAX_VALUE
  }

  function Kept(s: Text): (f: Text)
    ensures |f| <= |s| && forall c :: c in f ==> Accepted(c)
  {
    if s == [] then [] else Kept(s[..|s| - 1]) + if Accepted(s[|s| - 1]) then [s[|s| - 1]] else []
  }

  /** `b0 << 2 & 0xfc | b1 >> 4 & 0x3` */
  function FirstByte(b0: nat, b1: nat): Byte { ToByte(b0 * 4 % 256 + b1 / 16 % 4) }

  /** `b1 << 4 & 0xf0 | b2 >> 2 & 0xf` */
  function SecondByte(b1: nat, b2: nat): Byte { ToByte(b1 * 16 % 256 + b2 / 4 % 16) }

  /** `b2 << 6 & 0xc0 | b3 & 0x3f` */
  function ThirdByte(b2: nat, b3: nat): Byte { ToByte(b2 * 64 % 256 + b3 % 64) }

  /** `decode0`: padding in the third place wins over the fourth; elsewhere it reads as 127. */
  function Group4(g: Text): (d: seq<Byte>)
    requires |g| == 4
    ensures 1 <= |d| <= 3
  {
    var first := FirstByte(ValueOf(g[0]), ValueOf(g[1]));
    var second := SecondByte(ValueOf(g[1]), ValueOf(g[2]));
    if g[2] == PAD then [first]
    else if g[3] == PAD then [first, second]
    else [first, second, ThirdByte(ValueOf(g[2]), ValueOf(g[3]))]
  }

  function DecodeGroups(f: Text): seq<Byte> {
    if |f| < 4 then [] else Group4(f[..4]) + DecodeGroups(f[4..])
  }

  /** What `decode` computes. */
  function Decode(s: Text): seq<Byte> {
    DecodeGroups(Kept(s))
  }

  lemma {:induction false} GroupsSplit(f: Text, g: Text)
    requires |f| % 4 == 0
    ensures DecodeGroups(f + g) == DecodeGroups(f) + DecodeGroups(g)
  {
    hide Group4;
    if f == [] {
      assert f + g == g;
    } else {
      assert (f + g)[..4] == f[..4] && (f + g)[4..] == f[4..] + g;
      GroupsSplit(f[4..], g);
    }
  }

  lemma {:induction false} KeptConcat(s: Text, t: Text)
    ensures Kept(s + t) == Kept(s) + Kept(t)
  {
    if t == [] {
      assert s + t == s;
    } else {
      var n := |t| - 1;
      assert (s + t)[..|s + t| - 1] == s + t[..n];
      KeptConcat(s, t[..n]);
    }
  }

  lemma {:induction false} KeptAll(s: Text)
    requires forall c :: c in s ==> Accepted(c)
    ensures Kept(s) == s
  {
    if s != [] {
      var n := |s| - 1;
      KeptAll(s[..n]);
      assert s[n] in s && s == s[..n] + [s[n]];
    }
  }

  method Decode0(ibuf: array<Unit>, obuf: array<Byte>, table: array<int>, wp: nat) returns (outlen: nat)
    requires ibuf.Length == 4 && (forall k :: 0 <= k < 4 ==> ibuf[k] < 128)
    requires table.Length == 128 && (forall c :: 0 <= c < 128 ==> table[c] == ValueOf(c))
    requires wp + 3 <= obuf.Length
    modifies obuf
    ensures outlen == |Group4(ibuf[..])| && obuf[..wp + outlen] == old(obuf[..wp]) + Group4(ibuf[..])
  {
    hide ValueOf, FirstByte, SecondByte, ThirdByte;
    outlen := 3;
    if ibuf[3] == PAD { outlen := 2; }
    if ibuf[2] == PAD { outlen := 1; }
    var b0, b1, b2, b3 := ValueOf(ibuf[0]), ValueOf(ibuf[1]), ValueOf(ibuf[2]), ValueOf(ibuf[3]);
    assert table[ibuf[0]] == b0 && table[ibuf[1]] == b1 && table[ibuf[2]] == b2 && table[ibuf[3]] == b3;
    obuf[wp] := FirstByte(b0, b1);
    if outlen >= 2 { obuf[wp + 1] := SecondByte(b1, b2); }
    if outlen == 3 { obuf[wp + 2] := ThirdByte(b2, b3); }
  }

  /** The last `n` code units kept so far wait in `ibuf`; what came before is decoded. */
  ghost predicate Buffered(f: Text, waiting: Text, decoded: seq<Byte>) {
    && |waiting| == |f| % 4 && waiting == f[|f| - |waiting|..]
    && decoded == DecodeGroups(f[..|f| - |waiting|])
  }

  lemma BufferMore(f: Text, waiting: Text, decoded: seq<Byte>, ch: Unit)
    requires Buffered(f, waiting, decoded)
    ensures |waiting| < 3 ==> Buffered(f + [ch], waiting + [ch], decoded)
    ensures |waiting| == 3 ==> Buffered(f + [ch], [], decoded + Group4(waiting + [ch]))
  {
    hide Group4, DecodeGroups;
    var whole := f[..|f| - |waiting|];
    var g := waiting + [ch];
    assert f + [ch] == whole + g;
    if |waiting| < 3 {
      assert (f + [ch])[..|f| + 1 - |g|] == whole && (f + [ch])[|f| + 1 - |g|..] == g;
    } else {
      GroupsSplit(whole, g);
      OneGroup(g);
      assert (f + [ch])[..|f| + 1] == f + [ch];
    }
  }

  lemma OneGroup(g: Text)
    requires |g| == 4
    ensures DecodeGroups(g) == Group4(g)
  {
    hide Group4;
    assert g[..4] == g && DecodeGroups(g[4..]) == [];
  }

  lemma ShortGroup(w: Text)
    requires |w| < 4
    ensures DecodeGroups(w) == []
  {
    hide Group4;
  }

  lemma BufferEnd(f: Text, waiting: Text, decoded: seq<Byte>)
    requires Buffered(f, waiting, decoded)
    ensures decoded == DecodeGroups(f)
  {
    hide DecodeGroups, Group4;
    ShortGroup(waiting);
    assert f == f[..|f| - |waiting|] + waiting;
    GroupsSplit(f[..|f| - |waiting|], waiting);
  }

  /** `decode`, on any text; every access is within the buffers. */
  method DecodeText(data: Text) returns (ret: seq<Byte>)
    ensures ret == Decode(data)
  {
    hide ValueOf, Group4, DecodeGroups, Buffered, Kept;
    var table := DecodeTable();
    var ibuf := new Unit[4](_ => 0);
    var obuf := new Byte[|data| / 4 * 3 + 3];
    var ibufcount, obufcount := 0, 0;
    var i := 0;
    ghost var groups := 0;
    DecodeNothing(data);
    while i < |data|
      invariant 0 <= i <= |data| && 0 <= ibufcount < 4
      invariant 0 <= obufcount <= 3 * groups && 4 * groups + ibufcount <= i
      invariant forall k :: 0 <= k < 4 ==> ibuf[k] < 128
      invariant forall c :: 0 <= c < 128 ==> table[c] == ValueOf(c)
      invariant Buffered(Kept(data[..i]), ibuf[..ibufcount], obuf[..obufcount])
    {
      var ch := data[i];
      KeptMore(data, i);
      TableAccepts(table, ch);
      if ch == PAD || (ch < table.Length && table[ch] != MAX_VALUE) {
        BufferMore(Kept(data[..i]), ibuf[..ibufcount], obuf[..obufcount], ch);
        assert ibufcount < 3 ==> ibuf[..ibufcount] + [ch] == ibuf[..][ibufcount := ch][..ibufcount + 1];
        assert ibufcount == 3 ==> ibuf[..ibufcount] + [ch] == ibuf[..][ibufcount := ch];
        ibuf[ibufcount] := ch;
        ibufcount := ibufcount + 1;
        if ibufcount == ibuf.Length {
          ibufcount := 0;
          var n := Decode0(ibuf, obuf, table, obufcount);
          obufcount := obufcount + n;
          groups := groups + 1;
        }
      }
      i := i + 1;
    }
    assert data[..i] == data;
    BufferEnd(Kept(data), ibuf[..ibufcount], obuf[..obufcount]);
    ret := obuf[..obufcount];
  }

  lemma DecodeNothing(data: Text)
    ensures Buffered(Kept(data[..0]), [], [])
  {
    hide Group4;
    assert data[..0] == [] && Kept([]) == [];
  }

  lemma KeptMore(data: Text, i: nat)
    requires i < |data|
    ensures Kept(data[..i + 1]) == if Accepted(data[i]) then Kept(data[..i]) + [data[i]] else Kept(data[..i])
  {
    assert data[..i + 1][..i] == data[..i];
  }

  lemma TableAccepts(table: array<int>, ch: Unit)
    requires table.Length == 128 && forall c :: 0 <= c < 128 ==> table[c] == ValueOf(c)
    ensures Accepted(ch) <==> ch == PAD || (ch < table.Length && table[ch] != MAX_VALUE)
    ensures Accepted(ch) ==> ch < 128
  {
  }

  // ---- Round trips ----

  /** The four sextets of three octets. */
  lemma Sextets(a: nat, b: nat, c: nat)
    requires a < 256 && b < 256 && c < 256
    ensures var i := a * 65536 + b * 256 + c;
      && i / 262144 == a / 4 && i / 4096 % 64 == a % 4 * 16 + b / 16
      && i / 64 % 64 == b % 16 * 4 + c / 64 && i % 64 == c % 64
  {
    var i := a * 65536 + b * 256 + c;
    var s2, s3 := a % 4 * 16 + b / 16, b % 16 * 4 + c / 64;
    var top2 := a / 4 * 64 + s2;
    var top3 := top2 * 64 + s3;
    assert i == top3 * 64 + c % 64;
    Cut64(top3, c % 64);
    Cut64(top2, s3);
    Cut64(a / 4, s2);
    CutTwice(i);
  }

  lemma Cut64(q: nat, r: nat)
    requires r < 64
    ensures (q * 64 + r) / 64 == q && (q * 64 + r) % 64 == r
  {
  }

  lemma CutTwice(i: nat)
    ensures i / 4096 == i / 64 / 64 && i / 262144 == i / 4096 / 64
  {
  }

  lemma SextetsOf2(a: nat, b: nat)
    requires a < 256 && b < 256
    ensures var i := a * 256 + b; i / 1024 == a / 4 && i / 16 % 64 == a % 4 * 16 + b / 16 && i * 4 % 64 == b % 16 * 4
  {
    var i := a * 256 + b;
    var s2 := a % 4 * 16 + b / 16;
    var top := a / 4 * 64 + s2;
    assert i == top * 16 + b % 16;
    assert i / 16 == top && i / 1024 == i / 16 / 64;
    Cut64(a / 4, s2);
    assert i * 4 == top * 64 + b % 16 * 4;
    Cut64(top, b % 16 * 4);
  }

  lemma SextetOf1(a: nat)
    ensures a * 16 % 64 == a % 4 * 16
  {
    assert a * 16 == a / 4 * 64 + a % 4 * 16;
    Cut64(a / 4, a % 4 * 16);
  }

  /** The bits of the sextets p, q, r, t that the bytes take. */
  lemma Joints(p: nat, q: nat, r: nat)
    requires p < 64 && q < 64 && r < 64
    ensures p * 4 % 256 == p * 4 && q / 16 % 4 == q / 16
    ensures q * 16 % 256 == q % 16 * 16 && r / 4 % 16 == r / 4 && r * 64 % 256 == r % 4 * 64
  {
    assert q == q / 16 * 16 + q % 16 && q * 16 == q / 16 * 256 + q % 16 * 16;
    assert r == r / 4 * 4 + r % 4 && r * 64 == r / 4 * 256 + r % 4 * 64;
  }

  /** The bytes that four sextets decode to. */
  lemma Bytes(p: nat, q: nat, r: nat, t: nat)
    requires p < 64 && q < 64 && r < 64 && t < 64
    ensures p * 4 + q / 16 < 256 && FirstByte(p, q) == ToByte(p * 4 + q / 16)
    ensures q % 16 * 16 + r / 4 < 256 && SecondByte(q, r) == ToByte(q % 16 * 16 + r / 4)
    ensures r % 4 * 64 + t < 256 && ThirdByte(r, t) == ToByte(r % 4 * 64 + t)
  {
    hide ToByte;
    Joints(p, q, r);
  }

  /** Putting the sextets together again. */
  lemma Octets(a: nat, b: nat, c: nat)
    requires a < 256 && b < 256 && c < 256
    ensures FirstByte(a / 4, a % 4 * 16 + b / 16) == ToByte(a)
    ensures SecondByte(a % 4 * 16 + b / 16, b % 16 * 4 + c / 64) == ToByte(b)
    ensures ThirdByte(b % 16 * 4 + c / 64, c % 64) == ToByte(c)
  {
    hide ToByte, FirstByte, SecondByte, ThirdByte;
    var q, r := a % 4 * 16 + b / 16, b % 16 * 4 + c / 64;
    Bytes(a / 4, q, r, c % 64);
    assert q / 16 == a % 4 && q % 16 == b / 16 && r / 4 == b % 16 && r % 4 == c / 64;
  }

  lemma DecodesGroup3(x: Byte, y: Byte, z: Byte)
    ensures Group4(Group3(Octet(x), Octet(y), Octet(z))) == [x, y, z]
  {
    hide CharOf, ValueOf, FirstByte, SecondByte, ThirdByte;
    var a, b, c := Octet(x), Octet(y), Octet(z);
    Sextets(a, b, c);
    Octets(a, b, c);
    ValueOfChar(a / 4); ValueOfChar(a % 4 * 16 + b / 16); ValueOfChar(b % 16 * 4 + c / 64); ValueOfChar(c % 64);
  }

  lemma DecodesGroup2(x: Byte, y: Byte)
    ensures Group4(Group2(Octet(x), Octet(y))) == [x, y]
  {
    hide CharOf, ValueOf, FirstByte, SecondByte, ThirdByte;
    var a, b := Octet(x), Octet(y);
    SextetsOf2(a, b);
    Octets(a, b, 0);
    ValueOfChar(a / 4); ValueOfChar(a % 4 * 16 + b / 16); ValueOfChar(b % 16 * 4);
  }

  lemma DecodesGroup1(x: Byte)
    ensures Group4(Group1(Octet(x))) == [x]
  {
    hide CharOf, ValueOf, FirstByte, SecondByte, ThirdByte;
    var a := Octet(x);
    Octets(a, 0, 0);
    SextetOf1(a);
    ValueOfChar(a / 4); ValueOfChar(a % 4 * 16);
  }

  lemma {:induction false} EncodeAccepted(d: seq<Byte>)
    ensures forall c :: c in Encode(d) ==> Accepted(c)
  {
    hide ValueOf, CharOf;
    forall i | 0 <= i < 64 ensures Accepted(CharOf(i)) { ValueOfChar(i); }
    if |d| > 2 { EncodeAccepted(d[3..]); }
  }

  lemma {:induction false} DecodeGroupsEncode(d: seq<Byte>)
    ensures DecodeGroups(Encode(d)) == d
  {
    hide Group1, Group2, Group3, Group4, Octet;
    if |d| == 1 {
      DecodesGroup1(d[0]);
      OneGroup(Encode(d));
    } else if |d| == 2 {
      DecodesGroup2(d[0], d[1]);
      OneGroup(Encode(d));
    } else if |d| > 2 {
      var g := Group3(Octet(d[0]), Octet(d[1]), Octet(d[2]));
      DecodesGroup3(d[0], d[1], d[2]);
      GroupsSplit(g, Encode(d[3..]));
      OneGroup(g);
      DecodeGroupsEncode(d[3..]);
    }
  }

  /** Decoding an encoding gives the bytes back. */
  lemma DecodeEncode(d: seq<Byte>)
    ensures Decode(Encode(d)) == d
  {
    EncodeAccepted(d);
    KeptAll(Encode(d));
    DecodeGroupsEncode(d);
  }

  /** A final group: no padding, or one or two padding characters after a character whose
      pad bits are zero (section 3.5 of RFC 4648). */
  predicate CanonicalLast(g: Text) {
    && |g| == 4 && ValueOf(g[0]) < 64 && ValueOf(g[1]) < 64
    && ((ValueOf(g[2]) < 64 && (ValueOf(g[3]) < 64 || (g[3] == PAD && ValueOf(g[2]) % 4 == 0)))
        || (g[2] == PAD && g[3] == PAD && ValueOf(g[1]) % 16 == 0))
  }

  predicate Canonical(s: Text) {
    s == [] || CanonicalLast(s) ||
    (|s| > 4 && (forall k :: 0 <= k < 4 ==> ValueOf(s[k]) < 64) && Canonical(s[4..]))
  }

  lemma {:induction false} EncodesGroup(g: Text)
    requires CanonicalLast(g)
    ensures Encode(Group4(g)) == g
    ensures ValueOf(g[2]) < 64 && ValueOf(g[3]) < 64 ==> |Group4(g)| == 3
    ensures forall c :: c in g ==> Accepted(c)
  {
    hide CharOf, ValueOf;
    var p, q, r, t := ValueOf(g[0]), ValueOf(g[1]), ValueOf(g[2]), ValueOf(g[3]);
    CharOfValue(g[0]);
    CharOfValue(g[1]);
    PadValue();
    if r < 64 && t < 64 {
      CharOfValue(g[2]);
      CharOfValue(g[3]);
      Encodes3(p, q, r, t);
    } else if r < 64 {
      CharOfValue(g[2]);
      Encodes2(p, q, r);
    } else {
      Encodes1(p, q);
    }
  }

  lemma Encodes3(p: nat, q: nat, r: nat, t: nat)
    requires p < 64 && q < 64 && r < 64 && t < 64
    ensures Encode([FirstByte(p, q), SecondByte(q, r), ThirdByte(r, t)]) == [CharOf(p), CharOf(q), CharOf(r), CharOf(t)]
  {
    hide CharOf, FirstByte, SecondByte, ThirdByte;
    Bytes(p, q, r, t);
    var a, b, c := p * 4 + q / 16, q % 16 * 16 + r / 4, r % 4 * 64 + t;
    OctetOf(a); OctetOf(b); OctetOf(c);
    hide ToByte, Octet;
    Sextets(a, b, c);
    Splits(p, q, r, t);
    assert [FirstByte(p, q), SecondByte(q, r), ThirdByte(r, t)][3..] == [] && Encode([]) == [];
  }

  lemma Splits(p: nat, q: nat, r: nat, t: nat)
    requires p < 64 && q < 64 && r < 64 && t < 64
    ensures var a, b, c := p * 4 + q / 16, q % 16 * 16 + r / 4, r % 4 * 64 + t;
      a / 4 == p && a % 4 * 16 + b / 16 == q && b % 16 * 4 + c / 64 == r && c % 64 == t
  {
    var a, b, c := p * 4 + q / 16, q % 16 * 16 + r / 4, r % 4 * 64 + t;
    assert a / 4 == p && a % 4 == q / 16 && b / 16 == q % 16 && b % 16 == r / 4 && c / 64 == r % 4;
  }

  lemma Encodes2(p: nat, q: nat, r: nat)
    requires p < 64 && q < 64 && r < 64 && r % 4 == 0
    ensures Encode([FirstByte(p, q), SecondByte(q, r)]) == [CharOf(p), CharOf(q), CharOf(r), PAD]
  {
    hide CharOf, FirstByte, SecondByte, ThirdByte;
    Bytes(p, q, r, 0);
    var a, b := p * 4 + q / 16, q % 16 * 16 + r / 4;
    OctetOf(a); OctetOf(b);
    hide ToByte, Octet;
    SextetsOf2(a, b);
    Splits(p, q, r, 0);
  }

  lemma Encodes1(p: nat, q: nat)
    requires p < 64 && q < 64 && q % 16 == 0
    ensures Encode([FirstByte(p, q)]) == [CharOf(p), CharOf(q), PAD, PAD]
  {
    hide CharOf, FirstByte, SecondByte, ThirdByte;
    Bytes(p, q, 0, 0);
    var a := p * 4 + q / 16;
    OctetOf(a);
    hide ToByte, Octet;
    Splits(p, q, 0, 0);
    SextetOf1(a);
  }

  lemma PadValue()
    ensures ValueOf(PAD) == MAX_VALUE
  {
  }

  lemma OctetOf(o: nat)
    requires o < 256
    ensures Octet(ToByte(o)) == o
  {
  }

  lemma {:induction false} EncodeDecodeGroups(s: Text)
    requires Canonical(s)
    ensures Encode(DecodeGroups(s)) == s && forall c :: c in s ==> Accepted(c)
  {
    hide Group4, CanonicalLast, Encode, ValueOf;
    if CanonicalLast(s) {
      assert |s| == 4 by { LastHasFour(s); }
      EncodesGroup(s);
      OneGroup(s);
    } else if s != [] {
      var g := s[..4];
      assert CanonicalLast(g) by { FullGroup(g); }
      EncodesGroup(g);
      EncodeDecodeGroups(s[4..]);
      EncodeSplit(Group4(g), DecodeGroups(s[4..]));
      assert s == g + s[4..];
    } else {
      EncodeNothing([]);
    }
  }

  lemma LastHasFour(g: Text)
    requires CanonicalLast(g)
    ensures |g| == 4
  {
  }

  lemma FullGroup(g: Text)
    requires |g| == 4 && forall k :: 0 <= k < 4 ==> ValueOf(g[k]) < 64
    ensures CanonicalLast(g)
  {
  }

  /** Encoding a decoding gives a canonical text back. */
  lemma EncodeDecode(s: Text)
    requires Canonical(s)
    ensures Encode(Decode(s)) == s
  {
    EncodeDecodeGroups(s);
    KeptAll(s);
  }

  // ---- What decoding depends on ----

  /** A code unit that is neither in the alphabet nor padding changes nothing, wherever it stands. */
  lemma NoiseIsIgnored(s: Text, noise: Unit, t: Text)
    requires !Accepted(noise)
    ensures Decode(s + [noise] + t) == Decode(s + t)
  {
    hide Accepted, DecodeGroups;
    KeptConcat(s + [noise], t);
    KeptConcat(s, [noise]);
    KeptConcat(s, t);
    assert [noise][..0] == [] && Kept([noise][..0]) == [];
    assert Kept([noise]) == [];
    assert Kept(s) + [] == Kept(s);
  }

  /** Decoding distributes over concatenation at a group boundary. */
  lemma DecodeConcat(s: Text, t: Text)
    requires |Kept(s)| % 4 == 0
    ensures Decode(s + t) == Decode(s) + Decode(t)
  {
    KeptConcat(s, t);
    GroupsSplit(Kept(s), Kept(t));
  }

  /** An incomplete last group is dropped. */
  lemma IncompleteGroupIsDropped(s: Text, t: Text)
    requires |Kept(s)| % 4 == 0 && |Kept(t)| < 4
    ensures Decode(s + t) == Decode(s)
  {
    DecodeConcat(s, t);
  }

  // ---- RFC 4648, section 4, bit by bit ----

  function Bits(o: nat): (bits: seq<nat>)
    ensures |bits| == 8
  {
    [o / 128 % 2, o / 64 % 2, o / 32 % 2, o / 16 % 2, o / 8 % 2, o / 4 % 2, o / 2 % 2, o % 2]
  }

  /** Table 1 of RFC 4648. */
  const ALPHABET: string := "ABCDEFGHIJKLMNOPQRSTUVWXYZ" + "abcdefghijklmnopqrstuvwxyz" + "0123456789" + "+/"

  /** The code unit of Table 1 with this value. */
  function Letter(i: nat): Unit
    requires i < 64
  {
    assert |ALPHABET| == 64;
    ALPHABET[i] as int % 0x10000
  }

  const EQUALS: Unit := '=' as int % 0x10000

  /** The bits of a signed byte in two's complement: the first one counts negative. */
  function SignedBits(b: Byte): (x: seq<nat>)
    ensures |x| == 8
  {
    var low: nat := if b < 0 then b + 128 else b;
    [if b < 0 then 1 else 0, low / 64, low / 32 % 2, low / 16 % 2, low / 8 % 2, low / 4 % 2, low / 2 % 2, low % 2]
  }

  lemma SignedBitsMake(b: Byte)
    ensures var x := SignedBits(b);
      && (forall i :: 0 <= i < 8 ==> x[i] < 2)
      && b + 128 * x[0] == 64 * x[1] + 32 * x[2] + 16 * x[3] + 8 * x[4] + 4 * x[5] + 2 * x[6] + x[7]
  {
    var low: nat := if b < 0 then b + 128 else b;
    Halves(low);
    assert low / 64 < 2;
  }

  lemma Halves(o: nat)
    ensures o / 2 / 2 == o / 4 && o / 4 / 2 == o / 8 && o / 8 / 2 == o / 16
    ensures o / 16 / 2 == o / 32 && o / 32 / 2 == o / 64 && o / 64 / 2 == o / 128
  {
  }

  /** For all that the encoder masks a byte first, the bits are those of the byte. */
  lemma SignedIsOctet(b: Byte)
    ensures SignedBits(b) == Bits(Octet(b))
  {
    var low: nat := if b < 0 then b + 128 else b;
    LowBits(low);
    HighBit(low);
  }

  lemma LowBits(low: nat)
    requires low < 128
    ensures low / 128 % 2 == 0 && low / 64 % 2 == low / 64
  {
  }

  lemma HighBit(low: nat)
    requires low < 128
    ensures var o := low + 128;
      && o / 128 % 2 == 1 && o / 64 % 2 == low / 64 && o / 32 % 2 == low / 32 % 2 && o / 16 % 2 == low / 16 % 2
      && o / 8 % 2 == low / 8 % 2 && o / 4 % 2 == low / 4 % 2 && o / 2 % 2 == low / 2 % 2 && o % 2 == low % 2
  {
    var o := low + 128;
    assert o / 64 == low / 64 + 2 && o / 32 == low / 32 + 4 && o / 16 == low / 16 + 8;
    assert o / 8 == low / 8 + 16 && o / 4 == low / 4 + 32 && o / 2 == low / 2 + 64;
  }

  function AllBits(d: seq<Byte>): seq<nat> {
    if d == [] then [] else SignedBits(d[0]) + AllBits(d[1..])
  }

  /** The value of six bits, the first the most significant; missing ones are zero. */
  function Sextet(bits: seq<nat>): nat {
    var b := bits + [0, 0, 0, 0, 0, 0];
    b[0] * 32 + b[1] * 16 + b[2] * 8 + b[3] * 4 + b[4] * 2 + b[5]
  }

  /** One character for each six bits. */
  function Characters(bits: seq<nat>): Text {
    if bits == [] then []
    else if |bits| <= 6 then [Letter(Sextet(bits) % 64)]
    else [Letter(Sextet(bits[..6]) % 64)] + Characters(bits[6..])
  }

  /** Padding to a multiple of four characters. */
  function Padding(rest: nat): Text {
    match rest case 0 => [] case 1 => [EQUALS, EQUALS, EQUALS] case 2 => [EQUALS, EQUALS] case _ => [EQUALS]
  }

  function Padded(s: Text): Text {
    s + Padding(|s| % 4)
  }

  /** The encoder's alphabet is Table 1, and its padding the equals sign. */
  lemma AlphabetIsTable1(i: nat)
    requires i < 64
    ensures CharOf(i) == Letter(i) && PAD == EQUALS && ValueOf(Letter(i)) == i && Letter(i) != EQUALS
  {
    Capitals(i);
    SmallLetters(i);
    Digits(i);
  }

  lemma Capitals(i: nat)
    ensures i < 26 ==> ALPHABET[i] as int == 65 + i
  {
  }

  lemma SmallLetters(i: nat)
    ensures 26 <= i < 52 ==> ALPHABET[i] as int == 97 + (i - 26)
  {
  }

  lemma Digits(i: nat)
    ensures 52 <= i < 62 ==> ALPHABET[i] as int == 48 + (i - 52)
    ensures ALPHABET[62] as int == 43 && ALPHABET[63] as int == 47
  {
  }

  /** The text of section 4 of RFC 4648: the bits of the octets, six to a character, zero
      bits added on the right, and padding to a multiple of four characters. */
  function RfcText(d: seq<Byte>): Text {
    Padded(Characters(AllBits(d)))
  }

  lemma CharactersStep(six: seq<nat>, rest: seq<nat>, v: nat)
    requires |six| == 6 && Sextet(six) == v < 64
    ensures Characters(six + rest) == [CharOf(v)] + Characters(rest)
  {
    hide CharOf, Sextet, Letter;
    AlphabetIsTable1(v);
    if rest == [] {
      assert six + rest == six;
    } else {
      assert (six + rest)[..6] == six && (six + rest)[6..] == rest;
    }
  }

  lemma LastCharacter(bits: seq<nat>, v: nat)
    requires 0 < |bits| <= 6 && Sextet(bits) == v < 64
    ensures Characters(bits) == [CharOf(v)]
  {
    hide CharOf, Sextet, Letter;
    AlphabetIsTable1(v);
  }

  /** What the bits of an octet make together, whole or in part. */
  ghost predicate BitsMake(x: seq<nat>, o: nat) {
    && |x| == 8
    && x[0] * 32 + x[1] * 16 + x[2] * 8 + x[3] * 4 + x[4] * 2 + x[5] == o / 4 && x[6] * 2 + x[7] == o % 4
    && x[0] * 8 + x[1] * 4 + x[2] * 2 + x[3] == o / 16 && x[4] * 8 + x[5] * 4 + x[6] * 2 + x[7] == o % 16
    && x[0] * 2 + x[1] == o / 64 && x[2] * 32 + x[3] * 16 + x[4] * 8 + x[5] * 4 + x[6] * 2 + x[7] == o % 64
  }

  lemma BitsOf(o: nat)
    requires o < 256
    ensures BitsMake(Bits(o), o)
  {
    Halves(o);
    assert o / 128 < 2;
  }

  lemma Cuts3(x: seq<nat>, y: seq<nat>, z: seq<nat>, a: nat, b: nat, c: nat)
    requires BitsMake(x, a) && BitsMake(y, b) && BitsMake(z, c)
    ensures Sextet(x[..6]) == a / 4 && Sextet(x[6..] + y[..4]) == a % 4 * 16 + b / 16
    ensures Sextet(y[4..] + z[..2]) == b % 16 * 4 + c / 64 && Sextet(z[2..]) == c % 64
    ensures Sextet(y[4..]) == b % 16 * 4 && Sextet(x[6..]) == a % 4 * 16
  {
  }

  lemma Characters3(a: nat, b: nat, c: nat, rest: seq<nat>)
    requires a < 256 && b < 256 && c < 256
    ensures Characters(Bits(a) + (Bits(b) + (Bits(c) + rest))) == Group3(a, b, c) + Characters(rest)
  {
    hide CharOf, Characters, Bits, BitsMake, Sextet;
    var x, y, z := Bits(a), Bits(b), Bits(c);
    var s1, s2, s3, s4 := x[..6], x[6..] + y[..4], y[4..] + z[..2], z[2..];
    BitsOf(a); BitsOf(b); BitsOf(c);
    Cuts3(x, y, z, a, b, c);
    Sextets(a, b, c);
    assert x + (y + (z + rest)) == s1 + (s2 + (s3 + (s4 + rest)));
    CharactersStep(s1, s2 + (s3 + (s4 + rest)), a / 4);
    CharactersStep(s2, s3 + (s4 + rest), a % 4 * 16 + b / 16);
    CharactersStep(s3, s4 + rest, b % 16 * 4 + c / 64);
    CharactersStep(s4, rest, c % 64);
  }

  lemma Characters2(a: nat, b: nat)
    requires a < 256 && b < 256
    ensures Padded(Characters(Bits(a) + Bits(b))) == Group2(a, b)
  {
    hide CharOf, Characters, Bits, BitsMake, Sextet;
    var x, y := Bits(a), Bits(b);
    var s1, s2, s3 := x[..6], x[6..] + y[..4], y[4..];
    BitsOf(a); BitsOf(b);
    Cuts3(x, y, y, a, b, b);
    SextetsOf2(a, b);
    assert x + y == s1 + (s2 + s3);
    CharactersStep(s1, s2 + s3, a / 4);
    CharactersStep(s2, s3, a % 4 * 16 + b / 16);
    LastCharacter(s3, b % 16 * 4);
  }

  lemma Characters1(a: nat)
    requires a < 256
    ensures Padded(Characters(Bits(a))) == Group1(a)
  {
    hide CharOf, Characters, Bits, BitsMake, Sextet;
    var x := Bits(a);
    var s1, s2 := x[..6], x[6..];
    BitsOf(a);
    Cuts3(x, x, x, a, a, a);
    assert x == s1 + s2;
    CharactersStep(s1, s2, a / 4);
    LastCharacter(s2, a % 4 * 16);
    SextetOf1(a);
  }

  lemma PaddedAfterGroup(g: Text, s: Text)
    requires |g| == 4
    ensures Padded(g + s) == g + Padded(s)
  {
    hide Padding;
    assert |g + s| % 4 == |s| % 4;
    assert (g + s) + Padding(|s| % 4) == g + (s + Padding(|s| % 4));
  }

  /** `encode(d)` is the text of section 4 of RFC 4648. */
  lemma {:induction false} EncodeIsRfcText(d: seq<Byte>)
    ensures Encode(d) == RfcText(d)
  {
    hide CharOf, Characters, Bits, SignedBits, Group1, Group2, Group3, Octet, Padded;
    if |d| >= 1 { SignedIsOctet(d[0]); }
    if |d| >= 2 { SignedIsOctet(d[1]); }
    if |d| >= 3 { SignedIsOctet(d[2]); }
    if |d| == 0 {
      NothingToEncode();
    } else if |d| == 1 {
      assert AllBits(d) == Bits(Octet(d[0])) + [] == Bits(Octet(d[0])) by { assert d[1..] == []; }
      Characters1(Octet(d[0]));
    } else if |d| == 2 {
      assert AllBits(d) == Bits(Octet(d[0])) + Bits(Octet(d[1])) by {
        assert d[1..][1..] == [] && AllBits(d[1..]) == Bits(Octet(d[1])) + [];
      }
      Characters2(Octet(d[0]), Octet(d[1]));
    } else {
      var a, b, c := Octet(d[0]), Octet(d[1]), Octet(d[2]);
      assert d[1..][1..] == d[2..] && d[2..][1..] == d[3..];
      assert AllBits(d[2..]) == SignedBits(d[2]) + AllBits(d[3..]);
      assert AllBits(d[1..]) == SignedBits(d[1]) + AllBits(d[2..]);
      assert AllBits(d) == Bits(a) + (Bits(b) + (Bits(c) + AllBits(d[3..])));
      Characters3(a, b, c, AllBits(d[3..]));
      PaddedAfterGroup(Group3(a, b, c), Characters(AllBits(d[3..])));
      EncodeIsRfcText(d[3..]);
    }
  }

  lemma NothingToEncode()
    ensures RfcText([]) == []
  {
  }

  // ---- Decoding, bit by bit ----

  /** The six bits of a value. */
  function Six(v: nat): (bits: seq<nat>)
    ensures |bits| == 6
  {
    [v / 32 % 2, v / 16 % 2, v / 8 % 2, v / 4 % 2, v / 2 % 2, v % 2]
  }

  function Four(v: nat): seq<nat> { [v / 8 % 2, v / 4 % 2, v / 2 % 2, v % 2] }

  lemma BitsOfHalves(h: nat, l: nat)
    requires h < 16 && l < 16
    ensures Bits(h * 16 + l) == Four(h) + Four(l)
  {
    var o := h * 16 + l;
    assert o / 16 == h && o / 128 == h / 8 && o / 64 == h / 4 && o / 32 == h / 2;
    assert o / 8 == h * 2 + l / 8 && o / 4 == h * 4 + l / 4 && o / 2 == h * 8 + l / 2;
  }

  function Two(v: nat): (bits: seq<nat>)
    ensures |bits| == 2
  {
    [v / 2 % 2, v % 2]
  }

  lemma SixFrom24(h: nat, l: nat)
    requires h < 4 && l < 16
    ensures Six(h * 16 + l) == Two(h) + Four(l)
  {
    var v := h * 16 + l;
    assert v / 16 == h && v / 32 == h / 2 && v / 8 == h * 2 + l / 8 && v / 4 == h * 4 + l / 4 && v / 2 == h * 8 + l / 2;
  }

  lemma SixFrom42(h: nat, l: nat)
    requires h < 16 && l < 4
    ensures Six(h * 4 + l) == Four(h) + Two(l)
  {
    var v := h * 4 + l;
    assert v / 4 == h && v / 32 == h / 8 && v / 16 == h / 4 && v / 8 == h / 2 && v / 2 == h * 2 + l / 2;
  }

  lemma FourFrom22(h: nat, l: nat)
    requires h < 4 && l < 4
    ensures Four(h * 4 + l) == Two(h) + Two(l)
  {
    var v := h * 4 + l;
    assert v / 8 == h / 2 && v / 4 == h && v / 2 == h * 2 + l / 2;
  }

  lemma SixCut(v: nat)
    requires v < 64
    ensures Six(v) == Four(v / 4) + Two(v % 4) == Two(v / 16) + Four(v % 16)
  {
    hide Six, Four, Two;
    SixFrom24(v / 16, v % 16);
    SixFrom42(v / 4, v % 4);
  }

  lemma FirstBits(p: nat, q: nat)
    requires p < 64 && q < 64
    ensures Bits(p * 4 + q / 16) == Six(p) + Six(q)[..2]
  {
    hide Bits, Six, Four, Two;
    SixCut(p);
    SixCut(q);
    assert p * 4 + q / 16 == p / 4 * 16 + (p % 4 * 4 + q / 16);
    BitsOfHalves(p / 4, p % 4 * 4 + q / 16);
    FourFrom22(p % 4, q / 16);
  }

  lemma SecondBits(q: nat, r: nat)
    requires q < 64 && r < 64
    ensures Bits(q % 16 * 16 + r / 4) == Six(q)[2..] + Six(r)[..4]
  {
    hide Bits, Six, Two;
    SixCut(q);
    SixCut(r);
    BitsOfHalves(q % 16, r / 4);
  }

  lemma ThirdBits(r: nat, t: nat)
    requires r < 64 && t < 64
    ensures Bits(r % 4 * 64 + t) == Six(r)[4..] + Six(t)
  {
    hide Bits, Six, Two;
    SixCut(r);
    SixCut(t);
    assert r % 4 * 64 + t == (r % 4 * 4 + t / 16) * 16 + t % 16;
    BitsOfHalves(r % 4 * 4 + t / 16, t % 16);
    FourFrom22(r % 4, t / 16);
  }

  lemma BytesOfBits(o: nat)
    requires o < 256
    ensures SignedBits(ToByte(o)) == Bits(o)
  {
    hide SignedBits, Bits;
    SignedIsOctet(ToByte(o));
    OctetOf(o);
  }

  /** Four characters of the alphabet decode to the bytes with their bits; before padding the
      bits that make no whole byte are dropped, whatever they are. */
  lemma GroupTakesBits(p: nat, q: nat, r: nat, t: nat, last: Unit)
    requires p < 64 && q < 64 && r < 64 && t < 64
    ensures AllBits(Group4([Letter(p), Letter(q), Letter(r), Letter(t)])) == Six(p) + Six(q) + Six(r) + Six(t)
    ensures AllBits(Group4([Letter(p), Letter(q), Letter(r), EQUALS])) == (Six(p) + Six(q) + Six(r))[..16]
    ensures AllBits(Group4([Letter(p), Letter(q), EQUALS, last])) == (Six(p) + Six(q))[..8]
  {
    hide Letter, CharOf, FirstByte, SecondByte, ThirdByte, ToByte, SignedBits, Bits, Six, ValueOf;
    AlphabetIsTable1(p); AlphabetIsTable1(q); AlphabetIsTable1(r); AlphabetIsTable1(t);
    Bytes(p, q, r, t);
    BytesOfBits(p * 4 + q / 16); BytesOfBits(q % 16 * 16 + r / 4); BytesOfBits(r % 4 * 64 + t);
    FirstBits(p, q); SecondBits(q, r); ThirdBits(r, t);
    BitsOf1(FirstByte(p, q));
    BitsOf2(FirstByte(p, q), SecondByte(q, r));
    BitsOf3(FirstByte(p, q), SecondByte(q, r), ThirdByte(r, t));
    assert Group4([Letter(p), Letter(q), EQUALS, last]) == [FirstByte(p, q)];
  }

  lemma BitsOf1(a: Byte)
    ensures AllBits([a]) == SignedBits(a)
  {
    assert [a][1..] == [];
  }

  lemma BitsOf2(a: Byte, b: Byte)
    ensures AllBits([a, b]) == SignedBits(a) + SignedBits(b)
  {
    BitsOf1(b);
    assert [a, b][1..] == [b];
  }

  lemma BitsOf3(a: Byte, b: Byte, c: Byte)
    ensures AllBits([a, b, c]) == SignedBits(a) + SignedBits(b) + SignedBits(c)
  {
    BitsOf2(b, c);
    assert [a, b, c][1..] == [b, c];
  }

  /** Decoding reads the text of the RFC back. */
  lemma DecodeReadsRfcText(d: seq<Byte>)
    ensures Decode(RfcText(d)) == d
  {
    EncodeIsRfcText(d);
    DecodeEncode(d);
  }

  ghost predicate InTable1(c: Unit) {
    exists i :: 0 <= i < 64 && Letter(i) == c
  }

  /** What decoding does not skip are the characters of Table 1 and the equals sign. */
  lemma AcceptedIsTable1(c: Unit)
    ensures Accepted(c) <==> InTable1(c) || c == EQUALS
  {
    hide Letter, CharOf;
    AlphabetIsTable1(0);
    if ValueOf(c) != MAX_VALUE {
      CharOfValue(c);
      AlphabetIsTable1(ValueOf(c));
    }
    if i :| 0 <= i < 64 && Letter(i) == c {
      AlphabetIsTable1(i);
    }
  }
}
