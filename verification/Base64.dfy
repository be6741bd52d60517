/**
 The two base64 encoders of the repository, each in its own loop, and the
 strict decoder of section 4 of RFC 4648 that both are measured against.

 Bytes are numbers below 256: a right shift by k is division by 2^k, a mask is
 a remainder, and joining disjoint bit fields is addition.
 */
module Base64 {
  import opened Wrappers
  import opened Sequences

  type byte = n: nat | n < 256
  type sextet = n: nat | n < 64

  /** One output position: six bits of data, or the pad. */
  datatype Symbol = Digit(value: sextet) | Pad

  // ------------------------------------------------------------------
  // Table 1 of RFC 4648
  // ------------------------------------------------------------------

  function CharOf(s: Symbol): char {
    match s
    case Pad => '='
    case Digit(x) =>
      if x < 26 then (x + 65) as char
      else if x < 52 then (x + 71) as char
      else if x < 62 then (x - 4) as char
      else if x == 62 then '+' else '/'
  }

  function SymbolOf(c: char): Option<Symbol> {
    if 'A' <= c <= 'Z' then Some(Digit(c as int - 65))
    else if 'a' <= c <= 'z' then Some(Digit(c as int - 71))
    else if '0' <= c <= '9' then Some(Digit(c as int + 4))
    else if c == '+' then Some(Digit(62))
    else if c == '/' then Some(Digit(63))
    else if c == '=' then Some(Pad)
    else None
  }

  lemma TableIsBijective(s: Symbol, c: char)
    ensures SymbolOf(c) == Some(s) <==> c == CharOf(s)
  {}

  function Text(symbols: seq<Symbol>): (s: string)
    ensures |s| == |symbols|
    ensures forall i :: 0 <= i < |s| ==> s[i] == CharOf(symbols[i])
  {
    seq(|symbols|, i requires 0 <= i < |symbols| => CharOf(symbols[i]))
  }

  function Parse(s: string): (r: Option<seq<Symbol>>)
    ensures r.Some? ==> |r.value| == |s|
  {
    if s == [] then Some([])
    else
      var head, tail := SymbolOf(s[0]), Parse(s[1..]);
      if head.None? || tail.None? then None else Some([head.value] + tail.value)
  }

  lemma TextCons(symbols: seq<Symbol>)
    requires symbols != []
    ensures Text(symbols) == [CharOf(symbols[0])] + Text(symbols[1..])
  {}

  lemma ParseCons(s: string, symbols: seq<Symbol>)
    requires s != [] && symbols != []
    ensures Parse(s) == Some(symbols) <==> SymbolOf(s[0]) == Some(symbols[0]) && Parse(s[1..]) == Some(symbols[1..])
  {
    assert symbols == [symbols[0]] + symbols[1..];
  }

  lemma {:induction false} ParseIffText(s: string, symbols: seq<Symbol>)
    ensures Parse(s) == Some(symbols) <==> s == Text(symbols)
    decreases |s|
  {
    if s != [] && symbols != [] {
      ParseCons(s, symbols);
      TableIsBijective(symbols[0], s[0]);
      ParseIffText(s[1..], symbols[1..]);
      TextCons(symbols);
      assert s == [s[0]] + s[1..];
    }
  }

  // ------------------------------------------------------------------
  // Groups of three bytes and four symbols
  // ------------------------------------------------------------------

  /** The four sextets of the 24-bit group a, b, c. */
  function Group(a: byte, b: byte, c: byte): seq<Symbol> {
    [Digit(a / 4), Digit(a % 4 * 16 + b / 16), Digit(b % 16 * 4 + c / 64), Digit(c % 64)]
  }

  function Encoded(data: seq<byte>): seq<Symbol> {
    if data == [] then []
    else if |data| == 1 then Group(data[0], 0, 0)[..2] + [Pad, Pad]
    else if |data| == 2 then Group(data[0], data[1], 0)[..3] + [Pad]
    else Group(data[0], data[1], data[2]) + Encoded(data[3..])
  }

  function Encode(data: seq<byte>): string {
    Text(Encoded(data))
  }

  /** The bytes of the last group; non-zero pad bits are refused (section 3.5). */
  function LastGroup(q: seq<Symbol>): Option<seq<byte>>
    requires |q| == 4
  {
    match (q[0], q[1], q[2], q[3])
    case (Digit(s0), Digit(s1), Pad, Pad) =>
      if s1 % 16 == 0 then Some([s0 * 4 + s1 / 16]) else None
    case (Digit(s0), Digit(s1), Digit(s2), Pad) =>
      if s2 % 4 == 0 then Some([s0 * 4 + s1 / 16, s1 % 16 * 16 + s2 / 4]) else None
    case _ => FullGroup(q)
  }

  function FullGroup(q: seq<Symbol>): Option<seq<byte>>
    requires |q| == 4
  {
    match (q[0], q[1], q[2], q[3])
    case (Digit(s0), Digit(s1), Digit(s2), Digit(s3)) =>
      Some([s0 * 4 + s1 / 16, s1 % 16 * 16 + s2 / 4, s2 % 4 * 64 + s3])
    case _ => None
  }

  function Decoded(s: seq<Symbol>): Option<seq<byte>> {
    if s == [] then Some([])
    else if |s| < 4 then None
    else if |s| == 4 then LastGroup(s)
    else
      var head, tail := FullGroup(s[..4]), Decoded(s[4..]);
      if head.None? || tail.None? then None else Some(head.value + tail.value)
  }

  function Decode(s: string): Option<seq<byte>> {
    var symbols := Parse(s);
    if symbols.None? then None else Decoded(symbols.value)
  }

  // ------------------------------------------------------------------
  // Round trips
  // ------------------------------------------------------------------

  lemma GroupBits(a: byte, b: byte, c: byte)
    ensures var q := Group(a, b, c);
            && FullGroup(q) == Some([a, b, c])
            && (c == 0 ==> LastGroup([q[0], q[1], q[2], Pad]) == Some([a, b]))
            && (b == c == 0 ==> LastGroup([q[0], q[1], Pad, Pad]) == Some([a]))
  {}

  lemma UnpaddedLastGroup(q: seq<Symbol>)
    requires |q| == 4 && q[3].Digit?
    ensures LastGroup(q) == FullGroup(q)
  {}

  lemma {:induction false} DecodedEncoded(data: seq<byte>)
    ensures Decoded(Encoded(data)) == Some(data)
  {
    if data == [] {
    } else if |data| == 1 {
      var q := Group(data[0], 0, 0);
      GroupBits(data[0], 0, 0);
      assert Encoded(data) == [q[0], q[1], Pad, Pad] && data == [data[0]];
    } else if |data| == 2 {
      var q := Group(data[0], data[1], 0);
      GroupBits(data[0], data[1], 0);
      assert Encoded(data) == [q[0], q[1], q[2], Pad] && data == [data[0], data[1]];
    } else {
      var q, rest := Group(data[0], data[1], data[2]), Encoded(data[3..]);
      GroupBits(data[0], data[1], data[2]);
      UnpaddedLastGroup(q);
      DecodedEncoded(data[3..]);
      assert data == [data[0], data[1], data[2]] + data[3..];
      if rest == [] {
        assert Encoded(data) == q && data == [data[0], data[1], data[2]];
      } else {
        assert (q + rest)[..4] == q && (q + rest)[4..] == rest;
      }
    }
  }

  lemma FullGroupBits(q: seq<Symbol>)
    requires |q| == 4 && FullGroup(q).Some?
    ensures var b := FullGroup(q).value; Group(b[0], b[1], b[2]) == q
  {
    Regroup(q[0].value, q[1].value, q[2].value, q[3].value);
  }

  lemma Regroup(s0: sextet, s1: sextet, s2: sextet, s3: sextet)
    ensures (s0 * 4 + s1 / 16) / 4 == s0
    ensures (s0 * 4 + s1 / 16) % 4 * 16 + (s1 % 16 * 16 + s2 / 4) / 16 == s1
    ensures (s1 % 16 * 16 + s2 / 4) % 16 * 4 + (s2 % 4 * 64 + s3) / 64 == s2
    ensures (s2 % 4 * 64 + s3) % 64 == s3
  {}

  lemma LastGroupBits(q: seq<Symbol>)
    requires |q| == 4 && LastGroup(q).Some?
    ensures Encoded(LastGroup(q).value) == q
  {
    var b := LastGroup(q).value;
    if q[3] != Pad {
      FullGroupBits(q);
      assert b[3..] == [];
    } else if q[2] != Pad {
      FullGroupBits([q[0], q[1], q[2], Digit(0)]);
    } else {
      FullGroupBits([q[0], q[1], Digit(0), Digit(0)]);
    }
  }

  lemma {:induction false} EncodedDecoded(s: seq<Symbol>)
    requires Decoded(s).Some?
    ensures Encoded(Decoded(s).value) == s
  {
    if |s| == 4 {
      LastGroupBits(s);
    } else if s != [] {
      var head, tail := FullGroup(s[..4]).value, Decoded(s[4..]).value;
      FullGroupBits(s[..4]);
      EncodedDecoded(s[4..]);
      assert (head + tail)[3..] == tail;
      assert s == s[..4] + s[4..];
    }
  }

  /**
   A string decodes to some bytes exactly when it is their encoding: decoding
   an encoding gives the input back, and no other string does.
   */
  lemma DecodeIffEncode(s: string, data: seq<byte>)
    ensures Decode(s) == Some(data) <==> s == Encode(data)
  {
    ParseIffText(s, Encoded(data));
    DecodedEncoded(data);
    if Decode(s) == Some(data) {
      EncodedDecoded(Parse(s).value);
    }
  }

  /** Four characters for every started group of three bytes. */
  lemma {:induction false} EncodeLength(data: seq<byte>)
    ensures |Encode(data)| == 4 * ((|data| + 2) / 3)
  {
    if |data| > 2 { EncodeLength(data[3..]); }
  }

  lemma EncodedCons(data: seq<byte>)
    requires |data| >= 3
    ensures Encoded(data) == Group(data[0], data[1], data[2]) + Encoded(data[3..])
  {}

  /** Encoding splits at any multiple of three bytes. */
  lemma {:induction false} EncodedAppend(data: seq<byte>, more: seq<byte>)
    requires |data| % 3 == 0
    ensures Encoded(data + more) == Encoded(data) + Encoded(more)
  {
    if data == [] {
      assert data + more == more;
    } else {
      EncodedAppend(data[3..], more);
      EncodedCons(data);
      EncodedCons(data + more);
      assert (data + more)[3..] == data[3..] + more;
      AppendAssoc(Group(data[0], data[1], data[2]), Encoded(data[3..]), Encoded(more));
    }
  }

  /** Appending one group of at most three bytes appends its four characters. */
  lemma EncodeNextGroup(data: seq<byte>, i: nat, end: nat)
    requires i < end <= |data| && i % 3 == 0
    requires end == i + 3 || end == |data| < i + 3
    ensures var b := if i + 1 < end then data[i + 1] else 0;
            var c := if i + 2 < end then data[i + 2] else 0;
            var q := Group(data[i], b, c);
            Encode(data[..end]) ==
              Encode(data[..i]) + [CharOf(q[0]), CharOf(q[1]),
                                   if i + 1 < end then CharOf(q[2]) else '=',
                                   if i + 2 < end then CharOf(q[3]) else '=']
  {
    var group := data[i..end];
    EncodedAppend(data[..i], group);
    assert data[..i] + group == data[..end];
    TextAppend(Encoded(data[..i]), Encoded(group));
    EncodeGroup(group);
    assert |group| == end - i && group[0] == data[i];
    assert (1 < |group| ==> group[1] == data[i + 1]) && (2 < |group| ==> group[2] == data[i + 2]);
  }

  lemma TextAppend(symbols: seq<Symbol>, more: seq<Symbol>)
    ensures Text(symbols + more) == Text(symbols) + Text(more)
  {}

  lemma EncodeGroup(data: seq<byte>)
    requires 1 <= |data| <= 3
    ensures var b := if 1 < |data| then data[1] else 0;
            var c := if 2 < |data| then data[2] else 0;
            var q := Group(data[0], b, c);
            Text(Encoded(data)) == [CharOf(q[0]), CharOf(q[1]),
                                    if 1 < |data| then CharOf(q[2]) else '=',
                                    if 2 < |data| then CharOf(q[3]) else '=']
  {
    if |data| == 3 {
      assert data[3..] == [];
    }
  }

  // ------------------------------------------------------------------
  // The agent's encoder: whole triples first, then the remainder
  // ------------------------------------------------------------------

  lemma UpperAt(x: nat)
    requires x < 26
    ensures "ABCDEFGHIJKLMNOPQRSTUVWXYZ"[x] == CharOf(Digit(x))
  {}

  lemma LowerAt(x: nat)
    requires x < 26
    ensures "abcdefghijklmnopqrstuvwxyz"[x] == CharOf(Digit(x + 26))
  {}

  method AgentAlphabet() returns (alphabet: string)
    ensures |alphabet| == 64
    ensures forall x :: 0 <= x < 64 ==> alphabet[x] == CharOf(Digit(x))
  {
    alphabet :=
      "ABCDEFGHIJKLMNOPQRSTUVWXYZ" +
      "abcdefghijklmnopqrstuvwxyz" +
      "0123456789+/";
    forall x | 0 <= x < 64 ensures alphabet[x] == CharOf(Digit(x)) {
      if x < 26 { UpperAt(x); } else if x < 52 { LowerAt(x - 26); }
    }
  }

  lemma CutSextets(t: nat, s0: sextet, s1: sextet, s2: sextet, s3: sextet)
    requires t == 262144 * s0 + 4096 * s1 + 64 * s2 + s3
    ensures t / 262144 % 64 == s0 && t / 4096 % 64 == s1 && t / 64 % 64 == s2 && t % 64 == s3
  {
    assert t / 64 == 4096 * s0 + 64 * s1 + s2;
    assert t / 4096 == 64 * s0 + s1;
  }

  /** Pushing the characters cut from the packed 24-bit number encodes one more group. */
  lemma PackedSextets(a: byte, b: byte, c: byte, t: nat)
    requires t == a as int * 65536 + b as int * 256 + c as int
    ensures Group(a, b, c) ==
              [Digit(t / 262144 % 64), Digit(t / 4096 % 64), Digit(t / 64 % 64), Digit(t % 64)]
  {
    CutSextets(t, a / 4, a % 4 * 16 + b / 16, b % 16 * 4 + c / 64, c % 64);
  }

  lemma PushPackedGroup(alphabet: string, data: seq<byte>, i: nat, end: nat, t: nat)
    requires |alphabet| == 64 && forall x :: 0 <= x < 64 ==> alphabet[x] == CharOf(Digit(x))
    requires i < end <= |data| && i % 3 == 0
    requires end == i + 3 || end == |data| < i + 3
    requires t == data[i] as int * 65536 + (if i + 1 < end then data[i + 1] as int * 256 else 0)
                  + (if i + 2 < end then data[i + 2] as int else 0)
    ensures Encode(data[..end]) ==
            Encode(data[..i]) + [alphabet[t / 262144 % 64]] + [alphabet[t / 4096 % 64]]
            + [if i + 1 < end then alphabet[t / 64 % 64] else '=']
            + [if i + 2 < end then alphabet[t % 64] else '=']
  {
    var a: byte := data[i];
    var b: byte := if i + 1 < end then data[i + 1] else 0;
    var c: byte := if i + 2 < end then data[i + 2] else 0;
    assert t == a as int * 65536 + b as int * 256 + c as int;
    PackedSextets(a, b, c, t);
    EncodeNextGroup(data, i, end);
  }

  method ScreenCaptureEncode(data: seq<byte>) returns (encoded: string)
    ensures encoded == Encode(data)
  {
    var alphabet := AgentAlphabet();
    encoded := [];
    var i := 0;
    while i + 2 < |data|
      invariant 0 <= i <= |data| && i % 3 == 0
      invariant encoded == Encode(data[..i])
    {
      var triple: nat := data[i] as int * 65536 + data[i + 1] as int * 256 + data[i + 2] as int;
      PushPackedGroup(alphabet, data, i, i + 3, triple);
      encoded := encoded + [alphabet[triple / 262144 % 64]];
      encoded := encoded + [alphabet[triple / 4096 % 64]];
      encoded := encoded + [alphabet[triple / 64 % 64]];
      encoded := encoded + [alphabet[triple % 64]];
      i := i + 3;
    }

    if i < |data| {
      var a: byte := data[i];
      var b: byte := if i + 1 < |data| then data[i + 1] else 0;
      var partial: nat := a as int * 65536 + b as int * 256;
      PushPackedGroup(alphabet, data, i, |data|, partial);
      encoded := encoded + [alphabet[partial / 262144 % 64]];
      encoded := encoded + [alphabet[partial / 4096 % 64]];
      if i + 1 < |data| {
        encoded := encoded + [alphabet[partial / 64 % 64]];
      } else {
        encoded := encoded + ['='];
      }
      encoded := encoded + ['='];
    }
    assert data[..|data|] == data;
  }

  // ------------------------------------------------------------------
  // The mailer's encoder: one loop with guarded reads
  // ------------------------------------------------------------------

  method MailerTable() returns (table: seq<char>)
    ensures |table| == 64
    ensures forall x :: 0 <= x < 64 ==> table[x] == CharOf(Digit(x))
  {
    var upper := ['A', 'B', 'C', 'D', 'E', 'F', 'G', 'H', 'I', 'J', 'K', 'L', 'M',
                  'N', 'O', 'P', 'Q', 'R', 'S', 'T', 'U', 'V', 'W', 'X', 'Y', 'Z'];
    var lower := ['a', 'b', 'c', 'd', 'e', 'f', 'g', 'h', 'i', 'j', 'k', 'l', 'm',
                  'n', 'o', 'p', 'q', 'r', 's', 't', 'u', 'v', 'w', 'x', 'y', 'z'];
    var digits := ['0', '1', '2', '3', '4', '5', '6', '7', '8', '9', '+', '/'];
    table := upper + lower + digits;
    assert upper == "ABCDEFGHIJKLMNOPQRSTUVWXYZ";
    assert lower == "abcdefghijklmnopqrstuvwxyz";
    forall x | 0 <= x < 64 ensures table[x] == CharOf(Digit(x)) {
      if x < 26 { UpperAt(x); } else if x < 52 { LowerAt(x - 26); }
    }
  }

  /** The masks after the shifts change nothing on bytes. */
  lemma MaskedSextets(a: byte, b: byte, c: byte)
    ensures Group(a, b, c) ==
            [Digit(a / 4 % 64), Digit(a % 4 * 16 + b / 16 % 16), Digit(b % 16 * 4 + c / 64 % 4), Digit(c % 64)]
  {}

  /** The four characters that one turn of the loop appends. */
  lemma NextFour(input: seq<byte>, table: seq<char>, i: nat, end: nat, b1: byte, b2: byte)
    requires |table| == 64 && forall x :: 0 <= x < 64 ==> table[x] == CharOf(Digit(x))
    requires i < |input| && i % 3 == 0 && end == if i + 3 <= |input| then i + 3 else |input|
    requires b1 == (if i + 1 < |input| then input[i + 1] else 0) && b2 == if i + 2 < |input| then input[i + 2] else 0
    ensures Encode(input[..end]) == Encode(input[..i])
              + [table[input[i] / 4 % 64]] + [table[input[i] % 4 * 16 + b1 / 16 % 16]]
              + [if i + 1 < |input| then table[b1 % 16 * 4 + b2 / 64 % 4] else '=']
              + [if i + 2 < |input| then table[b2 % 64] else '=']
  {
    EncodeNextGroup(input, i, end);
    MaskedSextets(input[i], b1, b2);
  }

  method EmailEncode(input: seq<byte>) returns (out: string)
    ensures out == Encode(input)
  {
    var table := MailerTable();
    out := [];
    var i := 0;
    ghost var done := 0;
    while i < |input|
      invariant i % 3 == 0 && done == if i <= |input| then i else |input|
      invariant out == Encode(input[..done])
    {
      out, done := EncodeTurn(input, table, i, out);
      i := i + 3;
    }
    assert input[..|input|] == input;
  }

  /** The body of the loop. */
  method EncodeTurn(input: seq<byte>, table: seq<char>, i: nat, out: string) returns (out': string, ghost end: nat)
    requires |table| == 64 && forall x :: 0 <= x < 64 ==> table[x] == CharOf(Digit(x))
    requires i < |input| && i % 3 == 0 && out == Encode(input[..i])
    ensures end == if i + 3 <= |input| then i + 3 else |input|
    ensures out' == Encode(input[..end])
  {
    var b0: byte := input[i];
    var b1: byte := if i + 1 < |input| then input[i + 1] else 0;
    var b2: byte := if i + 2 < |input| then input[i + 2] else 0;
    end := if i + 3 <= |input| then i + 3 else |input|;
    NextFour(input, table, i, end, b1, b2);

    out' := out + [table[b0 / 4 % 64]];
    out' := out' + [table[b0 % 4 * 16 + b1 / 16 % 16]];
    out' := out' + [if i + 1 < |input| then table[b1 % 16 * 4 + b2 / 64 % 4] else '='];
    out' := out' + [if i + 2 < |input| then table[b2 % 64] else '='];
  }
}
