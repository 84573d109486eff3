/** Base64 with padding (section 4 of RFC 4648): the blob encoding the JSON shapes use. */
module Base64 {

  type byte = b: nat | b < 256
  type sextet = n: nat | n < 64

  function Symbol(n: sextet): char {
    if n < 26 then 'A' + n as char
    else if n < 52 then 'a' + (n - 26) as char
    else if n < 62 then '0' + (n - 52) as char
    else if n == 62 then '+'
    else '/'
  }

  predicate IsSymbol(c: char) {
    'A' <= c <= 'Z' || 'a' <= c <= 'z' || '0' <= c <= '9' || c == '+' || c == '/'
  }

  function Value(c: char): sextet
    requires IsSymbol(c)
  {
    if 'A' <= c <= 'Z' then (c - 'A') as int
    else if 'a' <= c <= 'z' then (c - 'a') as int + 26
    else if '0' <= c <= '9' then (c - '0') as int + 52
    else if c == '+' then 62
    else 63
  }

  function Encode(b: seq<byte>): string
    decreases |b|
  {
    if |b| == 0 then ""
    else if |b| == 1 then [Symbol(b[0] / 4), Symbol(b[0] % 4 * 16), '=', '=']
    else if |b| == 2 then [Symbol(b[0] / 4), Symbol(b[0] % 4 * 16 + b[1] / 16), Symbol(b[1] % 16 * 4), '=']
    else
      [Symbol(b[0] / 4), Symbol(b[0] % 4 * 16 + b[1] / 16), Symbol(b[1] % 16 * 4 + b[2] / 64), Symbol(b[2] % 64)]
      + Encode(b[3..])
  }

  /** The bytes of a well-formed text; None for any other. */
  function TryDecode(s: string): (r: (bool, seq<byte>))
    decreases |s|
  {
    if |s| == 0 then (true, [])
    else if |s| < 4 || !IsSymbol(s[0]) || !IsSymbol(s[1]) then (false, [])
    else
      var first := (Value(s[0]) * 4 + Value(s[1]) / 16) as byte;
      if s[2..] == "==" then (true, [first])
      else if !IsSymbol(s[2]) then (false, [])
      else
        var second := (Value(s[1]) % 16 * 16 + Value(s[2]) / 4) as byte;
        if s[3..] == "=" then (true, [first, second])
        else if !IsSymbol(s[3]) then (false, [])
        else
          var rest := TryDecode(s[4..]);
          if rest.0 then (true, [first, second, (Value(s[2]) % 4 * 64 + Value(s[3])) as byte] + rest.1) else (false, [])
  }

  /** Malformed text decodes to no bytes. */
  function Decode(s: string): seq<byte> {
    TryDecode(s).1
  }

  lemma SymbolRoundTrip(n: sextet)
    ensures IsSymbol(Symbol(n)) && Value(Symbol(n)) == n
  {
  }

  /** Splitting bytes into sextets and putting them together again. */
  lemma Repack(x: byte, y: byte, z: byte)
    ensures x / 4 * 4 + (x % 4 * 16 + y / 16) / 16 == x
    ensures (x % 4 * 16 + y / 16) % 16 * 16 + (y % 16 * 4 + z / 64) / 4 == y
    ensures (y % 16 * 4 + z / 64) % 4 * 64 + z % 64 == z
  {
  }

  lemma {:induction false} OneInverse(x: byte)
    ensures TryDecode(Encode([x])) == (true, [x]) && Encode([x]) != ""
  {
    var s := Encode([x]);
    Repack(x, 0, 0);
    SymbolRoundTrip(x / 4);
    SymbolRoundTrip(x % 4 * 16);
    assert s == [Symbol(x / 4), Symbol(x % 4 * 16), '=', '='] && s[2..] == "==";
    assert Value(s[0]) * 4 + Value(s[1]) / 16 == x;
  }

  lemma {:induction false} TwoInverse(x: byte, y: byte)
    ensures TryDecode(Encode([x, y])) == (true, [x, y]) && Encode([x, y]) != ""
  {
    var s := Encode([x, y]);
    Repack(x, y, 0);
    SymbolRoundTrip(x / 4);
    SymbolRoundTrip(x % 4 * 16 + y / 16);
    SymbolRoundTrip(y % 16 * 4);
    assert s[2..][0] != '=';
    assert s[3..] == "=";
  }

  lemma {:induction false} QuadInverse(x: byte, y: byte, z: byte, rest: string)
    requires TryDecode(rest).0
    ensures TryDecode([Symbol(x / 4), Symbol(x % 4 * 16 + y / 16), Symbol(y % 16 * 4 + z / 64), Symbol(z % 64)] + rest)
            == (true, [x, y, z] + TryDecode(rest).1)
  {
    var s := [Symbol(x / 4), Symbol(x % 4 * 16 + y / 16), Symbol(y % 16 * 4 + z / 64), Symbol(z % 64)] + rest;
    Repack(x, y, z);
    SymbolRoundTrip(x / 4);
    SymbolRoundTrip(x % 4 * 16 + y / 16);
    SymbolRoundTrip(y % 16 * 4 + z / 64);
    SymbolRoundTrip(z % 64);
    assert s[2..][0] == s[2] && s[3..][0] == s[3];
    assert s[4..] == rest;
  }

  lemma {:induction false} LongInverse(b: seq<byte>, text: string)
    requires |b| >= 3 && text == Encode(b[3..]) && TryDecode(text) == (true, b[3..])
    ensures TryDecode(Encode(b)) == (true, b) && Encode(b) != ""
  {
    QuadInverse(b[0], b[1], b[2], text);
    assert b == [b[0], b[1], b[2]] + b[3..];
  }

  lemma {:induction false} Inverse(b: seq<byte>)
    ensures TryDecode(Encode(b)) == (true, b)
    ensures Encode(b) == "" <==> b == []
    decreases |b|
  {
    if |b| == 1 {
      assert b == [b[0]];
      OneInverse(b[0]);
    } else if |b| == 2 {
      assert b == [b[0], b[1]];
      TwoInverse(b[0], b[1]);
    } else if |b| >= 3 {
      Inverse(b[3..]);
      LongInverse(b, Encode(b[3..]));
    }
  }

  /** Test vectors of section 10 of RFC 4648. */
  lemma {:induction false} Vectors()
    ensures Encode([]) == "" && Encode([102]) == "Zg==" && Encode([102, 111]) == "Zm8="
    ensures Encode([102, 111, 111]) == "Zm9v" && Encode([102, 111, 111, 98]) == "Zm9vYg=="
  {
    assert [102, 111, 111, 98][3..] == [98];
    assert [102, 111, 111][3..] == [];
  }
}
