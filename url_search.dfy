/** The subset of the platform's `URLSearchParams` this layer uses: building a parameter list
    with `set` and serialising it as `application/x-www-form-urlencoded` text. */
module UrlSearch {

  /** A parameter list, in insertion order. */
  type Params = seq<(string, string)>

  /** `params.set(name, value)`: replaces the first pair named `name` and drops any later ones,
      or appends the pair when there is none. */
  function Set(params: Params, name: string, value: string): (r: Params)
    ensures (forall i :: 0 <= i < |params| ==> params[i].0 != name) ==> r == params + [(name, value)]
    ensures (name, value) in r
    ensures forall p :: p in r && p.0 != name ==> p in params
    ensures forall p :: p in params && p.0 != name ==> p in r
    ensures forall p :: p in r && p.0 == name ==> p == (name, value)
  {
    if params == [] then [(name, value)]
    else if params[0].0 == name then [(name, value)] + RemoveAll(params[1..], name)
    else [params[0]] + Set(params[1..], name, value)
  }

  /** The new pair takes the place of the first pair named `name`; the pairs before it stay. */
  lemma {:induction false} SetReplacesFirst(params: Params, name: string, value: string, i: nat)
    requires i < |params| && params[i].0 == name
    requires forall j :: 0 <= j < i ==> params[j].0 != name
    ensures var r := Set(params, name, value); i < |r| && r[..i] == params[..i] && r[i] == (name, value)
  {
    if i > 0 {
      SetReplacesFirst(params[1..], name, value, i - 1);
      var r := Set(params, name, value);
      assert r == [params[0]] + Set(params[1..], name, value);
      assert params[..i] == [params[0]] + params[1..][..i - 1];
    }
  }

  function RemoveAll(params: Params, name: string): (r: Params)
    ensures forall p :: p in r <==> p in params && p.0 != name
  {
    if params == [] then [] else (if params[0].0 == name then [] else [params[0]]) + RemoveAll(params[1..], name)
  }

  /** The UTF-8 bytes of a character. */
  function Utf8(c: char): (bytes: seq<nat>)
    ensures 1 <= |bytes| <= 4
    ensures forall i :: 0 <= i < |bytes| ==> bytes[i] < 256
  {
    var n := c as int;
    if n < 0x80 then [n]
    else if n < 0x800 then [0xC0 + n / 0x40, 0x80 + n % 0x40]
    else if n < 0x10000 then [0xE0 + n / 0x1000, 0x80 + (n / 0x40) % 0x40, 0x80 + n % 0x40]
    else [0xF0 + (n / 0x40000) % 8, 0x80 + (n / 0x1000) % 0x40, 0x80 + (n / 0x40) % 0x40, 0x80 + n % 0x40]
  }

  /** The bytes the form-urlencoded serialiser writes as themselves: `*-._`, digits and ASCII letters. */
  predicate Unreserved(b: nat) {
    b == 0x2A || b == 0x2D || b == 0x2E || b == 0x5F
    || (0x30 <= b <= 0x39) || (0x41 <= b <= 0x5A) || (0x61 <= b <= 0x7A)
  }

  function HexDigit(d: nat): (c: char)
    requires d < 16
    ensures SafeChar(c) && c != '+' && c != '%'
  {
    if d < 10 then ('0' as int + d) as char else ('A' as int + d - 10) as char
  }

  /** Characters that can appear in serialised output. */
  predicate SafeChar(c: char) {
    c == '+' || c == '%' || Unreserved(c as int)
  }

  function EncodeByte(b: nat): (s: string)
    requires b < 256
    ensures forall i :: 0 <= i < |s| ==> SafeChar(s[i])
  {
    if b == 0x20 then "+"
    else if Unreserved(b) then [b as char]
    else ['%', HexDigit(b / 16), HexDigit(b % 16)]
  }

  function EncodeBytes(bytes: seq<nat>): (s: string)
    requires forall i :: 0 <= i < |bytes| ==> bytes[i] < 256
    ensures forall i :: 0 <= i < |s| ==> SafeChar(s[i])
  {
    if bytes == [] then "" else EncodeByte(bytes[0]) + EncodeBytes(bytes[1..])
  }

  /** The form-urlencoded byte serialiser applied to the UTF-8 encoding of `s`. */
  function Encode(s: string): (r: string)
    ensures forall i :: 0 <= i < |r| ==> SafeChar(r[i])
  {
    if s == [] then "" else EncodeBytes(Utf8(s[0])) + Encode(s[1..])
  }

  function SerializePair(p: (string, string)): string {
    Encode(p.0) + "=" + Encode(p.1)
  }

  /** `params.toString()`: the encoded pairs joined by `&`. */
  function Serialize(params: Params): string {
    if params == [] then ""
    else if |params| == 1 then SerializePair(params[0])
    else SerializePair(params[0]) + "&" + Serialize(params[1..])
  }

  /** An encoded name or value never holds the separators `&` and `=`: every one of them in the
      serialised text is a separator the serialiser wrote. */
  lemma EncodedHasNoSeparators(s: string)
    ensures '&' !in Encode(s) && '=' !in Encode(s)
  {
  }

  /** Text made only of unreserved ASCII characters is serialised unchanged. */
  lemma {:induction false} EncodeUnreserved(s: string)
    requires forall i :: 0 <= i < |s| ==> Unreserved(s[i] as int)
    ensures Encode(s) == s
  {
    if s != [] {
      EncodeUnreserved(s[1..]);
      assert Utf8(s[0]) == [s[0] as int];
      assert EncodeBytes([s[0] as int]) == EncodeByte(s[0] as int) + EncodeBytes([]);
      assert EncodeByte(s[0] as int) == [s[0]];
      assert s == [s[0]] + s[1..];
    }
  }
}
