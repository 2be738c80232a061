/** Standard base64 with padding (section 4 of RFC 4648), decoded as Go's encoding/base64 does: CR and LF are skipped
    and the unused bits of the last group are not checked. */
module Base64 {
  import opened Common

  type Sextet = v: int | 0 <= v < 64

  function Letter(v: Sextet): char {
    if v < 26 then 'A' + v as char
    else if v < 52 then 'a' + (v - 26) as char
    else if v < 62 then '0' + (v - 52) as char
    else if v == 62 then '+' else '/'
  }

  predicate IsLetter(c: char) {
    'A' <= c <= 'Z' || 'a' <= c <= 'z' || '0' <= c <= '9' || c == '+' || c == '/'
  }

  function Index(c: char): (v: Sextet)
    requires IsLetter(c)
    ensures Letter(v) == c
  {
    if 'A' <= c <= 'Z' then c as int - 'A' as int
    else if 'a' <= c <= 'z' then c as int - 'a' as int + 26
    else if '0' <= c <= '9' then c as int - '0' as int + 52
    else if c == '+' then 62 else 63
  }

  lemma LettersAndIndices(v: Sextet)
    ensures IsLetter(Letter(v)) && Index(Letter(v)) == v
    ensures Letter(v) != '=' && Letter(v) != '\r' && Letter(v) != '\n'
  {
  }

  lemma PaddingIsNoLetter()
    ensures !IsLetter('=')
  {
  }

  // ----- Three bytes are four sextets -----

  function Sextet1(a: Byte): Sextet { a / 4 }
  function Sextet2(a: Byte, b: Byte): Sextet { a % 4 * 16 + b / 16 }
  function Sextet3(b: Byte, c: Byte): Sextet { b % 16 * 4 + c / 64 }
  function Sextet4(c: Byte): Sextet { c % 64 }

  function Byte1(w: Sextet, x: Sextet): Byte { w * 4 + x / 16 }
  function Byte2(x: Sextet, y: Sextet): Byte { x % 16 * 16 + y / 4 }
  function Byte3(y: Sextet, z: Sextet): Byte { y % 4 * 64 + z }

  lemma BytesComeBack(a: Byte, b: Byte, c: Byte)
    ensures Byte1(Sextet1(a), Sextet2(a, b)) == a
    ensures Byte2(Sextet2(a, b), Sextet3(b, c)) == b
    ensures Byte3(Sextet3(b, c), Sextet4(c)) == c
  {
  }

  lemma SextetsComeBack(w: Sextet, x: Sextet, y: Sextet, z: Sextet)
    ensures Sextet1(Byte1(w, x)) == w
    ensures Sextet2(Byte1(w, x), Byte2(x, y)) == x
    ensures Sextet3(Byte2(x, y), Byte3(y, z)) == y
    ensures Sextet4(Byte3(y, z)) == z
    ensures Sextet2(Byte1(w, x), 0) == x <==> x % 16 == 0
    ensures Sextet3(Byte2(x, y), 0) == y <==> y % 4 == 0
  {
  }

  // ----- Encoding and decoding -----

  function Encode(data: seq<Byte>): string {
    if data == [] then []
    else if |data| == 1 then
      [Letter(Sextet1(data[0])), Letter(Sextet2(data[0], 0)), '=', '=']
    else if |data| == 2 then
      [Letter(Sextet1(data[0])), Letter(Sextet2(data[0], data[1])), Letter(Sextet3(data[1], 0)), '=']
    else
      [Letter(Sextet1(data[0])), Letter(Sextet2(data[0], data[1])), Letter(Sextet3(data[1], data[2])),
       Letter(Sextet4(data[2]))] + Encode(data[3..])
  }

  function SkipNewlines(s: string): string {
    if s == [] then []
    else (if s[0] == '\r' || s[0] == '\n' then [] else [s[0]]) + SkipNewlines(s[1..])
  }

  function DecodeGroups(s: string): Option<seq<Byte>> {
    if s == [] then Some([])
    else if |s| < 4 || !IsLetter(s[0]) || !IsLetter(s[1]) then None
    else
      var w, x := Index(s[0]), Index(s[1]);
      if IsLetter(s[2]) && IsLetter(s[3]) then
        var y, z := Index(s[2]), Index(s[3]);
        match DecodeGroups(s[4..])
        case None => None
        case Some(rest) => Some([Byte1(w, x), Byte2(x, y), Byte3(y, z)] + rest)
      else if |s| > 4 || s[3] != '=' then None
      else if IsLetter(s[2]) then Some([Byte1(w, x), Byte2(x, Index(s[2]))])
      else if s[2] == '=' then Some([Byte1(w, x)])
      else None
  }

  function Decode(s: string): Option<seq<Byte>> {
    DecodeGroups(SkipNewlines(s))
  }

  lemma GroupDecodes(w: Sextet, x: Sextet, y: Sextet, z: Sextet, s: string)
    ensures DecodeGroups([Letter(w), Letter(x), Letter(y), Letter(z)] + s) ==
            match DecodeGroups(s)
            case None => None
            case Some(rest) => Some([Byte1(w, x), Byte2(x, y), Byte3(y, z)] + rest)
    ensures DecodeGroups([Letter(w), Letter(x), Letter(y), '=']) == Some([Byte1(w, x), Byte2(x, y)])
    ensures DecodeGroups([Letter(w), Letter(x), '=', '=']) == Some([Byte1(w, x)])
  {
    LettersAndIndices(w);
    LettersAndIndices(x);
    LettersAndIndices(y);
    LettersAndIndices(z);
    PaddingIsNoLetter();
    hide Letter, Index, IsLetter, Byte1, Byte2, Byte3;
    assert ([Letter(w), Letter(x), Letter(y), Letter(z)] + s)[4..] == s;
  }

  lemma GroupEncodes(a: Byte, b: Byte, c: Byte, rest: seq<Byte>)
    ensures Encode([a, b, c] + rest) ==
            [Letter(Sextet1(a)), Letter(Sextet2(a, b)), Letter(Sextet3(b, c)), Letter(Sextet4(c))] + Encode(rest)
    ensures Encode([a, b]) == [Letter(Sextet1(a)), Letter(Sextet2(a, b)), Letter(Sextet3(b, 0)), '=']
    ensures Encode([a]) == [Letter(Sextet1(a)), Letter(Sextet2(a, 0)), '=', '=']
    ensures Encode([]) == [] && DecodeGroups([]) == Some([])
  {
    hide Letter, Sextet1, Sextet2, Sextet3, Sextet4;
    assert ([a, b, c] + rest)[3..] == rest;
  }

  lemma FullGroupComesBack(a: Byte, b: Byte, c: Byte, rest: seq<Byte>)
    requires DecodeGroups(Encode(rest)) == Some(rest)
    ensures DecodeGroups(Encode([a, b, c] + rest)) == Some([a, b, c] + rest)
  {
    hide *;
    BytesComeBack(a, b, c);
    GroupEncodes(a, b, c, rest);
    GroupDecodes(Sextet1(a), Sextet2(a, b), Sextet3(b, c), Sextet4(c), Encode(rest));
  }

  lemma LastGroupComesBack(a: Byte, b: Byte)
    ensures DecodeGroups(Encode([a])) == Some([a])
    ensures DecodeGroups(Encode([a, b])) == Some([a, b])
  {
    hide *;
    BytesComeBack(a, b, 0);
    BytesComeBack(a, 0, 0);
    GroupEncodes(a, b, 0, []);
    GroupDecodes(Sextet1(a), Sextet2(a, b), Sextet3(b, 0), 0, []);
    GroupDecodes(Sextet1(a), Sextet2(a, 0), 0, 0, []);
  }

  lemma {:induction false} DecodeGroupsUndoesEncode(data: seq<Byte>)
    ensures DecodeGroups(Encode(data)) == Some(data)
  {
    hide *;
    if data == [] {
      GroupEncodes(0, 0, 0, []);
    } else if |data| == 1 {
      assert data == [data[0]];
      LastGroupComesBack(data[0], 0);
    } else if |data| == 2 {
      assert data == [data[0], data[1]];
      LastGroupComesBack(data[0], data[1]);
    } else {
      assert data == [data[0], data[1], data[2]] + data[3..];
      DecodeGroupsUndoesEncode(data[3..]);
      FullGroupComesBack(data[0], data[1], data[2], data[3..]);
    }
  }

  /** The test vectors of section 10 of RFC 4648, for "", "f", "fo", "foo" and "foobar". */
  lemma TestVectors()
    ensures Encode([]) == "" && Encode([102]) == "Zg==" && Encode([102, 111]) == "Zm8="
    ensures Encode([102, 111, 111]) == "Zm9v" && Encode([102, 111, 111, 98, 97, 114]) == "Zm9vYmFy"
  {
    GroupEncodes(102, 111, 111, []);
    GroupEncodes(102, 111, 111, [98, 97, 114]);
    GroupEncodes(98, 97, 114, []);
    hide Encode;
    assert [102, 111, 111] + [] == [102, 111, 111] && [98, 97, 114] + [] == [98, 97, 114];
    assert [102, 111, 111] + [98, 97, 114] == [102, 111, 111, 98, 97, 114];
  }

  /** The alphabet of table 1 of RFC 4648. */
  lemma Alphabet(v: Sextet)
    ensures v < 26 ==> Letter(v) == "ABCDEFGHIJKLMNOPQRSTUVWXYZ"[v]
    ensures 26 <= v < 52 ==> Letter(v) == "abcdefghijklmnopqrstuvwxyz"[v - 26]
    ensures 52 <= v ==> Letter(v) == "0123456789+/"[v - 52]
  {
  }

  predicate HasNewline(s: string) {
    '\r' in s || '\n' in s
  }

  lemma {:induction false} NothingToSkip(s: string)
    ensures SkipNewlines(s) == s <==> !HasNewline(s)
    ensures |SkipNewlines(s)| <= |s|
  {
    if s == [] {
    } else {
      NothingToSkip(s[1..]);
      assert s == [s[0]] + s[1..];
      if s[0] != '\r' && s[0] != '\n' {
        assert SkipNewlines(s)[1..] == SkipNewlines(s[1..]);
      }
    }
  }

  lemma {:induction false} EncodingHasNoNewline(data: seq<Byte>)
    ensures !HasNewline(Encode(data))
    ensures |Encode(data)| == (|data| + 2) / 3 * 4
  {
    hide Sextet1, Sextet2, Sextet3, Sextet4;
    if |data| < 3 {
    } else {
      EncodingHasNoNewline(data[3..]);
    }
  }

  /** Decoding undoes encoding, for every byte string. */
  lemma {:induction false} DecodeUndoesEncode(data: seq<Byte>)
    ensures Decode(Encode(data)) == Some(data)
  {
    EncodingHasNoNewline(data);
    NothingToSkip(Encode(data));
    DecodeGroupsUndoesEncode(data);
  }

  /** The bits of the last group that stand for no byte are zero. */
  predicate UnusedBitsAreZero(s: string) {
    |s| >= 4 && s[|s| - 1] == '=' ==>
      if s[|s| - 2] == '=' then IsLetter(s[|s| - 3]) && Index(s[|s| - 3]) % 16 == 0
      else IsLetter(s[|s| - 2]) && Index(s[|s| - 2]) % 4 == 0
  }

  lemma {:induction false} EncodeUndoesDecodeGroups(s: string)
    requires DecodeGroups(s).Some?
    ensures Encode(DecodeGroups(s).value) == s <==> UnusedBitsAreZero(s)
    ensures s == [] || |s| >= 4
  {
    if s == [] {
      GroupEncodes(0, 0, 0, []);
    } else {
      AtLeastOneGroup(s);
      if IsLetter(s[2]) && IsLetter(s[3]) {
        FullGroup(s);
        PaddingIsNoLetter();
        hide Encode, DecodeGroups, IsLetter, Index;
        EncodeUndoesDecodeGroups(s[4..]);
        assert s == s[..4] + s[4..];
      } else {
        hide Encode, DecodeGroups, Index, UnusedBitsAreZero;
        LastGroup(s);
      }
    }
  }

  lemma AtLeastOneGroup(s: string)
    requires s != [] && DecodeGroups(s).Some?
    ensures |s| >= 4
  {
  }

  lemma FullGroup(s: string)
    requires s != [] && DecodeGroups(s).Some? && IsLetter(s[2]) && IsLetter(s[3])
    ensures DecodeGroups(s[4..]).Some?
    ensures Encode(DecodeGroups(s).value) == s[..4] + Encode(DecodeGroups(s[4..]).value)
  {
    hide Encode, IsLetter, Letter, Byte1, Byte2, Byte3, Sextet1, Sextet2, Sextet3, Sextet4;
    var w, x, y, z := Index(s[0]), Index(s[1]), Index(s[2]), Index(s[3]);
    SextetsComeBack(w, x, y, z);
    GroupEncodes(Byte1(w, x), Byte2(x, y), Byte3(y, z), DecodeGroups(s[4..]).value);
    assert s[..4] == [s[0], s[1], s[2], s[3]];
  }

  lemma LastGroup(s: string)
    requires s != [] && DecodeGroups(s).Some? && !(IsLetter(s[2]) && IsLetter(s[3]))
    ensures Encode(DecodeGroups(s).value) == s <==> UnusedBitsAreZero(s)
  {
    hide Letter, Index, IsLetter, Byte1, Byte2, Byte3, Sextet1, Sextet2, Sextet3, Sextet4, Encode;
    var w, x := Index(s[0]), Index(s[1]);
    var y := if IsLetter(s[2]) then Index(s[2]) else 0;
    SextetsComeBack(w, x, y, 0);
    PaddingIsNoLetter();
    LettersAndIndices(Sextet2(Byte1(w, x), 0));
    LettersAndIndices(Sextet3(Byte2(x, y), 0));
    GroupEncodes(Byte1(w, x), Byte2(x, y), 0, []);
    assert s == [s[0], s[1], s[2], s[3]];
  }

  /** Encoding undoes decoding exactly on the texts without CR or LF whose unused bits are zero. */
  lemma EncodeUndoesDecode(s: string)
    requires Decode(s).Some?
    ensures Encode(Decode(s).value) == s <==> !HasNewline(s) && UnusedBitsAreZero(s)
  {
    NothingToSkip(s);
    EncodingHasNoNewline(Decode(s).value);
    EncodeUndoesDecodeGroups(SkipNewlines(s));
  }
}
