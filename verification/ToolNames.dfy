/** Names of tools on the wire: a readable legal name is kept, any other gets a legal alias that depends on the
    name alone. Models the `name` closure of prepareRequest in src/ai/providers/anthropic/AnthropicProvider.cpp. */
module ToolNames {
  import opened Wrappers

  const NAME_LIMIT: nat := 128
  const PREFIX := "aisuite_"
  const READABLE: nat := 96
  const HEX := "0123456789abcdef"

  predicate LegalChar(c: char) {
    'a' <= c <= 'z' || 'A' <= c <= 'Z' || '0' <= c <= '9' || c == '_' || c == '-'
  }

  predicate LegalChars(s: string) {
    forall c :: c in s ==> LegalChar(c)
  }

  predicate ValidName(name: string) {
    name != [] && |name| <= NAME_LIMIT && LegalChars(name)
  }

  const WORDS: nat := 0x1_0000_0000_0000_0000

  /** A 64-bit number. */
  type Word = n: nat | n < WORDS

  function Power(n: nat): nat {
    if n == 0 then 1 else 2 * Power(n - 1)
  }

  /** Exclusive or of two numbers of so many bits. */
  function Xor(a: nat, b: nat, bits: nat): (x: nat)
    ensures x < Power(bits)
  {
    if bits == 0 then 0 else (if a % 2 == b % 2 then 0 else 1) + 2 * Xor(a / 2, b / 2, bits - 1)
  }

  function Byte(c: char): nat {
    c as int % 256
  }

  /** Multiplication by the FNV prime wraps around. */
  function Times(x: Word): Word {
    x * 1099511628211 % WORDS
  }

  /** A byte is mixed into the lowest eight bits. */
  function Mixed(hash: Word, b: nat): (x: Word)
    ensures x / 256 == hash / 256
  {
    assert Power(8) == 256;
    hash - hash % 256 + Xor(hash % 256, b, 8)
  }

  /** One round of the 64-bit FNV-1a hash. */
  function Mix(hash: Word, c: char): Word {
    Times(Mixed(hash, Byte(c)))
  }

  function Hash(s: string): Word {
    if s == [] then 14695981039346656037 else Mix(Hash(s[..|s| - 1]), s[|s| - 1])
  }

  function Legalised(s: string): (r: string)
    ensures |r| == |s| && LegalChars(r)
    ensures LegalChars(s) ==> r == s
  {
    if s == [] then [] else Legalised(s[..|s| - 1]) + [if LegalChar(s[|s| - 1]) then s[|s| - 1] else '_']
  }

  /** The hexadecimal digits of a number of so many digits. */
  function Digits(n: nat, digits: nat): (r: string)
    ensures |r| == digits && LegalChars(r)
  {
    if digits == 0 then [] else Digits(n / 16, digits - 1) + [HEX[n % 16]]
  }

  function Readable(name: string): string {
    if |name| <= READABLE - |PREFIX| then name else name[..READABLE - |PREFIX|]
  }

  function Wire(name: string): string {
    if ValidName(name) then name else PREFIX + Legalised(Readable(name)) + "_" + Digits(Hash(name), 16)
  }

  /** Every wire name is legal and short, whatever the neutral name. */
  lemma WireIsLegal(name: string)
    ensures ValidName(Wire(name))
    ensures ValidName(name) ==> Wire(name) == name
    ensures !ValidName(name) ==> 25 <= |Wire(name)| <= 113 && PREFIX <= Wire(name)
  {
    hide Digits, Legalised, Hash;
  }

  /** An alias shows the name as far as it is readable, with an underscore for every other byte. */
  lemma AliasIsReadable(name: string, i: nat)
    requires !ValidName(name) && i < |name| && i < READABLE - |PREFIX|
    ensures Wire(name)[|PREFIX| + i] == if LegalChar(name[i]) then name[i] else '_'
  {
    hide ValidName, Digits, Hash, LegalChar;
    LegalisedAt(Readable(name), i);
  }

  lemma {:induction false} LegalisedAt(s: string, i: nat)
    requires i < |s|
    ensures Legalised(s)[i] == if LegalChar(s[i]) then s[i] else '_'
  {
    hide LegalChar;
    if i < |s| - 1 {
      LegalisedAt(s[..|s| - 1], i);
    }
  }

  /** A test vector of FNV-1a. */
  lemma KnownHash()
    ensures Hash([]) == 0xcbf29ce484222325 && Hash("a") == 0xaf63dc4c8601ec8c
  {
    assert "a"[..0] == "";
    assert Power(8) == 256;
    assert Xor(0x25, 0x61, 8) == 0x44;
  }

  method HashOf(value: string) returns (hash: Word)
    ensures hash == Hash(value)
  {
    hide Mix;
    hash := 14695981039346656037;
    for i := 0 to |value|
      invariant hash == Hash(value[..i])
    {
      assert value[..i + 1][..i] == value[..i];
      hash := Mix(hash, value[i]);
    }
    assert value[..|value|] == value;
  }

  method Encode(value: string) returns (wire: string)
    requires !ValidName(value)
    ensures wire == Wire(value)
  {
    hide Hash, LegalChars, LegalChar;
    var hash := HashOf(value);
    wire := PREFIX;
    var i := 0;
    while i < |value| && |wire| != READABLE
      invariant i <= |value| && |wire| == |PREFIX| + i <= READABLE
      invariant wire == PREFIX + Legalised(value[..i])
    {
      assert value[..i + 1][..i] == value[..i];
      wire := wire + [if LegalChar(value[i]) then value[i] else '_'];
      i := i + 1;
    }
    assert value[..i] == Readable(value);
    var digits := HexOf(hash);
    wire := wire + "_" + digits;
  }

  method HexOf(hash: Word) returns (digits: string)
    ensures digits == Digits(hash, 16)
  {
    hide Digits, Power;
    digits := [];
    var shift := 60;
    while shift >= 0
      invariant -4 <= shift <= 60 && shift % 4 == 0
      invariant digits == Digits(hash, 16)[..15 - shift / 4]
    {
      ghost var i := 15 - shift / 4;
      DigitAt(hash, 16, i);
      SixteenPower(shift / 4);
      assert Digits(hash, 16)[..i + 1] == Digits(hash, 16)[..i] + [Digits(hash, 16)[i]];
      digits := digits + [HEX[hash / Power(shift) % 16]];
      shift := shift - 4;
    }
    assert Digits(hash, 16)[..16] == Digits(hash, 16);
  }

  function Sixteen(n: nat): (p: nat)
    ensures p > 0
  {
    if n == 0 then 1 else 16 * Sixteen(n - 1)
  }

  lemma {:induction false} SixteenPower(n: nat)
    ensures Power(4 * n) == Sixteen(n)
  {
    if n > 0 {
      SixteenPower(n - 1);
      assert Power(4 * n) == 4 * Power(4 * n - 2) && Power(4 * n - 2) == 4 * Power(4 * n - 4);
    }
  }

  /** Dividing by 16 and then by p is dividing by 16 p. */
  lemma DivideTwice(n: nat, p: nat)
    requires p > 0
    ensures n / 16 / p == n / (16 * p)
  {
    var q, r := n / (16 * p), n % (16 * p);
    assert n == 16 * (p * q) + r;
    assert n / 16 == p * q + r / 16;
    assert r / 16 < p;
    QuotientIs(n / 16, p, q, r / 16);
  }

  lemma QuotientIs(n: nat, p: nat, q: nat, r: nat)
    requires n == p * q + r && r < p
    ensures n / p == q
  {
    if n / p < q {
      Monotone(p, n / p, q - 1);
    } else if n / p > q {
      Monotone(p, q + 1, n / p);
    }
  }

  lemma Monotone(p: nat, a: int, b: int)
    requires a <= b
    ensures p * a <= p * b
  {
  }

  /** The digit at a place is what shifting it down leaves in the lowest four bits. */
  lemma {:induction false} DigitAt(n: nat, digits: nat, i: nat)
    requires i < digits
    ensures Digits(n, digits)[i] == HEX[n / Sixteen(digits - 1 - i) % 16]
  {
    if i < digits - 1 {
      DigitAt(n / 16, digits - 1, i);
      DivideTwice(n, Sixteen(digits - 2 - i));
    }
  }

  /** No two of these names share an alias. */
  ghost predicate Unambiguous(used: set<string>) {
    forall a, b :: a in used && b in used && Wire(a) == Wire(b) ==> a == b
  }

  /** `names` maps each name used so far to its alias, and `toolNames` maps exactly those aliases back. */
  ghost predicate Table(names: map<string, string>, toolNames: map<string, string>) {
    && (forall n :: n in names ==> names[n] == Wire(n) && names[n] in toolNames && toolNames[names[n]] == n)
    && (forall w :: w in toolNames ==> toolNames[w] in names && names[toolNames[w]] == w)
  }

  lemma TableUnambiguous(names: map<string, string>, toolNames: map<string, string>)
    requires Table(names, toolNames)
    ensures Unambiguous(names.Keys)
  {
    hide Wire;
  }

  /** The alias of a name is always Wire(name); only an empty name or a collision is refused. */
  method Alias(value: string, names: map<string, string>, toolNames: map<string, string>)
    returns (wire: Option<string>, names': map<string, string>, toolNames': map<string, string>)
    requires Table(names, toolNames)
    ensures wire.Some? <==> value != [] && Unambiguous(names.Keys + {value})
    ensures wire.Some? ==> wire.value == Wire(value) && names'.Keys == names.Keys + {value} && Table(names', toolNames')
  {
    hide Wire;
    names', toolNames' := names, toolNames;
    TableUnambiguous(names, toolNames);
    if value == [] {
      return None, names', toolNames';
    }
    if value in names {
      assert names.Keys + {value} == names.Keys;
      return Some(names[value]), names', toolNames';
    }
    var alias := value;
    if !ValidName(value) {
      alias := Encode(value);
    } else {
      assert alias == Wire(value) by { KeptName(value); }
    }
    if alias in toolNames {
      assert toolNames[alias] in names.Keys + {value} && value in names.Keys + {value};
      return None, names', toolNames';
    }
    toolNames' := toolNames'[alias := value];
    names' := names'[value := alias];
    TableUnambiguous(names', toolNames');
    wire := Some(alias);
  }

  lemma KeptName(name: string)
    requires ValidName(name)
    ensures Wire(name) == name
  {
  }

  // ---- Names that differ in one byte ----

  /** Multiplying by the prime loses nothing: 14886173955864302971 is its inverse. */
  lemma TimesInjective(x: Word, y: Word)
    requires Times(x) == Times(y)
    ensures x == y
  {
    var a, b := x * 1099511628211 / WORDS, y * 1099511628211 / WORDS;
    assert (x - y) * 1099511628211 == (a - b) * WORDS;
    assert 1099511628211 * 14886173955864302971 == 1 + 887285111055 * WORDS;
    assert x - y == WORDS * ((a - b) * 14886173955864302971 - (x - y) * 887285111055);
  }

  lemma {:induction false} XorTells(a: nat, b: nat, c: nat, bits: nat)
    requires b < Power(bits) && c < Power(bits)
    requires Xor(a, b, bits) == Xor(a, c, bits) || Xor(b, a, bits) == Xor(c, a, bits)
    ensures b == c
  {
    if bits > 0 {
      XorTells(a / 2, b / 2, c / 2, bits - 1);
    }
  }

  lemma EightBits()
    ensures Power(8) == 256
  {
  }

  lemma MixInjective(a: Word, b: Word, c: char)
    requires Mix(a, c) == Mix(b, c)
    ensures a == b
  {
    hide Times, Xor, Power;
    EightBits();
    TimesInjective(Mixed(a, Byte(c)), Mixed(b, Byte(c)));
    XorTells(Byte(c), a % 256, b % 256, 8);
  }

  lemma MixTells(a: Word, c: char, d: char)
    requires c as int < 256 && d as int < 256 && Mix(a, c) == Mix(a, d)
    ensures c == d
  {
    hide Times, Xor, Power;
    EightBits();
    TimesInjective(Mixed(a, Byte(c)), Mixed(a, Byte(d)));
    XorTells(a % 256, Byte(c), Byte(d), 8);
  }

  /** Names that differ in exactly one byte have different hashes. */
  lemma {:induction false} OneByteApart(a: string, c: char, d: char, b: string)
    requires c as int < 256 && d as int < 256 && c != d
    ensures Hash(a + [c] + b) != Hash(a + [d] + b)
    decreases |b|
  {
    hide Mix;
    if b == [] {
      assert (a + [c] + b)[..|a|] == a && (a + [d] + b)[..|a|] == a;
      if Mix(Hash(a), c) == Mix(Hash(a), d) {
        MixTells(Hash(a), c, d);
      }
    } else {
      var rest, last := b[..|b| - 1], b[|b| - 1];
      assert (a + [c] + b)[..|a| + |b|] == a + [c] + rest && (a + [d] + b)[..|a| + |b|] == a + [d] + rest;
      OneByteApart(a, c, d, rest);
      if Mix(Hash(a + [c] + rest), last) == Mix(Hash(a + [d] + rest), last) {
        MixInjective(Hash(a + [c] + rest), Hash(a + [d] + rest), last);
      }
    }
  }

  lemma HexTells(i: nat, j: nat)
    requires i < 16 && j < 16 && HEX[i] == HEX[j]
    ensures i == j
  {
  }

  /** The digits spell the whole number. */
  lemma {:induction false} DigitsInjective(m: nat, n: nat, digits: nat)
    requires m < Sixteen(digits) && n < Sixteen(digits) && Digits(m, digits) == Digits(n, digits)
    ensures m == n
  {
    if digits > 0 {
      var a, b := Digits(m, digits), Digits(n, digits);
      assert a[..digits - 1] == Digits(m / 16, digits - 1) && b[..digits - 1] == Digits(n / 16, digits - 1);
      assert a[digits - 1] == HEX[m % 16] && b[digits - 1] == HEX[n % 16];
      HexTells(m % 16, n % 16);
      DigitsInjective(m / 16, n / 16, digits - 1);
    }
  }

  lemma SixteenDigits()
    ensures Sixteen(16) == WORDS
  {
    assert Sixteen(4) == 65536;
    assert Sixteen(8) == 65536 * Sixteen(4);
    assert Sixteen(12) == 65536 * Sixteen(8);
    assert Sixteen(16) == 65536 * Sixteen(12);
  }

  /** So do their aliases: tools whose names need encoding and differ in exactly one byte never collide. */
  lemma AliasesApart(a: string, c: char, d: char, b: string)
    requires c as int < 256 && d as int < 256 && c != d
    requires !ValidName(a + [c] + b) && !ValidName(a + [d] + b)
    ensures Wire(a + [c] + b) != Wire(a + [d] + b)
  {
    hide Hash, Digits, ValidName, Legalised;
    var s, t := a + [c] + b, a + [d] + b;
    OneByteApart(a, c, d, b);
    if Wire(s) == Wire(t) {
      var n := |PREFIX| + |Readable(s)| + 1;
      assert |Readable(s)| == |Readable(t)|;
      assert Wire(s)[n..] == Digits(Hash(s), 16) && Wire(t)[n..] == Digits(Hash(t), 16);
      SixteenDigits();
      DigitsInjective(Hash(s), Hash(t), 16);
    }
  }
}
