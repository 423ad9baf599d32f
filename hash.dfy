/**
 * `hashString`: the 31-multiplier polynomial string hash computed in the
 * engine's signed 32-bit arithmetic, returned through `Math.abs`.
 */
module Hash {

  const Two32: int := 0x1_0000_0000

  /** JavaScript's ToInt32: the signed 32-bit integer congruent to `x` modulo 2^32. */
  function ToInt32(x: int): (r: int)
    ensures -0x8000_0000 <= r < 0x8000_0000
    ensures (x - r) % Two32 == 0
  {
    var m := x % Two32;
    if m >= 0x8000_0000 then m - Two32 else m
  }

  lemma ToInt32Congruent(x: int, y: int)
    requires (x - y) % Two32 == 0
    ensures ToInt32(x) == ToInt32(y)
  {
    var q := (x - y) / Two32;
    assert x == y + q * Two32;
    assert x % Two32 == y % Two32;
  }

  /** The exact polynomial `s[0]·31^(n-1) + … + s[n-1]` over the character codes of `s`. */
  function Poly(s: string): int {
    if s == [] then 0 else Poly(s[..|s| - 1]) * 31 + s[|s| - 1] as int
  }

  function Abs(x: int): nat {
    if x < 0 then -x else x
  }

  /** What `hashString(s)` returns: |ToInt32(Poly(s))|. */
  function Hash(s: string): (h: nat)
    ensures h <= 0x8000_0000
    ensures s == [] ==> h == 0
  {
    Abs(ToInt32(Poly(s)))
  }

  /** A multiple of 2^32 apart from its 32-bit image. */
  lemma Wrapped(x: int) returns (q: int)
    ensures x == ToInt32(x) + q * Two32
  {
    q := (x - ToInt32(x)) / Two32;
  }

  lemma StepArithmetic(p: int, h: int, s32: int, c: int, a: int, b: int)
    requires p == h + a * Two32 && h * 32 == s32 + b * Two32
    ensures ((s32 - h + c) - (p * 31 + c)) % Two32 == 0
  {
    assert (s32 - h + c) - (p * 31 + c) == -(b + 31 * a) * Two32;
  }

  /**
   * One step of the loop, `hash = ((hash << 5) - hash) + char; hash = hash & hash;`,
   * keeps the running value equal to the 32-bit image of the exact polynomial.
   */
  lemma StepCongruent(prefix: string, c: char)
    ensures ToInt32(ToInt32(ToInt32(Poly(prefix)) * 32) - ToInt32(Poly(prefix)) + c as int)
         == ToInt32(Poly(prefix + [c]))
  {
    var p := Poly(prefix);
    var h := ToInt32(p);
    var s32 := ToInt32(h * 32);
    assert (prefix + [c])[..|prefix + [c]| - 1] == prefix;
    assert Poly(prefix + [c]) == p * 31 + c as int;
    var a := Wrapped(p);
    var b := Wrapped(h * 32);
    StepArithmetic(p, h, s32, c as int, a, b);
    ToInt32Congruent(s32 - h + c as int, p * 31 + c as int);
  }

  /** The loop of `hashString`, over the UTF-16 code units of `str` (here its characters). */
  method HashString(str: string) returns (result: nat)
    ensures result == Hash(str)
    ensures result <= 0x8000_0000
    ensures str == "" ==> result == 0
  {
    var hash := 0;
    if |str| == 0 {
      return hash;
    }
    for i := 0 to |str|
      invariant hash == ToInt32(Poly(str[..i]))
    {
      var ch := str[i] as int;
      StepCongruent(str[..i], str[i]);
      assert str[..i + 1] == str[..i] + [str[i]];
      hash := ToInt32(hash * 32) - hash + ch;   // (hash << 5) - hash + char
      hash := ToInt32(hash);                    // hash & hash
    }
    assert str[..|str|] == str;
    result := Abs(hash);
  }
}
