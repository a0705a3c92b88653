/**
 * Java's 32-bit `int` arithmetic and `String.hashCode()`, which the generated bean code
 * uses to recognise property names and to combine hash codes.
 */
module JavaInt {

  const TWO_TO_32: int := 0x1_0000_0000
  const MIN_INT: int := -0x8000_0000

  /** The values of a Java `int`. */
  type Int32 = x: int | -0x8000_0000 <= x < 0x8000_0000

  /** Two's-complement wrap-around of an unbounded integer into a Java `int`. */
  function Wrap(x: int): (r: Int32)
    ensures (r - x) % TWO_TO_32 == 0
    ensures MIN_INT <= x < -MIN_INT ==> r == x
  {
    (x - MIN_INT) % TWO_TO_32 + MIN_INT
  }

  /** One step of `h = 31 * h + c`, evaluated in `int`. */
  function HashStep(h: Int32, c: char): Int32
  {
    Wrap(31 * h + c as int)
  }

  /** The hash loop over `s`, starting from accumulator `h`. */
  function HashFrom(h: Int32, s: string): Int32
    decreases |s|
  {
    if s == [] then h else HashFrom(HashStep(h, s[0]), s[1..])
  }

  /**
   * The documented value of `String.hashCode()` computed without overflow:
   * s[0]*31^(n-1) + s[1]*31^(n-2) + ... + s[n-1].
   */
  function Polynomial(s: string): int
    decreases |s|
  {
    if s == [] then 0 else Polynomial(s[..|s| - 1]) * 31 + s[|s| - 1] as int
  }

  /** `String.hashCode()`: the hash loop over the characters, in `int` arithmetic. */
  function StringHash(s: string): (r: Int32)
    ensures (r - Polynomial(s)) % TWO_TO_32 == 0
  {
    HashLoopIsPolynomial(s);
    HashFrom(0, s)
  }

  /** Congruence modulo 2^32 is transitive. */
  lemma CongruentTransitive(a: int, b: int, c: int)
    requires (a - b) % TWO_TO_32 == 0 && (b - c) % TWO_TO_32 == 0
    ensures (a - c) % TWO_TO_32 == 0
  {
    var p, q := (a - b) / TWO_TO_32, (b - c) / TWO_TO_32;
    assert a - c == (p + q) * TWO_TO_32;
  }

  /** Congruence modulo 2^32 is kept by multiplying both sides by a constant and adding another. */
  lemma CongruentScale(a: int, b: int, k: int, d: int)
    requires (a - b) % TWO_TO_32 == 0
    ensures ((k * a + d) - (k * b + d)) % TWO_TO_32 == 0
  {
    var p := (a - b) / TWO_TO_32;
    assert a - b == p * TWO_TO_32;
    assert (k * a + d) - (k * b + d) == k * (a - b);
    assert k * (a - b) == (k * p) * TWO_TO_32;
  }

  /** The wrapped hash loop agrees with the documented polynomial modulo 2^32. */
  lemma {:induction false} HashLoopIsPolynomial(s: string)
    ensures (HashFrom(0, s) - Polynomial(s)) % TWO_TO_32 == 0
    decreases |s|
  {
    if s != [] {
      var p, c := s[..|s| - 1], s[|s| - 1];
      assert s == p + [c];
      HashLoopIsPolynomial(p);
      HashFromAppend(0, p, [c]);
      assert [c][1..] == [];
      var h := HashFrom(0, p);
      assert HashFrom(0, s) == HashStep(h, c);
      CongruentScale(h, Polynomial(p), 31, c as int);
      CongruentTransitive(HashFrom(0, s), 31 * h + c as int, 31 * Polynomial(p) + c as int);
    }
  }

  /** Hashing a concatenation continues from the hash of its first part. */
  lemma {:induction false} HashFromAppend(h: Int32, s: string, t: string)
    ensures HashFrom(h, s + t) == HashFrom(HashFrom(h, s), t)
    decreases |s|
  {
    if s == [] {
      assert s + t == t;
    } else {
      assert (s + t)[0] == s[0];
      assert (s + t)[1..] == s[1..] + t;
      HashFromAppend(HashStep(h, s[0]), s[1..], t);
    }
  }

  /** Two strings with equal hash codes keep equal hash codes under any common suffix. */
  lemma HashCollisionExtends(s: string, s': string, t: string)
    requires StringHash(s) == StringHash(s')
    ensures StringHash(s + t) == StringHash(s' + t)
  {
    HashFromAppend(0, s, t);
    HashFromAppend(0, s', t);
  }

  /** One turn of the hash loop, with the new accumulator given. */
  lemma HashFromStep(h: Int32, s: string, h': Int32)
    requires s != [] && HashStep(h, s[0]) == h'
    ensures HashFrom(h, s) == HashFrom(h', s[1..])
  {
  }

  const CONVENTION_HASH: Int32 := 2039569265
  const CALENDAR_HASH: Int32 := -178324674

  /** The turns of the hash loop over "convention". */
  lemma ConventionNameSteps()
    ensures HashStep(0, 'c') == 99
    ensures HashStep(99, 'o') == 3180
    ensures HashStep(3180, 'n') == 98690
    ensures HashStep(98690, 'v') == 3059508
    ensures HashStep(3059508, 'e') == 94844849
    ensures HashStep(94844849, 'n') == -1354776867
    ensures HashStep(-1354776867, 't') == 951590199
    ensures HashStep(951590199, 'i') == -565474798
    ensures HashStep(-565474798, 'o') == -349849443
    ensures HashStep(-349849443, 'n') == 2039569265
  {
  }

  /** The hash code of "convention", the first case label of the generated switches. */
  lemma ConventionNameHash()
    ensures StringHash("convention") == CONVENTION_HASH
  {
    var name := "convention";
    ConventionNameSteps();
    HashFromStep(0, name[0..], 99);
    HashFromStep(99, name[1..], 3180);
    HashFromStep(3180, name[2..], 98690);
    HashFromStep(98690, name[3..], 3059508);
    HashFromStep(3059508, name[4..], 94844849);
    HashFromStep(94844849, name[5..], -1354776867);
    HashFromStep(-1354776867, name[6..], 951590199);
    HashFromStep(951590199, name[7..], -565474798);
    HashFromStep(-565474798, name[8..], -349849443);
    HashFromStep(-349849443, name[9..], 2039569265);
    assert name[10..] == [];
  }

  /** The turns of the hash loop over "calendar". */
  lemma CalendarNameSteps()
    ensures HashStep(0, 'c') == 99
    ensures HashStep(99, 'a') == 3166
    ensures HashStep(3166, 'l') == 98254
    ensures HashStep(98254, 'e') == 3045975
    ensures HashStep(3045975, 'n') == 94425335
    ensures HashStep(94425335, 'd') == -1367781811
    ensures HashStep(-1367781811, 'a') == 548436916
    ensures HashStep(548436916, 'r') == -178324674
  {
  }

  /** The hash code of "calendar", the second case label of the generated switches. */
  lemma CalendarNameHash()
    ensures StringHash("calendar") == CALENDAR_HASH
  {
    var name := "calendar";
    CalendarNameSteps();
    HashFromStep(0, name[0..], 99);
    HashFromStep(99, name[1..], 3166);
    HashFromStep(3166, name[2..], 98254);
    HashFromStep(98254, name[3..], 3045975);
    HashFromStep(3045975, name[4..], 94425335);
    HashFromStep(94425335, name[5..], -1367781811);
    HashFromStep(-1367781811, name[6..], 548436916);
    HashFromStep(548436916, name[7..], -178324674);
    assert name[8..] == [];
  }

  /** "dP" and "co" have the same hash code, because 31 * 'd' + 'P' == 31 * 'c' + 'o'. */
  lemma TwoLetterCollision()
    ensures StringHash("dP") == StringHash("co") == 3180
  {
    var dp, co := "dP", "co";
    HashFromStep(0, dp, 100);
    HashFromStep(100, dp[1..], 3180);
    assert dp[2..] == [];
    HashFromStep(0, co, 99);
    HashFromStep(99, co[1..], 3180);
    assert co[2..] == [];
  }

  /**
   * "dPnvention" is not "convention" but has the same hash code: the two names differ only
   * in their first two characters, and those hash alike.
   */
  lemma ConventionHashCollision()
    ensures "dPnvention" != "convention"
    ensures StringHash("dPnvention") == CONVENTION_HASH
  {
    TwoLetterCollision();
    HashCollisionExtends("dP", "co", "nvention");
    assert "dP" + "nvention" == "dPnvention";
    assert "co" + "nvention" == "convention";
    ConventionNameHash();
  }
}
