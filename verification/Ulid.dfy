/** Monotonic ULIDs: base-32 encoding and the generator behind every id (src/ledgerflow/ids.py). */
module Ulid {
  const ALPHABET: string := "0123456789ABCDEFGHJKMNPQRSTVWXYZ"

  function Symbol(digit: nat): char
    requires digit < 32
  {
    ALPHABET[digit]
  }

  function Power(n: nat): nat
    ensures Power(n) > 0
  {
    if n == 0 then 1 else 32 * Power(n - 1)
  }

  /** The low `length` base-32 digits of a value, most significant first. */
  function Encode(value: nat, length: nat): (s: string)
    ensures |s| == length
  {
    if length == 0 then "" else Encode(value / 32, length - 1) + [Symbol(value % 32)]
  }

  /** `_encode`: collects the digits lowest first and reverses them. */
  method EncodeDigits(value: nat, length: nat) returns (s: string)
    ensures s == Encode(value, length)
  {
    var digits, rest := [], value;
    for i := 0 to length
      invariant |digits| == i
      invariant Encode(value, length) == Encode(rest, length - i) + Reverse(digits)
    {
      ReversePush(digits, Symbol(rest % 32));
      digits := digits + [Symbol(rest % 32)];
      rest := rest / 32;
    }
    s := Reverse(digits);
  }

  function Reverse(s: string): string
  {
    if s == "" then "" else [s[|s| - 1]] + Reverse(s[..|s| - 1])
  }

  lemma ReversePush(s: string, c: char)
    ensures Reverse(s + [c]) == [c] + Reverse(s)
  {
    assert (s + [c])[..|s|] == s;
  }

  // ---- order and round trip ----

  /** Lexicographic order by character code. */
  predicate Less(a: string, b: string)
  {
    if b == "" then false
    else if a == "" then true
    else a[0] < b[0] || (a[0] == b[0] && Less(a[1..], b[1..]))
  }

  /** Of two strings, one is less or they are the same; a proper prefix is less. */
  lemma {:induction false} LessIsTotal(a: string, b: string)
    ensures Less(a, b) || Less(b, a) || a == b
    ensures !(Less(a, b) && Less(b, a)) && !Less(a, a)
    ensures a < b ==> Less(a, b)
  {
    if a != "" && b != "" {
      LessIsTotal(a[1..], b[1..]);
      assert a == [a[0]] + a[1..] && b == [b[0]] + b[1..];
    }
    if a != "" && a != b {
      LessIsTotal(a[1..], a[1..]);
    }
  }

  lemma {:induction false} LessAppend(a: string, b: string, x: string, y: string)
    requires |a| == |b|
    ensures Less(a + x, b + y) <==> Less(a, b) || (a == b && Less(x, y))
  {
    if a == "" {
      assert a + x == x && b + y == y;
    } else {
      assert (a + x)[1..] == a[1..] + x && (b + y)[1..] == b[1..] + y;
      LessAppend(a[1..], b[1..], x, y);
      assert a == [a[0]] + a[1..] && b == [b[0]] + b[1..];
    }
  }

  lemma AlphabetAscends(i: nat)
    requires i < 31
    ensures Symbol(i) < Symbol(i + 1)
  {
    var s := ALPHABET;
    assert s[0] < s[1] < s[2] < s[3] < s[4] < s[5] < s[6] < s[7] < s[8] < s[9] < s[10];
    assert s[10] < s[11] < s[12] < s[13] < s[14] < s[15] < s[16] < s[17] < s[18] < s[19] < s[20];
    assert s[20] < s[21] < s[22] < s[23] < s[24] < s[25] < s[26] < s[27] < s[28] < s[29] < s[30] < s[31];
  }

  lemma {:induction false} DigitOrder(i: nat, j: nat)
    requires i < j < 32
    ensures Symbol(i) < Symbol(j)
    decreases j
  {
    hide Symbol;
    AlphabetAscends(j - 1);
    if i < j - 1 {
      DigitOrder(i, j - 1);
    }
  }

  lemma DigitsCompare(i: nat, j: nat)
    requires i < 32 && j < 32
    ensures Symbol(i) < Symbol(j) <==> i < j
    ensures Symbol(i) == Symbol(j) <==> i == j
  {
    hide Symbol;
    if i < j { DigitOrder(i, j); }
    if j < i { DigitOrder(j, i); }
  }

  lemma Multiples(d: int, m: nat)
    ensures d >= 1 ==> d * m >= m
    ensures d <= -1 ==> d * m + m <= 0
  {
  }

  lemma Remainder(value: nat, m: nat, k: nat, low: nat)
    requires m > 0 && low < m && value == m * k + low
    ensures value % m == low
  {
    Multiples(value / m - k, m);
    assert (value / m - k) * m == m * (value / m) - m * k;
  }

  lemma LastDigit(value: nat, p: nat)
    requires p > 0
    ensures value % (32 * p) == 32 * (value / 32 % p) + value % 32
  {
    var q := value / 32;
    assert q == p * (q / p) + q % p;
    assert 32 * (p * (q / p)) == (32 * p) * (q / p);
    Remainder(value, 32 * p, q / p, 32 * (q % p) + value % 32);
  }

  /** Encodings compare as the values modulo 32 to the length, for all values: order-preserving and
      injective exactly below that. */
  lemma {:induction false} EncodeOrder(u: nat, v: nat, n: nat)
    ensures Less(Encode(u, n), Encode(v, n)) <==> u % Power(n) < v % Power(n)
    ensures Encode(u, n) == Encode(v, n) <==> u % Power(n) == v % Power(n)
  {
    hide Symbol, Less;
    if n > 0 {
      EncodeOrder(u / 32, v / 32, n - 1);
      LastDigit(u, Power(n - 1));
      LastDigit(v, Power(n - 1));
      CompareLast(Encode(u / 32, n - 1), Encode(v / 32, n - 1), u % 32, v % 32);
    } else {
      EmptyCompares();
    }
  }

  lemma EmptyCompares()
    ensures !Less("", "")
  {
  }

  lemma CompareLast(a: string, b: string, x: nat, y: nat)
    requires |a| == |b| && x < 32 && y < 32
    ensures Less(a + [Symbol(x)], b + [Symbol(y)]) <==> Less(a, b) || (a == b && x < y)
    ensures a + [Symbol(x)] == b + [Symbol(y)] <==> a == b && x == y
  {
    hide Symbol;
    DigitsCompare(x, y);
    LessAppend(a, b, [Symbol(x)], [Symbol(y)]);
    assert (a + [Symbol(x)])[..|a|] == a && (b + [Symbol(y)])[..|b|] == b;
    assert (a + [Symbol(x)])[|a|] == Symbol(x) && (b + [Symbol(y)])[|b|] == Symbol(y);
  }

  /** Where a character stands among the digits and letters in use. */
  function PlaceOf(c: char): nat
    requires '0' <= c <= '9' || 'A' <= c <= 'Z'
  {
    if c <= '9' then c as int - '0' as int
    else 10 + c as int - 'A' as int - (if c > 'I' then 1 else 0) - (if c > 'L' then 1 else 0)
         - (if c > 'O' then 1 else 0) - (if c > 'U' then 1 else 0)
  }

  lemma SymbolAt(i: nat)
    requires i < 32
    ensures var c := Symbol(i);
            ('0' <= c <= '9' || 'A' <= c <= 'Z') && c !in {'I', 'L', 'O', 'U'} && PlaceOf(c) == i
  {
  }

  /** The symbols are the digits and the capital letters, without the four that are easily misread. */
  lemma AlphabetIs(c: char)
    ensures |ALPHABET| == 32
    ensures (exists i: nat :: i < 32 && Symbol(i) == c) <==>
            ('0' <= c <= '9' || 'A' <= c <= 'Z') && c !in {'I', 'L', 'O', 'U'}
  {
    hide Symbol;
    if i: nat :| i < 32 && Symbol(i) == c {
      SymbolAt(i);
    }
    if ('0' <= c <= '9' || 'A' <= c <= 'Z') && c !in {'I', 'L', 'O', 'U'} {
      var i := PlaceOf(c);
      SymbolAt(i);
      assert Symbol(i) == c;
    }
  }

  // ---- what an id says ----

  /** The value of a digit, read back. */
  function Digit(c: char): nat { if '0' <= c <= '9' || 'A' <= c <= 'Z' then PlaceOf(c) else 0 }

  function Decode(s: string): nat { if s == "" then 0 else 32 * Decode(s[..|s| - 1]) + Digit(s[|s| - 1]) }

  /** Reading an encoding back gives the value modulo 32 to the length. */
  lemma {:induction false} DecodeEncode(value: nat, length: nat)
    ensures Decode(Encode(value, length)) == value % Power(length)
  {
    hide Symbol;
    if length > 0 {
      DecodeEncode(value / 32, length - 1);
      SymbolAt(value % 32);
      LastDigit(value, Power(length - 1));
      assert Encode(value, length)[..length - 1] == Encode(value / 32, length - 1);
    }
  }

  // ---- the generator ----

  /** `_last_ms` and `_last_random`. */
  datatype Stamp = Stamp(ms: nat, random: nat)

  const MAX_RANDOM: nat := Power(16) - 1

  /** One call: the clock reading and ten fresh random bytes. */
  datatype Reading = Reading(ms: nat, entropy: nat)

  function Tick(last: Stamp, r: Reading): Stamp
  {
    if r.ms > last.ms then Stamp(r.ms, r.entropy)
    else if last.random >= MAX_RANDOM then Stamp(last.ms + 1, r.entropy)
    else Stamp(last.ms, last.random + 1)
  }

  function Id(s: Stamp): string { Encode(s.ms, 10) + Encode(s.random, 16) }

  /** The stamp after some calls, from module load. */
  function Stamped(readings: seq<Reading>): Stamp
  {
    if readings == [] then Stamp(0, 0) else Tick(Stamped(readings[..|readings| - 1]), readings[|readings| - 1])
  }

  ghost predicate TenBytes(readings: seq<Reading>)
  {
    forall i | 0 <= i < |readings| :: readings[i].entropy <= MAX_RANDOM
  }

  /** Every clock reading and every call fits under a limit: what a caller can check beforehand. */
  ghost predicate Below(readings: seq<Reading>, limit: nat)
  {
    forall i | 0 <= i < |readings| :: readings[i].ms + |readings| < limit
  }

  ghost predicate Earlier(s: Stamp, t: Stamp)
  {
    s.ms < t.ms || (s.ms == t.ms && s.random < t.random)
  }

  /** Ids compare as their stamps, with the milliseconds modulo 2 to the 50. */
  lemma IdOrder(s: Stamp, t: Stamp)
    requires s.random <= MAX_RANDOM && t.random <= MAX_RANDOM
    ensures Less(Id(s), Id(t)) <==> Earlier(Stamp(s.ms % Power(10), s.random), Stamp(t.ms % Power(10), t.random))
    ensures Id(s) == Id(t) <==> s.ms % Power(10) == t.ms % Power(10) && s.random == t.random
  {
    hide Encode, Power, Less;
    EncodeOrder(s.ms, t.ms, 10);
    EncodeOrder(s.random, t.random, 16);
    Small(s.random, Power(16));
    Small(t.random, Power(16));
    LessAppend(Encode(s.ms, 10), Encode(t.ms, 10), Encode(s.random, 16), Encode(t.random, 16));
    Halves(Encode(s.ms, 10), Encode(s.random, 16), Encode(t.ms, 10), Encode(t.random, 16));
  }

  lemma Small(x: nat, m: nat)
    requires x < m
    ensures x % m == x
  {
  }

  lemma Halves(a: string, x: string, b: string, y: string)
    requires |a| == |b|
    ensures a + x == b + y <==> a == b && x == y
  {
    assert (a + x)[..|a|] == a && (a + x)[|a|..] == x;
    assert (b + y)[..|b|] == b && (b + y)[|b|..] == y;
  }

  /** The stamp grows at every call, whatever the clock does: equal, backwards, or with the random
      part exhausted. */
  lemma TickGrows(last: Stamp, r: Reading)
    requires last.random <= MAX_RANDOM && r.entropy <= MAX_RANDOM
    ensures Earlier(last, Tick(last, r)) && Tick(last, r).random <= MAX_RANDOM
  {
  }

  lemma {:induction false} StampsGrow(readings: seq<Reading>, i: nat)
    requires TenBytes(readings) && i <= |readings|
    ensures Stamped(readings).random <= MAX_RANDOM && Stamped(readings[..i]).random <= MAX_RANDOM
    ensures i < |readings| ==> Earlier(Stamped(readings[..i]), Stamped(readings))
  {
    hide Power;
    if i < |readings| {
      var front := readings[..|readings| - 1];
      StampsGrow(front, i);
      assert readings[..i] == front[..i];
      TickGrows(Stamped(front), readings[|readings| - 1]);
      if i == |front| {
        assert front[..i] == front;
      }
    } else {
      assert readings[..i] == readings;
      if readings != [] {
        StampsGrow(readings[..|readings| - 1], 0);
        TickGrows(Stamped(readings[..|readings| - 1]), readings[|readings| - 1]);
      }
    }
  }

  lemma {:induction false} StampsBelow(readings: seq<Reading>, limit: nat, n: nat)
    requires n <= |readings| && limit > |readings| && Below(readings, limit)
    ensures Stamped(readings[..n]).ms + |readings| < limit + n
  {
    hide Power;
    if n > 0 {
      StampsBelow(readings, limit, n - 1);
      assert readings[..n][..n - 1] == readings[..n - 1];
    } else {
      assert readings[..0] == [];
    }
  }

  /** The milliseconds that an id carries. */
  function TimeOf(id: string): nat
    requires |id| == 26
  {
    Decode(id[..10])
  }

  /** A later clock reading becomes the id's time; an equal or earlier one leaves the time of the last id,
      or adds a millisecond when its random part cannot be stepped. */
  lemma IdTime(last: Stamp, r: Reading)
    requires Tick(last, r).ms < Power(10)
    ensures |Id(Tick(last, r))| == 26
    ensures TimeOf(Id(Tick(last, r))) ==
            if r.ms > last.ms then r.ms else if last.random < MAX_RANDOM then last.ms else last.ms + 1
  {
    hide Power, Decode;
    var s := Tick(last, r);
    assert Id(s)[..10] == Encode(s.ms, 10);
    DecodeEncode(s.ms, 10);
    Small(s.ms, Power(10));
  }

  /** Over a run: no id is older than a reading before it, and as long as no random part runs out the
      time of an id is the latest reading so far. */
  lemma {:induction false} TimeIsLatest(readings: seq<Reading>)
    ensures forall i | 0 <= i < |readings| :: readings[i].ms <= Stamped(readings).ms
    ensures (forall i | 0 <= i < |readings| :: Stamped(readings[..i]).random < MAX_RANDOM) ==>
              Stamped(readings).ms == 0 || exists i :: 0 <= i < |readings| && readings[i].ms == Stamped(readings).ms
  {
    hide Power;
    if readings != [] {
      var front, last := readings[..|readings| - 1], readings[|readings| - 1];
      TimeIsLatest(front);
      assert forall i | 0 <= i < |front| :: front[..i] == readings[..i] && front[i] == readings[i];
    }
  }

  /** Any sequence of clock readings: the id of call `j` is lexicographically greater than the id of
      every earlier call `i`, while readings and number of calls keep the stamp below 2 to the 50. */
  lemma IdsStrictlyIncrease(readings: seq<Reading>, i: nat, j: nat)
    requires TenBytes(readings) && 0 < i < j <= |readings|
    requires |readings| < Power(10) && Below(readings, Power(10))
    ensures Less(Id(Stamped(readings[..i])), Id(Stamped(readings[..j])))
  {
    hide Power, Id, Stamped;
    var s, t := Stamped(readings[..i]), Stamped(readings[..j]);
    assert readings[..j][..i] == readings[..i];
    StampsGrow(readings[..j], i);
    StampsBelow(readings, Power(10), i);
    StampsBelow(readings, Power(10), j);
    Small(s.ms, Power(10));
    Small(t.ms, Power(10));
    IdOrder(s, t);
  }

  /** Exactly when one call's id is greater than the last: the timestamp stays, or grows also modulo
      2 to the 50. */
  lemma NextIsGreaterIff(last: Stamp, r: Reading)
    requires last.random <= MAX_RANDOM && r.entropy <= MAX_RANDOM
    ensures Less(Id(last), Id(Tick(last, r))) <==>
            Tick(last, r).ms == last.ms || last.ms % Power(10) < Tick(last, r).ms % Power(10)
            || (last.ms % Power(10) == Tick(last, r).ms % Power(10) && last.random < r.entropy)
  {
    hide Power, Id;
    TickGrows(last, r);
    IdOrder(last, Tick(last, r));
  }

  /** Past the limit the encoding wraps: the next millisecond after 2 to the 50 minus one sorts
      before it. */
  lemma IdsWrap(random: nat, entropy: nat)
    requires random <= MAX_RANDOM && entropy <= MAX_RANDOM
    ensures Less(Id(Tick(Stamp(Power(10) - 1, random), Reading(Power(10), entropy))), Id(Stamp(Power(10) - 1, random)))
  {
    hide Id;
    IdBits();
    var before, after := Stamp(Power(10) - 1, random), Stamp(Power(10), entropy);
    IdOrder(after, before);
    Small(before.ms, Power(10));
    Remainder(Power(10), Power(10), 1, 0);
  }

  /** An id has 50 bits of milliseconds and 80 of randomness. */
  lemma IdBits()
    ensures Power(10) == 0x4_0000_0000_0000
    ensures Power(16) == 0x1_0000_0000_0000_0000_0000 && MAX_RANDOM == 0xFFFF_FFFF_FFFF_FFFF_FFFF
  {
    assert Power(4) == 0x10_0000;
    assert Power(8) == 0x100_0000_0000;
    assert Power(12) == 0x1000_0000_0000_0000;
  }

  /** The module's state and its one operation. */
  class Generator {
    var lastMs: nat
    var lastRandom: nat

    constructor ()
      ensures Last() == Stamp(0, 0)
    {
      lastMs, lastRandom := 0, 0;
    }

    function Last(): Stamp
      reads this
    {
      Stamp(lastMs, lastRandom)
    }

    /** `ulid`. */
    method Next(nowMs: nat, entropy: nat) returns (id: string)
      modifies this
      ensures Last() == Tick(old(Last()), Reading(nowMs, entropy))
      ensures id == Id(Last())
    {
      if nowMs > lastMs {
        lastMs, lastRandom := nowMs, entropy;
      } else if lastRandom >= MAX_RANDOM {
        lastMs, lastRandom := lastMs + 1, entropy;
      } else {
        lastRandom := lastRandom + 1;
      }
      var time := EncodeDigits(lastMs, 10);
      var random := EncodeDigits(lastRandom, 16);
      id := time + random;
    }
  }
}
