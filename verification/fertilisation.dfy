/**
 * The snail variant's expected fertilisation outcome for one breed call,
 * derived from the timestamp of the block that holds the breed transaction:
 * mate A is fertilised when the last decimal digit of the timestamp is odd,
 * mate B when the second-last (tens) digit is odd.
 */
module SnailFertilisation {

  // ---------------------------------------------------------------------
  // Decimal digits: an independent reference for "last digit" and "tens digit"
  // ---------------------------------------------------------------------

  /** The decimal digits of `n`, least significant first; 0 has no digits. */
  function Digits(n: nat): (ds: seq<nat>)
    ensures forall i :: 0 <= i < |ds| ==> ds[i] < 10
    ensures n > 0 ==> |ds| > 0 && ds[|ds| - 1] != 0
  {
    if n == 0 then [] else [n % 10] + Digits(n / 10)
  }

  /** The number a little-endian digit sequence stands for. */
  function Value(ds: seq<nat>): (n: nat)
  {
    if ds == [] then 0 else ds[0] + 10 * Value(ds[1..])
  }

  /** The digits of `n` spell `n` again. */
  lemma {:induction false} DigitsRoundTrip(n: nat)
    ensures Value(Digits(n)) == n
  {
    if n > 0 {
      DigitsRoundTrip(n / 10);
      assert Digits(n)[1..] == Digits(n / 10);
    }
  }

  /** Decimal digit number `k` of `n`, counting from the least significant (0) up; 0 past the top. */
  function Digit(n: nat, k: nat): (d: nat)
    ensures d < 10
  {
    var ds := Digits(n);
    if k < |ds| then ds[k] else 0
  }

  /** The remainder modulo 100, divided by ten, is the tens digit. */
  lemma TensDigit(n: nat)
    ensures (n % 100) / 10 == (n / 10) % 10
  {
    var q, r := n / 100, n % 100;
    assert n == 100 * q + r;
    assert n / 10 == 10 * q + r / 10;
  }

  // ---------------------------------------------------------------------
  // calcFertilisationTH
  // ---------------------------------------------------------------------

  /** `pseudoRandomA`: the timestamp modulo 10, which is its last decimal digit. */
  function PseudoRandomA(timestamp: nat): (d: nat)
    ensures d == Digit(timestamp, 0)
    ensures d < 10
  {
    timestamp % 10
  }

  /** `pseudoRandomB`: the timestamp modulo 100, divided by ten and rounded down, which is its tens digit. */
  function PseudoRandomB(timestamp: nat): (d: nat)
    ensures d == Digit(timestamp, 1)
    ensures d < 10
  {
    TensDigit(timestamp);
    assert timestamp >= 10 ==> Digits(timestamp)[1..] == Digits(timestamp / 10);
    (timestamp % 100) / 10
  }

  /** The pair of expected outcomes `{expectMateAFertilised, expectMateBFertilised}`. */
  datatype Fertilisation = Fertilisation(mateA: bool, mateB: bool)

  /** Parity of a number is the parity of its last decimal digit. */
  lemma ParityOfLastDigit(n: nat)
    ensures (n % 10) % 2 == n % 2
  {
    assert n == 10 * (n / 10) + n % 10;
  }

  /**
   * `calcFertilisationTH` with the block timestamp as input. Mate A is fertilised
   * exactly when the timestamp is odd, mate B exactly when the timestamp divided
   * by ten (rounded down) is odd.
   */
  function CalcFertilisation(timestamp: nat): (f: Fertilisation)
    ensures f.mateA <==> timestamp % 2 == 1
    ensures f.mateB <==> (timestamp / 10) % 2 == 1
  {
    var pseudoRandomA := PseudoRandomA(timestamp);
    var pseudoRandomB := PseudoRandomB(timestamp);
    ParityOfLastDigit(timestamp);
    ParityOfLastDigit(timestamp / 10);
    TensDigit(timestamp);
    Fertilisation(pseudoRandomA % 2 == 1, pseudoRandomB % 2 == 1)
  }

  /** Mate A is fertilised iff the last decimal digit is odd, mate B iff the tens digit is odd. */
  lemma FertilisedByOddDigits(timestamp: nat)
    ensures CalcFertilisation(timestamp).mateA <==> Digit(timestamp, 0) % 2 == 1
    ensures CalcFertilisation(timestamp).mateB <==> Digit(timestamp, 1) % 2 == 1
  {
    assert PseudoRandomA(timestamp) == Digit(timestamp, 0);
    assert PseudoRandomB(timestamp) == Digit(timestamp, 1);
  }

  /** Adding 100 seconds changes neither the last digit nor the parity of the tens digit. */
  lemma HundredLater(timestamp: nat)
    ensures CalcFertilisation(timestamp + 100) == CalcFertilisation(timestamp)
  {
    var t := timestamp + 100;
    assert t / 10 == timestamp / 10 + 10;
    assert t % 2 == timestamp % 2;
    assert (t / 10) % 2 == (timestamp / 10) % 2;
  }

  /** Adding any multiple of 100 seconds leaves the outcome unchanged. */
  lemma {:induction false} PeriodicInHundreds(timestamp: nat, k: nat)
    ensures CalcFertilisation(timestamp + 100 * k) == CalcFertilisation(timestamp)
  {
    if k > 0 {
      PeriodicInHundreds(timestamp, k - 1);
      HundredLater(timestamp + 100 * (k - 1));
      assert timestamp + 100 * (k - 1) + 100 == timestamp + 100 * k;
    }
  }

  /** The outcome depends on the last two decimal digits only. */
  lemma LastTwoDigitsDecide(timestamp: nat)
    ensures CalcFertilisation(timestamp) == CalcFertilisation(timestamp % 100)
  {
    PeriodicInHundreds(timestamp % 100, timestamp / 100);
  }

  /** Within the decade of seconds 10 * tens .. 10 * tens + 9, the tens digit is `tens` throughout. */
  lemma InDecade(t: nat, tens: nat)
    requires 10 * tens <= t < 10 * tens + 10
    ensures t / 10 == tens
    ensures t % 2 == (t - 10 * tens) % 2
  {
  }

  /** A whole decade whose tens digit has the wrong parity holds no timestamp giving `f`. */
  lemma WrongDecade(tens: nat, f: Fertilisation)
    requires f.mateB <==> tens % 2 == 0
    ensures forall t :: 10 * tens <= t < 10 * tens + 10 ==> CalcFertilisation(t) != f
  {
    forall t | 10 * tens <= t < 10 * tens + 10 ensures CalcFertilisation(t) != f {
      InDecade(t, tens);
    }
  }

  /** Mate A's outcome read as a digit parity: 1 when fertilised. */
  function ParityA(f: Fertilisation): (p: nat) { if f.mateA then 1 else 0 }

  /** Mate B's outcome read as a digit parity: 1 when fertilised. */
  function ParityB(f: Fertilisation): (p: nat) { if f.mateB then 1 else 0 }

  /** The tens digit already has the right parity but the last digit does not: one second more. */
  lemma NextSecond(base: nat, f: Fertilisation)
    requires (base / 10) % 2 == ParityB(f) && (base % 10) % 2 != ParityA(f) && base % 10 < 9
    ensures CalcFertilisation(base + 1) == f && CalcFertilisation(base) != f
  {
    var tens := base / 10;
    assert base == 10 * tens + base % 10;
    assert (base + 1) / 10 == tens;
    ParityOfLastDigit(base);
    assert (base + 1) % 2 != base % 2;
  }

  /** The last second of a right decade with the wrong last digit: skip the next decade. */
  lemma SkipDecade(base: nat, f: Fertilisation)
    requires (base / 10) % 2 == ParityB(f) && (base % 10) % 2 != ParityA(f) && base % 10 == 9
    ensures CalcFertilisation(10 * (base / 10 + 2)) == f
    ensures forall t :: base <= t < 10 * (base / 10 + 2) ==> CalcFertilisation(t) != f
  {
    var tens := base / 10;
    InDecade(base, tens);
    WrongDecade(tens + 1, f);
    InDecade(10 * (tens + 2), tens + 2);
  }

  /** A wrong decade: the answer lies at the start of the next one. */
  lemma NextDecade(base: nat, f: Fertilisation)
    requires (base / 10) % 2 != ParityB(f)
    ensures CalcFertilisation(10 * (base / 10 + 1) + ParityA(f)) == f
    ensures forall t :: base <= t < 10 * (base / 10 + 1) + ParityA(f) ==> CalcFertilisation(t) != f
  {
    var tens := base / 10;
    WrongDecade(tens, f);
    InDecade(10 * (tens + 1), tens + 1);
    InDecade(10 * (tens + 1) + ParityA(f), tens + 1);
  }

  /**
   * The first timestamp at or after `base` whose block would give outcome `f`.
   * Every outcome turns up within twelve consecutive seconds.
   */
  function NextTimestampFor(base: nat, f: Fertilisation): (ts: nat)
    ensures base <= ts <= base + 11
    ensures CalcFertilisation(ts) == f
    ensures forall t :: base <= t < ts ==> CalcFertilisation(t) != f
  {
    var tens, unit := base / 10, base % 10;
    if tens % 2 == ParityB(f) then
      if unit % 2 == ParityA(f) then base
      else if unit < 9 then
        NextSecond(base, f);
        base + 1
      else
        SkipDecade(base, f);
        10 * (tens + 2)
    else
      NextDecade(base, f);
      10 * (tens + 1) + ParityA(f)
  }

  /** Twelve seconds is the shortest window that is sure to hold all four outcomes. */
  lemma TwelveSecondWindowIsTight()
    ensures forall t :: 0 <= t < 11 ==> CalcFertilisation(t) != Fertilisation(true, true)
  {
    var ts := NextTimestampFor(0, Fertilisation(true, true));
    assert CalcFertilisation(11) == Fertilisation(true, true);
    assert ts == 11;
  }

  // ---------------------------------------------------------------------
  // What the breed test expects from an outcome
  // ---------------------------------------------------------------------

  /** Number of newborns the breed test expects: one per fertilised mate. */
  function NewbornCount(f: Fertilisation): (n: nat)
    ensures n <= 2
    ensures n == 0 <==> !f.mateA && !f.mateB
    ensures n == 2 <==> f.mateA && f.mateB
  {
    ParityA(f) + ParityB(f)
  }

  /** The newborn count read straight off the timestamp's last two digits. */
  lemma NewbornsFromTimestamp(timestamp: nat)
    ensures NewbornCount(CalcFertilisation(timestamp)) == timestamp % 2 + (timestamp / 10) % 2
  {
  }

  /** A conception record `{generation, mumId, dadId}` as carried by the mating event. */
  datatype Conception = Conception(generation: nat, mumId: nat, dadId: nat)

  /**
   * The conceptions the breed test expects from mates A and B: the fertilised
   * mate is the mum and the other the dad, mate A's conception first.
   */
  function ExpectedConceptions(mateAId: nat, mateBId: nat, generation: nat, f: Fertilisation): (cs: seq<Conception>)
    requires mateAId != mateBId
    ensures |cs| == NewbornCount(f)
    ensures forall i :: 0 <= i < |cs| ==> cs[i].generation == generation
    ensures forall i :: 0 <= i < |cs| ==>
      (cs[i].mumId, cs[i].dadId) == (mateAId, mateBId) || (cs[i].mumId, cs[i].dadId) == (mateBId, mateAId)
    ensures f.mateA <==> Conception(generation, mateAId, mateBId) in cs
    ensures f.mateB <==> Conception(generation, mateBId, mateAId) in cs
    ensures f.mateA && f.mateB ==> cs[0].mumId == mateAId
  {
    (if f.mateA then [Conception(generation, mateAId, mateBId)] else [])
      + (if f.mateB then [Conception(generation, mateBId, mateAId)] else [])
  }
}
