/** How the status indicators turn a disk-usage sample into a reaction:
    the drive-full flag and, on the two-LED indicator, a blink rate for the
    storage LED. The fraction used/total is compared with the thresholds
    exactly, as integers. */
module Storage {
  import opened Devices

  /** The threshold bucket a sample falls into, from fullest to emptiest:
      at least 90%, 85%, 80%, 75%, 50% full, or less than half full. */
  datatype Level = Full | Above85 | Above80 | Above75 | Above50 | Below50

  /** used/total is at least `percent`/100. */
  predicate AtLeast(used: nat, total: nat, percent: nat) {
    100 * used >= percent * total
  }

  /** The bucket of a sample; the thresholds are tested from the highest
      down and the first that holds decides. `total` is the divisor of the
      fullness fraction, so it must not be zero. */
  function LevelOf(used: nat, total: nat): (l: Level)
    requires total > 0
    ensures l == Full <==> AtLeast(used, total, 90)
    ensures l == Above85 <==> AtLeast(used, total, 85) && !AtLeast(used, total, 90)
    ensures l == Above80 <==> AtLeast(used, total, 80) && !AtLeast(used, total, 85)
    ensures l == Above75 <==> AtLeast(used, total, 75) && !AtLeast(used, total, 80)
    ensures l == Above50 <==> AtLeast(used, total, 50) && !AtLeast(used, total, 75)
    ensures l == Below50 <==> !AtLeast(used, total, 50)
  {
    if AtLeast(used, total, 90) then Full
    else if AtLeast(used, total, 85) then Above85
    else if AtLeast(used, total, 80) then Above80
    else if AtLeast(used, total, 75) then Above75
    else if AtLeast(used, total, 50) then Above50
    else Below50
  }

  /** Position of a bucket in the order of fullness, 0 for the emptiest. */
  function Rank(l: Level): nat {
    match l
    case Below50 => 0
    case Above50 => 1
    case Above75 => 2
    case Above80 => 3
    case Above85 => 4
    case Full => 5
  }

  /** If used1/total1 <= used2/total2 and the first sample reaches a
      threshold, so does the second. */
  lemma AtLeastMonotone(used1: nat, total1: nat, used2: nat, total2: nat, percent: nat)
    requires total1 > 0 && total2 > 0
    requires used1 * total2 <= used2 * total1
    requires AtLeast(used1, total1, percent)
    ensures AtLeast(used2, total2, percent)
  {
    calc {
      percent * total2 * total1;
    ==  { MulAssocComm(percent, total1, total2); }
      percent * total1 * total2;
    <=  { MulMonotone(percent * total1, 100 * used1, total2); }
      100 * used1 * total2;
    ==  { MulAssoc(100, used1, total2); }
      100 * (used1 * total2);
    <=
      100 * (used2 * total1);
    ==  { MulAssoc(100, used2, total1); }
      100 * used2 * total1;
    }
    MulCancel(percent * total2, 100 * used2, total1);
  }

  lemma MulAssoc(a: int, b: int, c: int)
    ensures a * b * c == a * (b * c)
  {
  }

  lemma MulAssocComm(a: int, b: int, c: int)
    ensures a * c * b == a * b * c
  {
  }

  lemma MulMonotone(a: int, b: int, c: nat)
    requires a <= b
    ensures a * c <= b * c
  {
  }

  lemma MulCancel(a: int, b: int, c: int)
    requires c > 0
    requires a * c <= b * c
    ensures a <= b
  {
    if a > b {
      MulMonotone(b + 1, a, c);
    }
  }

  /** A fuller drive never falls into a lower bucket. */
  lemma {:induction false} LevelMonotone(used1: nat, total1: nat, used2: nat, total2: nat)
    requires total1 > 0 && total2 > 0
    requires used1 * total2 <= used2 * total1
    ensures Rank(LevelOf(used1, total1)) <= Rank(LevelOf(used2, total2))
  {
    forall p: nat | AtLeast(used1, total1, p)
      ensures AtLeast(used2, total2, p)
    {
      AtLeastMonotone(used1, total1, used2, total2, p);
    }
  }

  /** The storage-LED command of the two-LED indicator for a bucket below
      full: blink without end, slower as the drive empties. */
  function StorageBlink(l: Level): LedCommand
    requires l != Full
  {
    match l
    case Above85 => Blink(0.2, Some(0.2), None)
    case Above80 => Blink(0.5, Some(0.5), None)
    case Above75 => Blink(0.5, Some(1.5), None)
    case Above50 => Blink(0.5, Some(3.0), None)
    case Below50 => Blink(0.5, Some(4.5), None)
  }

  /** One on/off cycle of a blink command. */
  function Period(c: LedCommand): real
    requires c.Blink? && c.offTime.Some?
  {
    c.onTime + c.offTime.value
  }

  /** Each bucket blinks strictly slower than any fuller one, and a bucket
      never blinks faster than a fuller one. */
  lemma SlowerWhenEmptier(l1: Level, l2: Level)
    requires l1 != Full && l2 != Full
    requires Rank(l1) <= Rank(l2)
    ensures Period(StorageBlink(l1)) >= Period(StorageBlink(l2))
    ensures Rank(l1) < Rank(l2) ==> Period(StorageBlink(l1)) > Period(StorageBlink(l2))
  {
  }

  /** Over two samples, the fuller drive never gets the slower blink. */
  lemma FullerBlinksFaster(used1: nat, total1: nat, used2: nat, total2: nat)
    requires total1 > 0 && total2 > 0
    requires used1 * total2 <= used2 * total1
    requires !AtLeast(used2, total2, 90)
    ensures LevelOf(used1, total1) != Full
    ensures Period(StorageBlink(LevelOf(used2, total2))) <= Period(StorageBlink(LevelOf(used1, total1)))
  {
    LevelMonotone(used1, total1, used2, total2);
    SlowerWhenEmptier(LevelOf(used1, total1), LevelOf(used2, total2));
  }
}
