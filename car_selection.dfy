/**
 * The cyclic car picker of src/components/CarSelection.tsx. The index
 * updaters are functions; `selectedIndex` is the field of
 * `CarSelectionState`, whose methods apply them as the state setter does.
 */
module CarSelection {
  import opened GameTypes
  import CarsData

  /** `cars.length`. */
  const CarCount := |CarsData.Cars|

  /** JavaScript's `%`: the remainder takes the sign of the dividend. */
  function JsRem(a: int, n: int): (r: int)
    requires n != 0
    ensures a >= 0 ==> 0 <= r < (if n < 0 then -n else n)
    ensures a < 0 ==> -(if n < 0 then -n else n) < r <= 0
  {
    var m := (if a < 0 then -a else a) % (if n < 0 then -n else n);
    if a < 0 then -m else m
  }

  /** For a non-negative dividend and a positive divisor it agrees with Dafny's `%`. */
  lemma JsRemNonNegative(a: int, n: int)
    requires a >= 0 && n > 0
    ensures JsRem(a, n) == a % n
  {
  }

  /** `(prev - 1 + cars.length) % cars.length`. */
  function Previous(i: int): int
  {
    JsRem(i - 1 + CarCount, CarCount)
  }

  /** `(prev + 1) % cars.length`. */
  function Next(i: int): int
  {
    JsRem(i + 1, CarCount)
  }

  predicate InRange(i: int)
  {
    0 <= i < CarCount
  }

  /** Both updaters keep the index within the table. */
  lemma StepsStayInRange(i: int)
    requires InRange(i)
    ensures InRange(Previous(i)) && InRange(Next(i))
  {
  }

  /** Going back undoes going forward, and the other way round. */
  lemma StepsAreInverse(i: int)
    requires InRange(i)
    ensures Previous(Next(i)) == i
    ensures Next(Previous(i)) == i
  {
    assert CarCount == 6;
  }

  /** The picker wraps around at both ends. */
  lemma StepsWrap()
    ensures Previous(0) == CarCount - 1
    ensures Next(CarCount - 1) == 0
    ensures forall i :: 0 <= i < CarCount - 1 ==> Next(i) == i + 1
    ensures forall i :: 0 < i < CarCount ==> Previous(i) == i - 1
  {
    assert CarCount == 6;
  }

  /** One step forward from a remainder is the remainder of the next number. */
  lemma NextOfRemainder(m: int)
    requires m >= 0
    ensures Next(m % CarCount) == (m + 1) % CarCount
  {
    assert CarCount == 6;
    var r := m % 6;
    JsRemNonNegative(r + 1, 6);
    assert m == 6 * (m / 6) + r;
  }

  /** Pressing next `k` times advances `k` places around the table. */
  lemma {:induction false} StepsCycle(i: int, k: nat)
    requires InRange(i)
    ensures InRange(NextTimes(i, k))
    ensures NextTimes(i, k) == (i + k) % CarCount
    decreases k
  {
    if k == 0 {
      assert CarCount == 6;
    } else {
      StepsCycle(i, k - 1);
      StepsStayInRange(NextTimes(i, k - 1));
      NextOfRemainder(i + k - 1);
    }
  }

  /** `handleNext` pressed `k` times. */
  function NextTimes(i: int, k: nat): int
    decreases k
  {
    if k == 0 then i else Next(NextTimes(i, k - 1))
  }

  class CarSelectionState {
    var selectedIndex: int

    predicate Valid()
      reads this
    {
      InRange(selectedIndex)
    }

    /** `useState(0)`. */
    constructor ()
      ensures Valid() && selectedIndex == 0
    {
      selectedIndex := 0;
    }

    method HandlePrevious()
      requires Valid()
      modifies this
      ensures Valid() && selectedIndex == Previous(old(selectedIndex))
    {
      StepsStayInRange(selectedIndex);
      selectedIndex := Previous(selectedIndex);
    }

    method HandleNext()
      requires Valid()
      modifies this
      ensures Valid() && selectedIndex == Next(old(selectedIndex))
    {
      StepsStayInRange(selectedIndex);
      selectedIndex := Next(selectedIndex);
    }

    /** `cars[selectedIndex]`. */
    function CurrentCar(): (c: Car)
      requires Valid()
      reads this
      ensures c in CarsData.Cars
    {
      CarsData.Cars[selectedIndex]
    }

    /** The id the select button passes to `onSelectCar`. */
    method Select() returns (carId: string)
      requires Valid()
      ensures carId == CurrentCar().id
      ensures CarsData.CarFor(carId) == CurrentCar()
    {
      carId := CurrentCar().id;
      CarsData.CarForListedId(selectedIndex);
    }
  }
}
