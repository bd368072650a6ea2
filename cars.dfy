/** The car profile table (src/data/cars.ts) and the engine's lookup into it. */
module CarsData {
  import opened Wrappers
  import opened GameTypes
  import ColorAdjust

  const Cars: seq<Car> := [
    Car("speedster", "Speedster", 9, 6, 7, "#FF0000", None),
    Car("cruiser", "Cruiser", 7, 8, 6, "#0066CC", None),
    Car("thunder", "Thunder", 8, 7, 9, "#FFD700", None),
    Car("shadow", "Shadow", 8, 9, 7, "#2C2C2C", None),
    Car("neon", "Neon", 10, 5, 8, "#FF00FF", None),
    Car("classic", "Classic", 6, 10, 6, "#008000", None)
  ]

  /** A rating shown as "n/10" and as a bar of width n * 10 percent. */
  predicate IsRating(n: int)
  {
    5 <= n <= 10
  }

  predicate IsProfile(c: Car)
  {
    IsRating(c.speed) && IsRating(c.handling) && IsRating(c.acceleration)
    && ColorAdjust.IsHexColor(c.color)
  }

  /** `cars.find(c => c.id === id)`: the first profile with that id. */
  function Find(table: seq<Car>, id: string): (r: Option<Car>)
    ensures r.Some? ==> r.value in table && r.value.id == id
    ensures r.None? ==> forall i :: 0 <= i < |table| ==> table[i].id != id
  {
    if table == [] then None
    else if table[0].id == id then Some(table[0])
    else Find(table[1..], id)
  }

  /**
   * `cars.find(c => c.id === selectedCarId) || cars[0]` (src/game/GameEngine.ts:67),
   * written out over the six entries of the table; `CarForIsFind` shows it is
   * `Find` on the table with the first car as fallback.
   */
  function CarFor(id: string): (r: Car)
    ensures r in Cars
    ensures (exists i :: 0 <= i < |Cars| && Cars[i].id == id) ==> r.id == id
    ensures (forall i :: 0 <= i < |Cars| ==> Cars[i].id != id) ==> r == Cars[0]
  {
    if Cars[0].id == id then Cars[0]
    else if Cars[1].id == id then Cars[1]
    else if Cars[2].id == id then Cars[2]
    else if Cars[3].id == id then Cars[3]
    else if Cars[4].id == id then Cars[4]
    else if Cars[5].id == id then Cars[5]
    else Cars[0]
  }

  /** The written-out lookup is the first match of `Find`, or the first car when there is none. */
  lemma CarForIsFind(id: string)
    ensures CarFor(id) == Find(Cars, id).GetOr(Cars[0])
  {
    var t := Cars;
    assert Find(t, id) == if t[0].id == id then Some(t[0]) else Find(t[1..], id);
    t := t[1..];
    assert Find(t, id) == if t[0].id == id then Some(t[0]) else Find(t[1..], id);
    t := t[1..];
    assert Find(t, id) == if t[0].id == id then Some(t[0]) else Find(t[1..], id);
    t := t[1..];
    assert Find(t, id) == if t[0].id == id then Some(t[0]) else Find(t[1..], id);
    t := t[1..];
    assert Find(t, id) == if t[0].id == id then Some(t[0]) else Find(t[1..], id);
    t := t[1..];
    assert Find(t, id) == if t[0].id == id then Some(t[0]) else Find(t[1..], id);
    assert t[1..] == [];
  }

  /** The table holds six cars with pairwise distinct ids. */
  lemma CarIdsDistinct()
    ensures |Cars| == 6
    ensures forall i, j :: 0 <= i < j < |Cars| ==> Cars[i].id != Cars[j].id
  {
  }

  /** Every rating lies in [5, 10] and every colour is `#` and six hex digits. */
  lemma CarProfilesValid()
    ensures forall c :: c in Cars ==> IsProfile(c)
  {
    forall c | c in Cars ensures IsProfile(c) {
      assert ColorAdjust.IsHexColor(c.color) by {
        var s := c.color[1..];
        forall i | 0 <= i < |s| ensures ColorAdjust.IsHexDigit(s[i]) {}
      }
    }
  }

  /** Looking up the id of a listed car returns that car. */
  lemma CarForListedId(i: int)
    requires 0 <= i < |Cars|
    ensures CarFor(Cars[i].id) == Cars[i]
  {
    CarIdsDistinct();
  }
}
