/** The Iterator demo: a car park backed by a list, walked by a cursor-based enumerator. */
module Iterator {

  datatype Car = Car(name: string, maxSpeed: int)

  /** The cars whose name is not `name`, in their original order. */
  function Without(cars: seq<Car>, name: string): (r: seq<Car>)
    ensures |r| <= |cars|
    ensures forall c :: c in r <==> c in cars && c.name != name
  {
    if cars == [] then []
    else if cars[0].name == name then Without(cars[1..], name)
    else [cars[0]] + Without(cars[1..], name)
  }

  /** Removing from a concatenation removes from each part and keeps the parts in order,
      so the remaining cars keep their relative order. */
  lemma {:induction false} WithoutAppend(a: seq<Car>, b: seq<Car>, name: string)
    ensures Without(a + b, name) == Without(a, name) + Without(b, name)
  {
    if a == [] {
      assert a + b == b;
    } else {
      assert (a + b)[1..] == a[1..] + b;
      WithoutAppend(a[1..], b, name);
    }
  }

  /** Removing a name no car has leaves the list as it was. */
  lemma {:induction false} WithoutAbsent(cars: seq<Car>, name: string)
    requires forall c :: c in cars ==> c.name != name
    ensures Without(cars, name) == cars
  {
    if cars != [] {
      assert cars[0] in cars;
      WithoutAbsent(cars[1..], name);
    }
  }

  /** Removing the same name twice is the same as removing it once. */
  lemma WithoutIdempotent(cars: seq<Car>, name: string)
    ensures Without(Without(cars, name), name) == Without(cars, name)
  {
    WithoutAbsent(Without(cars, name), name);
  }

  class AutoPark {
    var cars: seq<Car>

    constructor ()
      ensures cars == []
    {
      cars := [];
    }

    method Add(car: Car)
      modifies this
      ensures cars == old(cars) + [car]
    {
      cars := cars + [car];
    }

    /** Deletes every car with the given name. */
    method Remove(name: string)
      modifies this
      ensures cars == Without(old(cars), name)
    {
      cars := Without(cars, name);
    }

    method GetEnumerator() returns (e: Enumerator)
      ensures fresh(e) && e.park == this && e.cursor == -1
    {
      e := new Enumerator(this);
    }
  }

  /** Walks the park's live list: the cursor starts before the first car. */
  class Enumerator {
    const park: AutoPark
    var cursor: int

    constructor (park: AutoPark)
      ensures this.park == park && cursor == -1
    {
      this.park := park;
      cursor := -1;
    }

    /** The car under the cursor; reading it elsewhere is an index error. */
    function Current(): (c: Car)
      reads this, park
      requires 0 <= cursor < |park.cars|
      ensures c in park.cars
    {
      park.cars[cursor]
    }

    /** Advances the cursor and tells whether it is still on a car. */
    method MoveNext() returns (more: bool)
      modifies this
      ensures cursor == old(cursor) + 1
      ensures more <==> cursor < |park.cars|
    {
      cursor := cursor + 1;
      more := |park.cars| > cursor;
    }

    method Reset()
      modifies this
      ensures cursor == -1
    {
      cursor := -1;
    }
  }

  /** Calls MoveNext `calls` times on a fresh or reset enumerator: over n cars the first
      n answers are true and every later one is false. */
  method Advance(e: Enumerator, calls: nat) returns (answers: seq<bool>)
    requires e.cursor == -1
    modifies e
    ensures |answers| == calls && e.cursor == calls - 1
    ensures forall i :: 0 <= i < calls ==> (answers[i] <==> i < |e.park.cars|)
  {
    answers := [];
    while |answers| < calls
      invariant |answers| <= calls && e.cursor == |answers| - 1
      invariant forall i :: 0 <= i < |answers| ==> (answers[i] <==> i < |e.park.cars|)
    {
      var more := e.MoveNext();
      answers := answers + [more];
    }
  }

  /** The demo's foreach over the park: the k-th successful MoveNext puts the k-th car
      under the cursor, so the cars come out in insertion order. */
  method Collect(park: AutoPark) returns (seen: seq<Car>)
    ensures seen == park.cars
  {
    var e := park.GetEnumerator();
    seen := [];
    var more := e.MoveNext();
    while more
      invariant e.park == park && e.cursor == |seen| <= |park.cars|
      invariant seen == park.cars[..|seen|]
      invariant more <==> |seen| < |park.cars|
      decreases |park.cars| - |seen|
    {
      seen := seen + [e.Current()];
      more := e.MoveNext();
    }
  }

  /** The demo run: three cars added in order are enumerated in that order. */
  method Demo() returns (seen: seq<Car>)
    ensures seen == [Car("bmw", 100), Car("mersedes", 120), Car("jeep", 87)]
  {
    var park := new AutoPark();
    park.Add(Car("bmw", 100));
    park.Add(Car("mersedes", 120));
    park.Add(Car("jeep", 87));
    seen := Collect(park);
  }
}
