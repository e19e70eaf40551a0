/**
 * The mock cars table (components/manage-cars.tsx): a fixed list of cars,
 * searched by client, plate and "brand model".
 */
module ManageCars {
  import opened Js
  import opened Lists

  datatype MockCar = MockCar(id: int, clientName: string, brand: string, model: string, licensePlate: string)

  /** `${car.brand} ${car.model}` */
  function BrandModel(car: MockCar): string {
    car.brand + " " + car.model
  }

  predicate CarMatches(car: MockCar, searchTerm: string) {
    var t := Lower(searchTerm);
    Includes(Lower(car.clientName), t) || Includes(Lower(car.licensePlate), t) || Includes(Lower(BrandModel(car)), t)
  }

  /** `filteredCars` (lines 47-52) */
  function FilteredCars(cars: seq<MockCar>, searchTerm: string): (r: seq<MockCar>)
    ensures Sublist(r, cars)
    ensures forall x :: x in r <==> x in cars && CarMatches(x, searchTerm)
  {
    Filter(cars, x => CarMatches(x, searchTerm))
  }

  /** An empty term shows every car. */
  lemma EmptyTermShowsAll(cars: seq<MockCar>)
    ensures FilteredCars(cars, "") == cars
  {
    forall i | 0 <= i < |cars| ensures CarMatches(cars[i], "") {
      IncludesTrivial(Lower(cars[i].clientName));
    }
    FilterAll(cars, x => CarMatches(x, ""));
  }

  /** The brand alone, the model alone, and "brand model" each find the car, in
      any letter case. */
  lemma BrandOrModelFinds(cars: seq<MockCar>, car: MockCar)
    requires car in cars
    ensures car in FilteredCars(cars, car.brand)
    ensures car in FilteredCars(cars, car.model)
    ensures car in FilteredCars(cars, BrandModel(car))
  {
    var bm := BrandModel(car);
    assert Includes(Lower(bm), Lower(car.brand)) by {
      assert bm == car.brand + (" " + car.model);
      LowerConcat(car.brand, " " + car.model);
      IncludesParts(Lower(car.brand), Lower(" " + car.model));
    }
    assert Includes(Lower(bm), Lower(car.model)) by {
      LowerConcat(car.brand + " ", car.model);
      IncludesParts(Lower(car.brand + " "), Lower(car.model));
    }
    IncludesTrivial(Lower(bm));
    FilterMembers(cars, x => CarMatches(x, car.brand), car);
    FilterMembers(cars, x => CarMatches(x, car.model), car);
    FilterMembers(cars, x => CarMatches(x, bm), car);
  }
}
