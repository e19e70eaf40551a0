/**
 * The client's car registration form (app/client/register-car/page.tsx): the
 * model year is checked against a range that ends one year after the current
 * one, and an accepted form is sent through `createCar`.
 */
module RegisterCar {
  import opened Js
  import opened Lists
  import opened Io
  import CarsApi

  /** `!yearNum || yearNum < 1950 || yearNum > maxYear`, with `maxYear` the
      current year plus one; the current year is a parameter (lines 22-28). */
  predicate YearRejected(yearNum: JsValue, maxYear: int)
    ensures yearNum.Num? || yearNum.NaN? ==>
            (!YearRejected(yearNum, maxYear) <==> yearNum.Num? && 1950 <= yearNum.n <= maxYear)
  {
    !Truthy(yearNum) || (yearNum.Num? && yearNum.n < 1950) || (yearNum.Num? && yearNum.n > maxYear)
  }

  /** The error the form shows for a rejected year, or None when the year is accepted. */
  function YearCheck(year: string, currentYear: int): (r: Option<string>)
    ensures r.None? <==> exists n :: ToNumber(Str(year)) == Num(n) && 1950 <= n <= currentYear + 1
    ensures r.Some? ==> r.value == "Year must be between 1950 and " + NumberToString(currentYear + 1)
  {
    var yearNum := ToNumber(Str(year));
    if YearRejected(yearNum, currentYear + 1) then
      Some("Year must be between 1950 and " + NumberToString(currentYear + 1))
    else None
  }

  /** Both ends of the range are accepted when typed as digits. */
  lemma YearBoundsInclusive(currentYear: int)
    requires currentYear >= 1949
    ensures YearCheck("1950", currentYear).None?
    ensures YearCheck(NumberToString(currentYear + 1), currentYear).None?
  {
    NumberStringRoundTrip(1950);
    assert NumberToString(1950) == "1950" by {
      assert Digits(1950) == "1950";
    }
    NumberStringRoundTrip(currentYear + 1);
  }

  /** A year just outside either end is rejected. */
  lemma YearOutsideRejected(currentYear: int)
    ensures YearCheck(NumberToString(1949), currentYear).Some?
    ensures YearCheck(NumberToString(currentYear + 2), currentYear).Some?
  {
    NumberStringRoundTrip(1949);
    NumberStringRoundTrip(currentYear + 2);
  }

  /** A blank field reads as 0 and is rejected. */
  lemma BlankYearRejected(currentYear: int)
    ensures YearCheck("", currentYear).Some?
  {
    assert Trim("") == "";
  }

  /** Every entry that `Number` reads as NaN is rejected. */
  lemma TextYearRejected(year: string, currentYear: int)
    requires ToNumber(Str(year)).NaN?
    ensures YearCheck(year, currentYear).Some?
  {
  }

  /** An entry holding a letter or any other character that is not a digit, a
      sign or white space, wherever it stands, reads as NaN and is rejected. */
  lemma StrayCharacterYearRejected(year: string, k: int, currentYear: int)
    requires 0 <= k < |year| && !IsDigit(year[k]) && year[k] != '-' && year[k] != '+' && !IsSpace(year[k])
    ensures ToNumber(Str(year)).NaN?
    ensures YearCheck(year, currentYear).Some?
  {
    ParseNumberStray(year, k);
  }

  /** The object the form hands to `createCar` (lines 31-36). */
  function SubmittedCar(brand: string, model: string, yearNum: JsValue, plateNumber: string): (car: Record)
    ensures car.Keys == {"brand", "model", "year", "plate"}
    ensures Prop(car, "plate") == Str(plateNumber) && Prop(car, "year") == yearNum
  {
    map["brand" := Str(brand), "model" := Str(model), "year" := yearNum, "plate" := Str(plateNumber)]
  }

  /** What reaches the backend: the brand, model and numeric year as entered,
      and the plate input under `plateNumber`, with no `plate` key. */
  lemma PostedCar(brand: string, model: string, yearNum: JsValue, plateNumber: string)
    ensures CarsApi.CarPayload(SubmittedCar(brand, model, yearNum, plateNumber)) ==
            map["brand" := Str(brand), "model" := Str(model), "year" := yearNum, "plateNumber" := Str(plateNumber)]
  {
    var p := CarsApi.CarPayload(SubmittedCar(brand, model, yearNum, plateNumber));
    var q := map["brand" := Str(brand), "model" := Str(model), "year" := yearNum, "plateNumber" := Str(plateNumber)];
    assert p.Keys == q.Keys;
    forall k | k in p ensures p[k] == q[k] {
      assert Prop(p, k) == Prop(q, k);
    }
  }

  class RegisterCarPage {
    const world: World
    var brand: string
    var model: string
    var year: string
    var plateNumber: string
    var error: string

    constructor (world: World)
      ensures this.world == world && brand == "" && model == "" && year == "" && plateNumber == "" && error == ""
    {
      this.world := world;
      brand, model, year, plateNumber, error := "", "", "", "", "";
    }

    /** `handleSubmit`: the error is cleared; a rejected year sets its message and
        sends nothing; otherwise one `createCar`, then the dashboard on success or
        an error message on failure. */
    method HandleSubmit(currentYear: int, created: bool)
      modifies this`error, world`trace
      ensures var posted := Remote(Post("/cars", CarsApi.CarPayload(
                              SubmittedCar(brand, model, ToNumber(Str(year)), plateNumber))));
              && (YearCheck(year, currentYear).Some? ==>
                    error == YearCheck(year, currentYear).value && world.trace == old(world.trace))
              && (YearCheck(year, currentYear).None? && created ==>
                    error == "" && world.trace == old(world.trace) + [posted, Navigate("/client/dashboard")])
              && (YearCheck(year, currentYear).None? && !created ==>
                    error == "Error registering the car." && world.trace == old(world.trace) + [posted])
    {
      error := "";
      var yearNum := ToNumber(Str(year));
      var maxYear := currentYear + 1;
      if YearRejected(yearNum, maxYear) {
        error := "Year must be between 1950 and " + NumberToString(maxYear);
        return;
      }
      var res := CarsApi.CreateCar(world, SubmittedCar(brand, model, yearNum, plateNumber),
                                   if created then Ok(Undefined) else Failed);
      if res.Ok? {
        world.trace := world.trace + [Navigate("/client/dashboard")];
      } else {
        error := "Error registering the car.";
      }
    }
  }
}
