/** The car record, the record without its id, a partial update, and the
    built-in example collection (types/car.ts, hooks/use-cars.tsx). */
module Cars {
  import opened Wrappers

  /** A car listing. `vin`, `description` and `thumbnails` may be absent. */
  datatype Car = Car(
    id: string,
    brand: string,
    model: string,
    year: int,
    color: string,
    price: int,
    vin: Option<string>,
    description: Option<string>,
    thumbnails: Option<seq<string>>)

  /** A car without its id: what `addCar` receives and what the add form submits. */
  datatype CarInput = CarInput(
    brand: string,
    model: string,
    year: int,
    color: string,
    price: int,
    vin: Option<string>,
    description: Option<string>,
    thumbnails: Option<seq<string>>)

  /** A `Partial<Car>`: every key may be left out (None). A key that is present
      replaces the stored field, and for the optional fields a present key may
      itself carry `undefined` (Some(None)). */
  datatype CarPatch = CarPatch(
    id: Option<string>,
    brand: Option<string>,
    model: Option<string>,
    year: Option<int>,
    color: Option<string>,
    price: Option<int>,
    vin: Option<Option<string>>,
    description: Option<Option<string>>,
    thumbnails: Option<Option<seq<string>>>)

  /** The patch with no keys at all: `{}`. */
  const NoChanges := CarPatch(None, None, None, None, None, None, None, None, None)

  /** Drops the id of a car. */
  function WithoutIdField(c: Car): CarInput {
    CarInput(c.brand, c.model, c.year, c.color, c.price, c.vin, c.description, c.thumbnails)
  }

  /** `{ ...input, id }`: the input's fields with the given id put on top. */
  function WithId(input: CarInput, id: string): (c: Car)
    ensures c.id == id
    ensures WithoutIdField(c) == input
  {
    Car(id, input.brand, input.model, input.year, input.color, input.price,
        input.vin, input.description, input.thumbnails)
  }

  /** A present key wins over the earlier value. */
  function Over<T>(later: Option<T>, earlier: T): T {
    if later.Some? then later.value else earlier
  }

  /** `{ ...c, ...p }`: shallow merge, the patch's keys win. */
  function Merge(c: Car, p: CarPatch): Car {
    Car(Over(p.id, c.id), Over(p.brand, c.brand), Over(p.model, c.model),
        Over(p.year, c.year), Over(p.color, c.color), Over(p.price, c.price),
        Over(p.vin, c.vin), Over(p.description, c.description),
        Over(p.thumbnails, c.thumbnails))
  }

  /** `{ ...p, ...q }`: the keys of both, those of `q` winning. */
  function Then(p: CarPatch, q: CarPatch): CarPatch {
    CarPatch(
      if q.id.Some? then q.id else p.id,
      if q.brand.Some? then q.brand else p.brand,
      if q.model.Some? then q.model else p.model,
      if q.year.Some? then q.year else p.year,
      if q.color.Some? then q.color else p.color,
      if q.price.Some? then q.price else p.price,
      if q.vin.Some? then q.vin else p.vin,
      if q.description.Some? then q.description else p.description,
      if q.thumbnails.Some? then q.thumbnails else p.thumbnails)
  }

  /** A key the patch leaves out keeps the old field; a key it carries decides the new one. */
  lemma MergeFieldwise(c: Car, p: CarPatch)
    ensures Merge(c, p).id == (if p.id.Some? then p.id.value else c.id)
    ensures Merge(c, p).brand == (if p.brand.Some? then p.brand.value else c.brand)
    ensures Merge(c, p).model == (if p.model.Some? then p.model.value else c.model)
    ensures Merge(c, p).year == (if p.year.Some? then p.year.value else c.year)
    ensures Merge(c, p).color == (if p.color.Some? then p.color.value else c.color)
    ensures Merge(c, p).price == (if p.price.Some? then p.price.value else c.price)
    ensures Merge(c, p).vin == (if p.vin.Some? then p.vin.value else c.vin)
    ensures Merge(c, p).description == (if p.description.Some? then p.description.value else c.description)
    ensures Merge(c, p).thumbnails == (if p.thumbnails.Some? then p.thumbnails.value else c.thumbnails)
  {
  }

  /** Merging `{}` changes nothing. */
  lemma MergeNoChanges(c: Car)
    ensures Merge(c, NoChanges) == c
  {
  }

  /** Applying the same update twice is the same as applying it once. */
  lemma MergeIdempotent(c: Car, p: CarPatch)
    ensures Merge(Merge(c, p), p) == Merge(c, p)
  {
  }

  /** Two successive updates equal one update by their spread. */
  lemma MergeThen(c: Car, p: CarPatch, q: CarPatch)
    ensures Merge(Merge(c, p), q) == Merge(c, Then(p, q))
  {
  }

  /** The five example cars `mockCars` served when local storage holds no collection. */
  const MockCars: seq<Car> := [
    Car("1", "Toyota", "Camry", 2023, "Silver", 28000, Some("1HGBH41JXMN109186"),
        Some("Reliable sedan with excellent fuel economy"),
        Some(["https://images.unsplash.com/photo-1621007947382-bb3c3994e3fb?w=500&h=300&fit=crop",
              "https://images.unsplash.com/photo-1605559424843-9e4c228bf1c2?w=500&h=300&fit=crop"])),
    Car("2", "Honda", "Civic", 2022, "Blue", 24000, Some("2HGFC2F59NH123456"),
        Some("Compact car perfect for city driving"),
        Some(["https://images.unsplash.com/photo-1606664515524-ed2f786a0bd6?w=500&h=300&fit=crop"])),
    Car("3", "BMW", "X5", 2023, "Black", 65000, Some("5UXCR6C0XN9123456"),
        Some("Luxury SUV with premium features"),
        Some(["https://images.unsplash.com/photo-1555215695-3004980ad54e?w=500&h=300&fit=crop"])),
    Car("4", "Ford", "F-150", 2023, "Red", 45000, Some("1FTFW1ET5NFC12345"),
        Some("America's best-selling truck"),
        Some(["https://images.unsplash.com/photo-1594736797933-d0401ba2fe65?w=500&h=300&fit=crop"])),
    Car("5", "Mercedes", "C-Class", 2022, "White", 55000, Some("WDDGF4HB1NR123456"),
        Some("Elegant luxury sedan"),
        Some(["https://images.unsplash.com/photo-1618843479313-40f8afb4b4d8?w=500&h=300&fit=crop"]))
  ]
}
