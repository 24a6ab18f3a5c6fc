/** `getDisplayName` (src/examples/19.ts): an item that has a `name` property
    is shown by that name; any other item is a `Human` and is shown as
    `firstName + '_' + lastName`. The branch is chosen at run time by the
    presence of `name`, so an item that is both an `Animal` and a `Human`
    takes the animal branch, whatever its declared return type says. */
module DisplayName {
  import opened Js

  /** An item, by its own properties. */
  type Item = map<string, Value>

  /** `item` satisfies the interface `Animal`. */
  predicate IsAnimal(item: Item) {
    "name" in item && item["name"].Str?
  }

  /** `item` satisfies the interface `Human`. */
  predicate IsHuman(item: Item) {
    "firstName" in item && item["firstName"].Str? && "lastName" in item && item["lastName"].Str?
  }

  /** The two object shapes returned: `{ animalName }` or `{ humanName: string }`.
      The animal name is the `name` property as it is, whatever its type. */
  datatype DisplayName = AnimalName(animalName: Value) | HumanName(humanName: string)

  const Separator: char := '_'

  function GetDisplayName(item: Item): (r: DisplayName)
    requires IsAnimal(item) || IsHuman(item)
    ensures r.AnimalName? <==> "name" in item
    ensures r.AnimalName? ==> r.animalName == item["name"]
    ensures r.HumanName? ==> IsHuman(item)
    ensures r.HumanName? ==>
      var first, last := item["firstName"].s, item["lastName"].s;
      |r.humanName| == |first| + |last| + 1 &&
      r.humanName[..|first|] == first &&
      r.humanName[|first|] == Separator &&
      r.humanName[|first| + 1..] == last
  {
    if "name" in item then AnimalName(item["name"])
    else HumanName(item["firstName"].s + [Separator] + item["lastName"].s)
  }

  /** Splits a human display name back at the separator that follows a first
      name of length `k`. */
  function SplitHumanName(display: string, k: nat): (r: (string, string))
    requires k < |display|
    ensures |r.0| == k && |r.0| + |r.1| + 1 == |display|
  {
    (display[..k], display[k + 1..])
  }

  /** The declared return type `TItem extends Human ? { humanName } : { animalName }`,
      with `TItem` the item's own type: it promises a human name exactly for a `Human`. */
  predicate DeclaredHumanName(item: Item) {
    IsHuman(item)
  }

  /** The runtime branch agrees with the declared return type except on items
      that have a `name` and are also a `Human`; the `as` casts hide the difference. */
  lemma DeclaredTypeAgreesUnlessBoth(item: Item)
    requires IsAnimal(item) || IsHuman(item)
    ensures (DeclaredHumanName(item) <==> GetDisplayName(item).HumanName?) <==> !("name" in item && IsHuman(item))
  {
  }

  /** `getDisplayName({ name: 'Patch', firstName: 'Matt', lastName: 'hehe' })` is
      declared to return a human name and returns the animal name `Patch`. */
  lemma DeclaredTypeMismatchExample()
    ensures var item := map["name" := Str("Patch"), "firstName" := Str("Matt"), "lastName" := Str("hehe")];
      DeclaredHumanName(item) && GetDisplayName(item) == AnimalName(Str("Patch"))
  {
  }

  /** The human display name loses nothing: knowing the first name's length,
      both names are recovered, even when they contain the separator. */
  lemma HumanNameRoundTrip(item: Item)
    requires "name" !in item && IsHuman(item)
    ensures GetDisplayName(item).HumanName?
    ensures var first := item["firstName"].s;
      SplitHumanName(GetDisplayName(item).humanName, |first|) == (first, item["lastName"].s)
  {
  }

  /** An `Animal` is shown by its own name, unchanged, even when it also has
      the properties of a `Human`: the `name` check comes first. */
  lemma AnimalTakesPriority(item: Item)
    requires IsAnimal(item)
    ensures GetDisplayName(item) == AnimalName(Str(item["name"].s))
  {
  }

  /** `getDisplayName({ name: 'Patch' })` */
  lemma PatchExample()
    ensures GetDisplayName(map["name" := Str("Patch")]) == AnimalName(Str("Patch"))
  {
  }

  /** `getDisplayName({ firstName: 'Matt', lastName: 'hehe' })` */
  lemma MattExample()
    ensures GetDisplayName(map["firstName" := Str("Matt"), "lastName" := Str("hehe")]) == HumanName("Matt_hehe")
  {
  }
}
