/**
 The data objects the services receive (CardData, BoardData, ColumnData):
 their field shapes, their validation rules, and the `forCreate` /
 `forUpdate` constructors.
 */
module Dto {
  import opened Wrappers
  import Text

  /** A field typed `string|Optional`: either absent (`Optional`) or a value.
      This is different from `null`, which such a field never holds. */
  datatype Field<+T> = Absent | Given(value: T)

  /** `$x ?? Optional::create()`: `null` becomes absent. */
  function FromNullable<T>(x: Option<T>): (f: Field<T>)
    ensures f.Absent? <==> x.None?
    ensures f.Given? ==> f.value == x.value
  {
    match x
    case None => Absent
    case Some(v) => Given(v)
  }

  /** The inverse reading: absent as `null`. */
  function ToNullable<T>(f: Field<T>): (x: Option<T>)
    ensures x.None? <==> f.Absent?
  {
    match f
    case Absent => None
    case Given(v) => Some(v)
  }

  /** `null` and absent are two spellings of one thing: converting either
      way and back gives the original. */
  lemma NullableRoundTrip<T>(x: Option<T>, f: Field<T>)
    ensures ToNullable(FromNullable(x)) == x
    ensures FromNullable(ToNullable(f)) == f
  {
  }

  /** `#[Required, StringType, Max(255)]`: present, not blank after trimming,
      at most 255 characters. */
  predicate RequiredShortString(s: string) {
    Text.Trim(s) != "" && |s| <= 255
  }

  datatype CardData = CardData(title: Field<string>, description: Option<string>)

  datatype BoardData = BoardData(name: Field<string>, description: Option<string>)

  datatype ColumnData = ColumnData(name: Field<string>, position: Option<int>)

  /** CardData's rules: a present title is a required string of at most 255
      characters; the description is any string or `null`. */
  predicate ValidCardData(d: CardData) {
    d.title.Given? ==> RequiredShortString(d.title.value)
  }

  /** BoardData's rules, the same shape as CardData's. */
  predicate ValidBoardData(d: BoardData) {
    d.name.Given? ==> RequiredShortString(d.name.value)
  }

  /** ColumnData's rules: the name as above; a position is `null` or `>= 0`. */
  predicate ValidColumnData(d: ColumnData) {
    && (d.name.Given? ==> RequiredShortString(d.name.value))
    && (d.position.Some? ==> d.position.value >= 0)
  }

  /** `CardData::forCreate($title, $description)`. */
  function CardForCreate(title: string, description: Option<string> := None): (d: CardData)
    ensures d.title.Given? && d.title.value == title && d.description == description
    ensures ValidCardData(d) <==> RequiredShortString(title)
  {
    CardData(Given(title), description)
  }

  /** `CardData::forUpdate($title, $description)`. */
  function CardForUpdate(title: Option<string> := None, description: Option<string> := None): (d: CardData)
    ensures d.title.Absent? <==> title.None?
    ensures d.description == description
  {
    CardData(FromNullable(title), description)
  }

  /** `BoardData::forCreate($name, $description)`. */
  function BoardForCreate(name: string, description: Option<string> := None): (d: BoardData)
    ensures d.name.Given? && d.name.value == name && d.description == description
    ensures ValidBoardData(d) <==> RequiredShortString(name)
  {
    BoardData(Given(name), description)
  }

  /** `BoardData::forUpdate($name, $description)`. */
  function BoardForUpdate(name: Option<string> := None, description: Option<string> := None): (d: BoardData)
    ensures d.name.Absent? <==> name.None?
    ensures d.description == description
  {
    BoardData(FromNullable(name), description)
  }

  /** `ColumnData::forCreate($name)`: the position stays `null`. */
  function ColumnForCreate(name: string): (d: ColumnData)
    ensures d.name.Given? && d.name.value == name && d.position.None?
    ensures ValidColumnData(d) <==> RequiredShortString(name)
  {
    ColumnData(Given(name), None)
  }

  /** `ColumnData::forUpdate($name, $position)`. */
  function ColumnForUpdate(name: Option<string> := None, position: Option<int> := None): (d: ColumnData)
    ensures d.name.Absent? <==> name.None?
    ensures d.position == position
  {
    ColumnData(FromNullable(name), position)
  }

  /** `forUpdate` is a bijection between nullable arguments and data objects:
      every CardData is built by exactly one call, and the call's arguments
      can be read back from it. */
  lemma CardForUpdateRoundTrip(d: CardData, title: Option<string>, description: Option<string>)
    ensures CardForUpdate(ToNullable(d.title), d.description) == d
    ensures var e := CardForUpdate(title, description); ToNullable(e.title) == title && e.description == description
  {
    match d.title
    case Absent =>
    case Given(v) =>
  }

  lemma BoardForUpdateRoundTrip(d: BoardData, name: Option<string>, description: Option<string>)
    ensures BoardForUpdate(ToNullable(d.name), d.description) == d
    ensures var e := BoardForUpdate(name, description); ToNullable(e.name) == name && e.description == description
  {
    match d.name
    case Absent =>
    case Given(v) =>
  }

  lemma ColumnForUpdateRoundTrip(d: ColumnData, name: Option<string>, position: Option<int>)
    ensures ColumnForUpdate(ToNullable(d.name), d.position) == d
    ensures var e := ColumnForUpdate(name, position); ToNullable(e.name) == name && e.position == position
  {
    match d.name
    case Absent =>
    case Given(v) =>
  }
}
