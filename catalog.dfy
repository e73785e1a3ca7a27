/** The catalogue records the configuration view and its two modals pass
    around, as the backend returns them. */
module Catalog {
  import opened Common

  /** The five data types the attribute form offers, in its menu order. */
  datatype DataType = Text | Integer | Decimal | Boolean | Enum

  /** The string the backend stores for each data type. */
  function Code(d: DataType): (r: string)
    ensures r != ""
  {
    match d
    case Text => "string"
    case Integer => "integer"
    case Decimal => "decimal"
    case Boolean => "boolean"
    case Enum => "enum"
  }

  /** Reading a stored data type back; strings outside the form's set are
      refused. */
  function ParseDataType(s: string): (r: Option<DataType>)
    ensures r.Some? ==> Code(r.value) == s
  {
    if s == "string" then Some(Text)
    else if s == "integer" then Some(Integer)
    else if s == "decimal" then Some(Decimal)
    else if s == "boolean" then Some(Boolean)
    else if s == "enum" then Some(Enum)
    else None
  }

  /** Every data type survives the trip to the backend and back, so two data
      types never share a stored string. */
  lemma ParseCode(d: DataType)
    ensures ParseDataType(Code(d)) == Some(d)
  {
  }

  /** The `value`s of the data-type menu's options, in menu order. */
  const MenuValues: seq<string> := ["string", "integer", "decimal", "boolean", "enum"]

  /** The menu offers exactly the five data types: each option value reads
      back as a data type, in menu order, and every data type has its
      option. */
  lemma MenuOffersEveryType()
    ensures |MenuValues| == 5 && Distinct(MenuValues)
    ensures forall v :: v in MenuValues ==> ParseDataType(v).Some? && Code(ParseDataType(v).value) == v
    ensures forall d: DataType :: Code(d) in MenuValues
    ensures ParseDataType(MenuValues[0]) == Some(Text) && ParseDataType(MenuValues[4]) == Some(Enum)
  {
    forall d: DataType ensures Code(d) in MenuValues {
      match d
      case Text => assert Code(d) == MenuValues[0];
      case Integer => assert Code(d) == MenuValues[1];
      case Decimal => assert Code(d) == MenuValues[2];
      case Boolean => assert Code(d) == MenuValues[3];
      case Enum => assert Code(d) == MenuValues[4];
    }
  }

  /** One selectable value of an enum attribute (`{option_value}`). */
  datatype AttributeOption = AttributeOption(optionValue: string)

  /** A global attribute; `options` is `None` when the record carries no
      option array. */
  datatype Attribute = Attribute(
    id: int,
    name: string,
    dataType: DataType,
    isFilterable: bool,
    options: Option<seq<AttributeOption>>)

  /** A property type with its ordered attribute list. `description` is `None`
      when the backend sent `null` or nothing. */
  datatype PropertyType = PropertyType(
    id: int,
    name: string,
    description: Option<string>,
    attributes: seq<Attribute>)
}
