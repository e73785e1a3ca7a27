/** The property details modal: the main image and gallery, the headline
    fields, the description, the list of other characteristics, the owner
    card and the admin actions. */
module PropertyDetailsModal {
  import opened Common

  const Placeholder := "https://via.placeholder.com/600x400?text=No+Image"
  const NoDescription := "Aucune description fournie."

  /** The `attributes` keys with a place of their own in the modal (or none
      at all); they are not listed as characteristics. */
  const ReservedKeys: set<string> :=
    {"title", "description", "price", "address", "city", "latitude", "longitude", "status", "property_type_id"}

  /** The owner, as `owner_details` carries it; missing texts are `""`. */
  datatype Owner = Owner(firstName: string, profileImageUrl: string, phone: string)

  /** A property as the modal reads it. The root fields are JSON values
      (`Null` when absent); `attributes` and `imageUrls` are `None` when the
      record has none; `isValidated` is the truthiness of `is_validated`. */
  datatype Property = Property(
    id: int,
    isValidated: bool,
    title: Value,
    address: Value,
    city: Value,
    price: Value,
    description: Value,
    attributes: Option<seq<(string, Value)>>,
    imageUrls: Option<seq<string>>,
    owner: Option<Owner>)

  /** `attributes.key`: the value of the first entry with that key, `Null`
      when there is none. */
  function Lookup(entries: seq<(string, Value)>, key: string): (v: Value)
    ensures v != Null ==> exists i :: 0 <= i < |entries| && entries[i] == (key, v)
    ensures (forall i :: 0 <= i < |entries| ==> entries[i].0 != key) ==> v == Null
    ensures forall i ::
      (0 <= i < |entries| && entries[i].0 == key && forall j :: 0 <= j < i ==> entries[j].0 != key)
      ==> v == entries[i].1
  {
    if entries == [] then Null
    else if entries[0].0 == key then entries[0].1
    else
      var v := Lookup(entries[1..], key);
      assert v != Null ==> exists i :: 0 <= i < |entries| && entries[i] == (key, v) by {
        if v != Null {
          var i :| 0 <= i < |entries[1..]| && entries[1..][i] == (key, v);
          assert entries[i + 1] == (key, v);
        }
      }
      v
  }

  /** `property.attributes || {}`. */
  function AttributesOf(p: Property): (r: seq<(string, Value)>)
    ensures p.attributes.Some? ==> r == p.attributes.value
    ensures p.attributes.None? ==> r == []
  {
    match p.attributes
    case Some(a) => a
    case None => []
  }

  /** `property.image_urls || []`. */
  function ImagesOf(p: Property): (r: seq<string>)
    ensures p.imageUrls.Some? ==> r == p.imageUrls.value
    ensures p.imageUrls.None? ==> r == []
  {
    match p.imageUrls
    case Some(u) => u
    case None => []
  }

  /** A characteristic is listed when its key is not reserved and its value
      is truthy. */
  predicate ShowCharacteristic(e: (string, Value)) {
    e.0 !in ReservedKeys && Truthy(e.1)
  }

  /** A listed characteristic: the key with underscores as spaces, and the
      value. */
  datatype Characteristic = Characteristic(key: string, caption: string, value: Value)

  function CharacteristicFor(e: (string, Value)): (c: Characteristic)
    ensures c.key == e.0 && c.value == e.1
    ensures |c.caption| == |e.0| && '_' !in c.caption
    ensures forall i :: 0 <= i < |e.0| && e.0[i] == '_' ==> c.caption[i] == ' '
    ensures forall i :: 0 <= i < |e.0| && e.0[i] != '_' ==> c.caption[i] == e.0[i]
  {
    Characteristic(e.0, ReplaceChar(e.0, '_', ' '), e.1)
  }

  function Characteristics(entries: seq<(string, Value)>): (r: seq<Characteristic>)
    ensures |r| == |Filter(entries, ShowCharacteristic)|
    ensures forall i :: 0 <= i < |r| ==> r[i] == CharacteristicFor(Filter(entries, ShowCharacteristic)[i])
  {
    var shown := Filter(entries, ShowCharacteristic);
    seq(|shown|, i requires 0 <= i < |shown| => CharacteristicFor(shown[i]))
  }

  /** Every entry with a free key and a truthy value is listed, and every
      listed one comes from such an entry. */
  lemma CharacteristicsExactly(entries: seq<(string, Value)>, e: (string, Value))
    ensures CharacteristicFor(e) in Characteristics(entries) <==> e in entries && ShowCharacteristic(e)
  {
    var shown := Filter(entries, ShowCharacteristic);
    var cs := Characteristics(entries);
    FilterMembership(entries, ShowCharacteristic, e);
    if CharacteristicFor(e) in cs {
      var i :| 0 <= i < |cs| && cs[i] == CharacteristicFor(e);
      assert shown[i] in shown;
      assert shown[i] == e;
    }
    if e in shown {
      var i :| 0 <= i < |shown| && shown[i] == e;
      assert cs[i] == CharacteristicFor(e);
    }
  }

  /** No reserved key is ever listed. */
  lemma ReservedKeysNeverListed(entries: seq<(string, Value)>)
    ensures forall c :: c in Characteristics(entries) ==> c.key !in ReservedKeys && Truthy(c.value)
  {
    var shown := Filter(entries, ShowCharacteristic);
    var cs := Characteristics(entries);
    forall c | c in cs ensures c.key !in ReservedKeys && Truthy(c.value) {
      var i :| 0 <= i < |cs| && cs[i] == c;
      assert shown[i] in shown;
    }
  }

  datatype OwnerAvatar = OwnerPhoto(url: string) | OwnerInitial(letter: char)

  /** The owner avatar: the photo, else the first letter of the first name
      as written, else '?'. */
  function OwnerAvatarOf(o: Owner): (r: OwnerAvatar)
    ensures r.OwnerPhoto? <==> o.profileImageUrl != ""
    ensures r.OwnerPhoto? ==> r.url == o.profileImageUrl
    ensures r.OwnerInitial? && o.firstName != "" ==> r.letter == o.firstName[0]
    ensures r.OwnerInitial? && o.firstName == "" ==> r.letter == '?'
  {
    if o.profileImageUrl != "" then OwnerPhoto(o.profileImageUrl)
    else if o.firstName != "" then OwnerInitial(o.firstName[0])
    else OwnerInitial('?')
  }

  /** The owner card: the owner's details, or the "unavailable" note. */
  datatype OwnerCard = OwnerUnavailable | OwnerDetails(avatar: OwnerAvatar, phone: string)

  function OwnerCardOf(p: Property): (r: OwnerCard)
    ensures r.OwnerUnavailable? <==> p.owner.None?
    ensures r.OwnerDetails? ==> r.avatar == OwnerAvatarOf(p.owner.value)
    ensures r.OwnerDetails? ==> r.phone != ""
    ensures r.OwnerDetails? && p.owner.value.phone != "" ==> r.phone == p.owner.value.phone
    ensures r.OwnerDetails? && p.owner.value.phone == "" ==> r.phone == "Non renseigné"
  {
    match p.owner
    case None => OwnerUnavailable
    case Some(o) => OwnerDetails(OwnerAvatarOf(o), if o.phone != "" then o.phone else "Non renseigné")
  }

  datatype AdminAction = ValidateProperty | DeleteProperty

  /** What the modal shows. `gallery` is empty when the gallery section is
      hidden. */
  datatype DetailsView = DetailsView(
    validated: bool,
    mainImage: string,
    gallery: seq<string>,
    title: Value,
    address: Value,
    city: Value,
    price: PriceText,
    description: Value,
    characteristics: seq<Characteristic>,
    owner: OwnerCard,
    actions: seq<AdminAction>)

  /** The modal: nothing while closed or without a property; otherwise each
      headline field prefers the root value over the `attributes` entry. */
  function Render(isOpen: bool, property: Option<Property>): (r: Option<DetailsView>)
    ensures r.None? <==> !isOpen || property.None?
    ensures r.Some? ==>
      var p := property.value;
      var attrs := AttributesOf(p);
      var images := ImagesOf(p);
      var v := r.value;
      v.validated == p.isValidated
      && (|images| > 0 ==> v.mainImage == images[0])
      && (|images| == 0 ==> v.mainImage == Placeholder)
      && (|images| > 1 ==> v.gallery == images)
      && (|images| <= 1 ==> v.gallery == [])
      && v.title == Or(p.title, Lookup(attrs, "title"))
      && v.address == Or(p.address, Lookup(attrs, "address"))
      && v.city == Or(p.city, Lookup(attrs, "city"))
      && v.price == FormatPrice(Or(p.price, Lookup(attrs, "price")))
      && v.description == Or(p.description, Or(Lookup(attrs, "description"), Str(NoDescription)))
      && v.characteristics == Characteristics(attrs)
      && v.owner == OwnerCardOf(p)
      && (ValidateProperty in v.actions <==> !p.isValidated)
      && DeleteProperty in v.actions
  {
    if !isOpen || property.None? then None
    else
      var p := property.value;
      var attrs := AttributesOf(p);
      var images := ImagesOf(p);
      Some(DetailsView(
        p.isValidated,
        if |images| > 0 then images[0] else Placeholder,
        if |images| > 1 then images else [],
        Or(p.title, Lookup(attrs, "title")),
        Or(p.address, Lookup(attrs, "address")),
        Or(p.city, Lookup(attrs, "city")),
        FormatPrice(Or(p.price, Lookup(attrs, "price"))),
        Or(p.description, Or(Lookup(attrs, "description"), Str(NoDescription))),
        Characteristics(attrs),
        OwnerCardOf(p),
        (if p.isValidated then [] else [ValidateProperty]) + [DeleteProperty]))
  }

  /** The description line is never empty. */
  lemma DescriptionAlwaysShown(isOpen: bool, property: Option<Property>)
    requires isOpen && property.Some?
    ensures Truthy(Render(isOpen, property).value.description)
  {
  }

  /** A headline field that is also an attribute never shows twice: the
      keys the headline reads are all reserved. */
  lemma HeadlineKeysReserved(isOpen: bool, property: Option<Property>)
    requires isOpen && property.Some?
    ensures forall c :: c in Render(isOpen, property).value.characteristics ==>
      c.key != "title" && c.key != "address" && c.key != "city" && c.key != "price" && c.key != "description"
  {
    ReservedKeysNeverListed(AttributesOf(property.value));
  }
}
