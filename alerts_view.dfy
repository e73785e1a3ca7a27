/** The customer-alert list: saved searches, a status filter, the actions an
    alert offers, its badges, and the chips listing its search criteria. */
module AlertsView {
  import opened Common

  const New := "new"
  const Contacted := "contacted"
  const Closed := "closed"
  const AllFilter := "all"

  const DetailsUnavailable := "Détails non disponibles"
  const Indifferent := "Indifférent"
  const ArchiveFailed := "Erreur lors de l'archivage"
  const RestoreFailed := "Erreur lors de la restauration"
  const RespondFailed := "Erreur lors de la mise à jour"

  /** The customer attached to an alert; a missing photo URL is `""`. */
  datatype Customer = Customer(firstName: string, lastName: string, profileImageUrl: string)

  /** `request_details` once handed to `JSON.parse` and `Object.entries`:
      either those calls threw (malformed text, or the text `null`), or the
      entries in enumeration order. */
  datatype Details = NotAnObject | Entries(entries: seq<(string, Value)>)

  /** An alert. `archived` is the truthiness of `archived_at`; missing texts
      are `""`. */
  datatype Alert = Alert(
    id: int,
    status: string,
    city: string,
    archived: bool,
    customer: Option<Customer>,
    customerId: Option<int>,
    propertyTypeName: string,
    details: Details)

  // ---------------------------------------------------------------------
  // The status filter
  // ---------------------------------------------------------------------

  /** The predicate `a => filter === 'all' || a.status === filter`. */
  function KeepFor(filter: string): Alert -> bool {
    (a: Alert) => filter == AllFilter || a.status == filter
  }

  function FilteredAlerts(alerts: seq<Alert>, filter: string): (r: seq<Alert>)
    ensures |r| <= |alerts|
  {
    Filter(alerts, KeepFor(filter))
  }

  /** The 'all' filter keeps the list as it is. */
  lemma AllKeepsEverything(alerts: seq<Alert>)
    ensures FilteredAlerts(alerts, AllFilter) == alerts
  {
    FilterKeepsAll(alerts, KeepFor(AllFilter));
  }

  /** Any other filter keeps exactly the alerts with that status, each as
      often as it occurred. */
  lemma FilterKeepsExactlyStatus(alerts: seq<Alert>, filter: string, a: Alert)
    requires filter != AllFilter
    ensures a in FilteredAlerts(alerts, filter) <==> a in alerts && a.status == filter
    ensures multiset(FilteredAlerts(alerts, filter))[a] ==
      if a.status == filter then multiset(alerts)[a] else 0
  {
    FilterMembership(alerts, KeepFor(filter), a);
    FilterCount(alerts, KeepFor(filter), a);
  }

  /** Filtering keeps the original order: it distributes over any split of
      the list. */
  lemma FilterKeepsOrder(front: seq<Alert>, back: seq<Alert>, filter: string)
    ensures FilteredAlerts(front + back, filter) == FilteredAlerts(front, filter) + FilteredAlerts(back, filter)
  {
    FilterConcat(front, back, KeepFor(filter));
  }

  /** The filter button labels. */
  function FilterLabel(filter: string): (r: string)
    ensures filter == AllFilter ==> r == "Toutes"
    ensures filter == New ==> r == "Nouvelles"
    ensures filter != AllFilter && filter != New ==> r == "Traitées"
  {
    if filter == AllFilter then "Toutes" else if filter == New then "Nouvelles" else "Traitées"
  }

  // ---------------------------------------------------------------------
  // Actions, strip and badges
  // ---------------------------------------------------------------------

  datatype AlertAction = Restore | Contact | Archive

  /** An archived alert offers only Restore; an active one always offers
      Contact and, once it has been handled, Archive. */
  function Actions(a: Alert): (r: seq<AlertAction>)
    ensures a.archived ==> r == [Restore]
    ensures !a.archived ==> |r| >= 1 && r[0] == Contact
    ensures Archive in r <==> !a.archived && (a.status == Contacted || a.status == Closed)
    ensures Restore in r <==> a.archived
    ensures Distinct(r)
  {
    if a.archived then [Restore]
    else [Contact] + (if a.status == Contacted || a.status == Closed then [Archive] else [])
  }

  datatype Strip = Grey | Amber | Green

  /** The colour strip on the left of a card. */
  function StripOf(a: Alert): (s: Strip)
    ensures s == Grey <==> a.archived
    ensures s == Amber <==> !a.archived && a.status == New
    ensures s == Green <==> !a.archived && a.status != New
  {
    if a.archived then Grey else if a.status == New then Amber else Green
  }

  datatype AlertBadge = ArchivedBadge | NewBadge

  /** The badges next to the heading. */
  function Badges(a: Alert): (r: seq<AlertBadge>)
    ensures ArchivedBadge in r <==> a.archived
    ensures NewBadge in r <==> a.status == New && !a.archived
    ensures |r| <= 1
  {
    (if a.archived then [ArchivedBadge] else []) + (if a.status == New && !a.archived then [NewBadge] else [])
  }

  /** The badge and the strip agree: "Nouvelle" appears exactly on amber
      cards and "Archivée" exactly on grey ones. */
  lemma BadgesMatchStrip(a: Alert)
    ensures NewBadge in Badges(a) <==> StripOf(a) == Amber
    ensures ArchivedBadge in Badges(a) <==> StripOf(a) == Grey
  {
  }

  // ---------------------------------------------------------------------
  // Calls
  // ---------------------------------------------------------------------

  datatype AlertCall = ArchiveAlert(id: int) | UnarchiveAlert(id: int) | RespondTo(id: int, message: string)

  /** `handleRespond`: the prompt's answer (`None` when dismissed) must be a
      non-empty message. */
  function RespondCall(id: int, answer: Option<string>): (r: Option<AlertCall>)
    ensures r.Some? <==> answer.Some? && answer.value != ""
    ensures r.Some? ==> r.value == RespondTo(id, answer.value)
  {
    if answer.Some? && answer.value != "" then Some(RespondTo(id, answer.value)) else None
  }

  /** `handleArchive`: after confirmation. */
  function ArchiveCall(id: int, confirmed: bool): (r: Option<AlertCall>)
    ensures r.Some? <==> confirmed
    ensures r.Some? ==> r.value == ArchiveAlert(id)
  {
    if confirmed then Some(ArchiveAlert(id)) else None
  }

  /** The error toasts of the three handlers: archive and restore show the
      server's message when there is one; respond always shows its fixed
      text. */
  function FailureToast(call: AlertCall, err: CallError): (r: string)
    ensures r != ""
    ensures call.ArchiveAlert? ==> r == ErrorText(err, ArchiveFailed)
    ensures call.UnarchiveAlert? ==> r == ErrorText(err, RestoreFailed)
    ensures call.RespondTo? ==> r == RespondFailed
  {
    match call
    case ArchiveAlert(_) => ErrorText(err, ArchiveFailed)
    case UnarchiveAlert(_) => ErrorText(err, RestoreFailed)
    case RespondTo(_, _) => RespondFailed
  }

  /** Pressing an action button of alert `a`. */
  function Press(a: Alert, action: AlertAction, answer: Option<string>, confirmed: bool)
    : (r: Option<AlertCall>)
    ensures action == Restore ==> r == Some(UnarchiveAlert(a.id))
    ensures action == Contact ==> r == RespondCall(a.id, answer)
    ensures action == Archive ==> r == ArchiveCall(a.id, confirmed)
  {
    match action
    case Restore => Some(UnarchiveAlert(a.id))
    case Contact => RespondCall(a.id, answer)
    case Archive => ArchiveCall(a.id, confirmed)
  }

  /** Through the buttons, an archived alert can only be restored, and an
      active one is archived only once it has been handled. */
  lemma CallsFollowState(a: Alert, action: AlertAction, answer: Option<string>, confirmed: bool)
    requires action in Actions(a)
    ensures var r := Press(a, action, answer, confirmed);
      r.Some? ==>
        (r.value.UnarchiveAlert? <==> a.archived)
        && (r.value.ArchiveAlert? ==> a.status == Contacted || a.status == Closed)
  {
    if a.archived {
      assert action == Restore;
    }
  }

  // ---------------------------------------------------------------------
  // Card texts
  // ---------------------------------------------------------------------

  datatype Avatar = Photo(url: string) | Initial(letter: char)

  /** The customer avatar: the photo, else the upper-cased first letter of
      the first name, else 'C'. */
  function AvatarOf(a: Alert): (r: Avatar)
    ensures r.Photo? <==> a.customer.Some? && a.customer.value.profileImageUrl != ""
    ensures r.Photo? ==> r.url == a.customer.value.profileImageUrl
    ensures r.Initial? ==> !IsAsciiLower(r.letter)
    ensures r.Initial? && a.customer.Some? && a.customer.value.firstName != "" ==>
      r.letter == UpperChar(a.customer.value.firstName[0])
    ensures r.Initial? && (a.customer.None? || a.customer.value.firstName == "") ==> r.letter == 'C'
  {
    if a.customer.Some? && a.customer.value.profileImageUrl != "" then
      Photo(a.customer.value.profileImageUrl)
    else if a.customer.Some? && a.customer.value.firstName != "" then
      Initial(UpperChar(a.customer.value.firstName[0]))
    else Initial('C')
  }

  /** The customer heading: the full name, else `Client #` and the customer
      id, or '?' when the id is missing or zero. */
  function CustomerHeading(a: Alert): (r: string)
    ensures a.customer.Some? ==> r == a.customer.value.firstName + " " + a.customer.value.lastName
    ensures a.customer.None? && (a.customerId.None? || a.customerId.value == 0) ==>
      r == "Client #?"
    ensures a.customer.None? && a.customerId.Some? && a.customerId.value != 0 ==>
      r == "Client #" + IntToString(a.customerId.value)
  {
    match a.customer
    case Some(c) => c.firstName + " " + c.lastName
    case None =>
      "Client #" + (if a.customerId.Some? && a.customerId.value != 0 then IntToString(a.customerId.value) else "?")
  }

  /** The heading `Recherche à <city>`, with every zone when no city is
      set. */
  function CityHeading(a: Alert): (r: string)
    ensures a.city != "" ==> r == "Recherche à " + a.city
    ensures a.city == "" ==> r == "Recherche à Toutes zones"
  {
    "Recherche à " + (if a.city != "" then a.city else "Toutes zones")
  }

  /** The type chip. */
  function TypeChip(a: Alert): (r: string)
    ensures r != ""
    ensures a.propertyTypeName != "" ==> r == a.propertyTypeName
    ensures a.propertyTypeName == "" ==> r == "Recherche"
  {
    if a.propertyTypeName != "" then a.propertyTypeName else "Recherche"
  }

  // ---------------------------------------------------------------------
  // Detail chips
  // ---------------------------------------------------------------------

  /** The regular-expression class `\w`: ASCII letters, digits and `_`. */
  predicate IsWordChar(c: char) {
    'a' <= c <= 'z' || 'A' <= c <= 'Z' || '0' <= c <= '9' || c == '_'
  }

  /** Index `i` of `s` is matched by `\b\w`: a word character with no word
      character just before it. */
  predicate WordStart(s: string, i: int)
    requires 0 <= i < |s|
  {
    IsWordChar(s[i]) && (i == 0 || !IsWordChar(s[i - 1]))
  }

  /** `s.replace(/\b\w/g, l => l.toUpperCase())`: each matched character is
      upper-cased, every other one kept. */
  function CapitalizeWords(s: string): (r: string)
    ensures |r| == |s|
    ensures forall i :: 0 <= i < |s| && WordStart(s, i) ==> r[i] == UpperChar(s[i])
    ensures forall i :: 0 <= i < |s| && !WordStart(s, i) ==> r[i] == s[i]
  {
    seq(|s|, i requires 0 <= i < |s| => if WordStart(s, i) then UpperChar(s[i]) else s[i])
  }

  /** The chip label of a detail key: underscores become spaces, then each
      word's first character is upper-cased. */
  function FormatLabel(key: string): (r: string)
    ensures |r| == |key|
    ensures '_' !in r
    ensures forall i :: 0 <= i < |key| && key[i] == '_' ==> r[i] == ' '
    ensures forall i :: 0 <= i < |r| && WordStart(r, i) ==> !IsAsciiLower(r[i])
    ensures forall i :: 0 <= i < |key| && key[i] != '_' ==> LowerChar(r[i]) == LowerChar(key[i])
    ensures forall i :: 0 <= i < |key| ==>
      r[i] == (var s := ReplaceChar(key, '_', ' '); if WordStart(s, i) then UpperChar(s[i]) else s[i])
  {
    var spaced := ReplaceChar(key, '_', ' ');
    var r := CapitalizeWords(spaced);
    forall i | 0 <= i < |r|
      ensures IsWordChar(r[i]) <==> IsWordChar(spaced[i])
    {
    }
    forall i | 0 <= i < |r| && WordStart(r, i)
      ensures !IsAsciiLower(r[i])
    {
      assert WordStart(spaced, i);
    }
    r
  }

  /** Upper-casing keeps word characters word characters and others not. */
  lemma UpperKeepsWordChars(s: string)
    ensures forall i :: 0 <= i < |s| && WordStart(s, i) ==> WordStart(CapitalizeWords(s), i)
    ensures forall i :: 0 <= i < |s| && !WordStart(s, i) ==> !WordStart(CapitalizeWords(s), i)
  {
    var r := CapitalizeWords(s);
    assert forall i :: 0 <= i < |s| ==> (IsWordChar(r[i]) <==> IsWordChar(s[i]));
  }

  /** Formatting a label that is already formatted changes nothing. */
  lemma FormatLabelIdempotent(key: string)
    ensures FormatLabel(FormatLabel(key)) == FormatLabel(key)
  {
    var r := FormatLabel(key);
    var spaced := ReplaceChar(key, '_', ' ');
    UpperKeepsWordChars(spaced);
    assert ReplaceChar(r, '_', ' ') == r;
    var rr := CapitalizeWords(r);
    forall i | 0 <= i < |r| ensures rr[i] == r[i] {
      if WordStart(r, i) {
        assert WordStart(spaced, i);
      }
    }
  }

  /** The keys the chips leave out: they are shown elsewhere on the card. */
  predicate ExcludedKey(key: string) {
    key == "city" || key == "min_price" || key == "max_price"
  }

  /** An entry gets a chip unless its key is excluded, its value is falsy,
      or its value is the text 'Indifférent'. */
  predicate ShowEntry(e: (string, Value)) {
    !ExcludedKey(e.0) && Truthy(e.1) && e.1 != Str(Indifferent)
  }

  /** One criterion chip: the formatted label and the value. */
  datatype Chip = Chip(caption: string, value: Value)

  function ChipFor(e: (string, Value)): (c: Chip)
    ensures c.caption == FormatLabel(e.0) && c.value == e.1
  {
    Chip(FormatLabel(e.0), e.1)
  }

  datatype DetailsView = Unavailable | Chips(chips: seq<Chip>)

  /** `renderDetails`: the fallback text when the details are no object,
      else one chip per shown entry, in entry order. */
  function RenderDetails(d: Details): (r: DetailsView)
    ensures d.NotAnObject? <==> r.Unavailable?
    ensures d.Entries? ==> |r.chips| == |Filter(d.entries, ShowEntry)|
    ensures d.Entries? ==> forall i :: 0 <= i < |r.chips| ==>
      r.chips[i] == ChipFor(Filter(d.entries, ShowEntry)[i])
  {
    match d
    case NotAnObject => Unavailable
    case Entries(entries) =>
      var shown := Filter(entries, ShowEntry);
      Chips(seq(|shown|, i requires 0 <= i < |shown| => ChipFor(shown[i])))
  }

  /** An entry gets a chip exactly when it is shown; the chip carries its
      formatted key and its value. */
  lemma ChipIffShown(entries: seq<(string, Value)>, e: (string, Value))
    ensures ChipFor(e) in RenderDetails(Entries(entries)).chips <==>
      exists f :: f in entries && ShowEntry(f) && ChipFor(f) == ChipFor(e)
  {
    var shown := Filter(entries, ShowEntry);
    var chips := RenderDetails(Entries(entries)).chips;
    if ChipFor(e) in chips {
      var i :| 0 <= i < |chips| && chips[i] == ChipFor(e);
      assert shown[i] in shown;
    }
    if exists f :: f in entries && ShowEntry(f) && ChipFor(f) == ChipFor(e) {
      var f :| f in entries && ShowEntry(f) && ChipFor(f) == ChipFor(e);
      FilterMembership(entries, ShowEntry, f);
      var i :| 0 <= i < |shown| && shown[i] == f;
      assert chips[i] == ChipFor(e);
    }
  }

  /** An excluded key, a falsy value or 'Indifférent' never yields a chip
      of its own: every chip comes from a shown entry. */
  lemma ChipsComeFromShownEntries(entries: seq<(string, Value)>)
    ensures forall c :: c in RenderDetails(Entries(entries)).chips ==>
      exists f :: f in entries && ShowEntry(f) && c == ChipFor(f)
  {
    var shown := Filter(entries, ShowEntry);
    var chips := RenderDetails(Entries(entries)).chips;
    forall c | c in chips
      ensures exists f :: f in entries && ShowEntry(f) && c == ChipFor(f)
    {
      var i :| 0 <= i < |chips| && chips[i] == c;
      assert shown[i] in shown;
    }
  }
}
