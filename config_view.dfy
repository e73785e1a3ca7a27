/** The configuration view's working copy of one property type: the admin
    ticks attributes on and off, and the ordered id list is what "save"
    posts as the type's scope. */
module ConfigView {
  import opened Common
  import opened Catalog
  import TypeModal
  import AttributeModal

  // ---------------------------------------------------------------------
  // Ordered id lists
  // ---------------------------------------------------------------------

  /** `attrs.map(a => a.id)`. */
  function Ids(attrs: seq<Attribute>): (r: seq<int>)
    ensures |r| == |attrs|
    ensures forall i :: 0 <= i < |attrs| ==> r[i] == attrs[i].id
  {
    seq(|attrs|, i requires 0 <= i < |attrs| => attrs[i].id)
  }

  lemma IdsConcat(a: seq<Attribute>, b: seq<Attribute>)
    ensures Ids(a + b) == Ids(a) + Ids(b)
  {
    assert forall i :: 0 <= i < |a + b| ==> Ids(a + b)[i] == (Ids(a) + Ids(b))[i];
  }

  /** The filter predicate `id => id !== x`. */
  function Differs(x: int): int -> bool {
    y => y != x
  }

  /** The id list after toggling `x`: every occurrence filtered out when it
      is there, appended at the end when it is not. */
  function ToggleIds(ids: seq<int>, x: int): seq<int> {
    if x in ids then Filter(ids, Differs(x)) else ids + [x]
  }

  /** As a set, toggling is symmetric difference with `{x}`. */
  lemma ToggleMembership(ids: seq<int>, x: int, y: int)
    ensures y in ToggleIds(ids, x) <==> (y in ids) != (y == x)
  {
    if x in ids {
      FilterMembership(ids, Differs(x), y);
    }
  }

  /** Toggling a present id removes all its occurrences and keeps every other
      id with its multiplicity. */
  lemma TogglePresentRemovesAll(ids: seq<int>, x: int)
    requires x in ids
    ensures x !in ToggleIds(ids, x)
    ensures forall y :: y != x ==> multiset(ToggleIds(ids, x))[y] == multiset(ids)[y]
  {
    FilterMembership(ids, Differs(x), x);
    forall y | y != x
      ensures multiset(ToggleIds(ids, x))[y] == multiset(ids)[y]
    {
      FilterCount(ids, Differs(x), y);
    }
  }

  /** Filtering out an id that is not there changes nothing. */
  lemma FilterAbsent(s: seq<int>, x: int)
    requires x !in s
    ensures Filter(s, Differs(x)) == s
  {
    forall i | 0 <= i < |s| ensures Differs(x)(s[i]) {
      assert s[i] in s;
    }
    FilterKeepsAll(s, Differs(x));
  }

  lemma FilterSingleton(x: int)
    ensures Filter([x], Differs(x)) == []
  {
    assert [x][1..] == [];
  }

  lemma FilterDropsOne(before: seq<int>, x: int, after: seq<int>)
    requires x !in before && x !in after
    ensures Filter(before + [x] + after, Differs(x)) == before + after
  {
    var keep := Differs(x);
    calc {
      Filter(before + [x] + after, keep);
      { FilterConcat(before + [x], after, keep); }
      Filter(before + [x], keep) + Filter(after, keep);
      { FilterConcat(before, [x], keep); }
      Filter(before, keep) + Filter([x], keep) + Filter(after, keep);
      { FilterSingleton(x); FilterAbsent(before, x); FilterAbsent(after, x); }
      before + [] + after;
      { assert before + [] == before; }
      before + after;
    }
  }

  /** Removing an id that occurs once leaves the ids before and after it in
      place. */
  lemma TogglePresentKeepsOrder(before: seq<int>, x: int, after: seq<int>)
    requires x !in before && x !in after
    ensures ToggleIds(before + [x] + after, x) == before + after
  {
    var ids := before + [x] + after;
    assert x in ids by { assert ids[|before|] == x; }
    FilterDropsOne(before, x, after);
  }

  /** Toggling an absent id appends it after all existing ids; toggling it a
      second time gives the original list back. */
  lemma ToggleAbsentTwiceRestores(ids: seq<int>, x: int)
    requires x !in ids
    ensures ToggleIds(ids, x) == ids + [x]
    ensures ToggleIds(ToggleIds(ids, x), x) == ids
  {
    assert ids == [] + ids;
    assert x in ids + [x] by { assert (ids + [x])[|ids|] == x; }
    TogglePresentKeepsOrder(ids, x, []);
    assert ids + [x] + [] == ids + [x];
  }

  /** Toggling a present id twice does not restore the list: the id moves to
      the end. This is the only way the view reorders a scope. */
  lemma TogglePresentTwiceMovesToEnd(ids: seq<int>, x: int)
    requires x in ids
    ensures ToggleIds(ToggleIds(ids, x), x) == Filter(ids, Differs(x)) + [x]
  {
    TogglePresentRemovesAll(ids, x);
  }

  /** A list without repetitions stays without repetitions. */
  lemma ToggleKeepsDistinct(ids: seq<int>, x: int)
    requires Distinct(ids)
    ensures Distinct(ToggleIds(ids, x))
  {
    if x in ids {
      FilterDistinct(ids, Differs(x));
    }
  }

  // ---------------------------------------------------------------------
  // Re-resolution against the global catalogue
  // ---------------------------------------------------------------------

  /** `catalogue.find(a => a.id === id)`. */
  function Find(catalogue: seq<Attribute>, id: int): (r: Option<Attribute>)
    ensures r.Some? <==> id in Ids(catalogue)
    ensures r.Some? ==> r.value in catalogue && r.value.id == id
  {
    if catalogue == [] then None
    else if catalogue[0].id == id then Some(catalogue[0])
    else
      var r := Find(catalogue[1..], id);
      assert Ids(catalogue) == [catalogue[0].id] + Ids(catalogue[1..]);
      r
  }

  /** When catalogue ids are unique, an id resolves to its own record. */
  lemma {:induction false} FindUnique(catalogue: seq<Attribute>, k: nat)
    requires Distinct(Ids(catalogue)) && k < |catalogue|
    ensures Find(catalogue, catalogue[k].id) == Some(catalogue[k])
  {
    if k > 0 {
      assert Ids(catalogue)[0] != Ids(catalogue)[k];
      assert Distinct(Ids(catalogue[1..])) by {
        assert forall i :: 0 <= i < |catalogue| - 1 ==> Ids(catalogue[1..])[i] == Ids(catalogue)[i + 1];
      }
      FindUnique(catalogue[1..], k - 1);
    }
  }

  /** `ids.map(id => catalogue.find(...)).filter(Boolean)`. */
  function Resolve(ids: seq<int>, catalogue: seq<Attribute>): (r: seq<Attribute>)
    ensures |r| <= |ids|
    ensures forall a :: a in r ==> a in catalogue
    ensures forall y :: y in Ids(r) <==> y in ids && y in Ids(catalogue)
  {
    if ids == [] then []
    else
      var tail := Resolve(ids[1..], catalogue);
      assert ids == [ids[0]] + ids[1..];
      match Find(catalogue, ids[0])
      case Some(a) =>
        IdsConcat([a], tail);
        assert Ids([a]) == [ids[0]];
        [a] + tail
      case None =>
        tail
  }

  /** Resolution keeps the order of the ids it is given. */
  lemma {:induction false} ResolveConcat(a: seq<int>, b: seq<int>, catalogue: seq<Attribute>)
    ensures Resolve(a + b, catalogue) == Resolve(a, catalogue) + Resolve(b, catalogue)
  {
    if a == [] {
      assert a + b == b;
    } else {
      assert (a + b)[0] == a[0];
      assert (a + b)[1..] == a[1..] + b;
      ResolveConcat(a[1..], b, catalogue);
    }
  }

  /** Ids the catalogue knows all survive resolution, in their order. */
  lemma {:induction false} ResolveKnown(ids: seq<int>, catalogue: seq<Attribute>)
    requires forall y :: y in ids ==> y in Ids(catalogue)
    ensures Ids(Resolve(ids, catalogue)) == ids
  {
    if ids != [] {
      ResolveKnown(ids[1..], catalogue);
      var a := Find(catalogue, ids[0]).value;
      IdsConcat([a], Resolve(ids[1..], catalogue));
    }
  }

  /** Resolution never introduces a repetition. */
  lemma {:induction false} ResolveKeepsDistinct(ids: seq<int>, catalogue: seq<Attribute>)
    requires Distinct(ids)
    ensures Distinct(Ids(Resolve(ids, catalogue)))
  {
    if ids != [] {
      ResolveKeepsDistinct(ids[1..], catalogue);
      var tail := Resolve(ids[1..], catalogue);
      assert ids[0] !in ids[1..];
      assert ids[0] !in Ids(tail);
      match Find(catalogue, ids[0]) {
        case Some(a) =>
          IdsConcat([a], tail);
          assert Ids([a]) == [ids[0]];
        case None =>
      }
    }
  }

  // ---------------------------------------------------------------------
  // The working copy
  // ---------------------------------------------------------------------

  /** `toggleAttributeForType` on the configured type: the toggled id list,
      re-resolved against the catalogue. Everything but the list is kept. */
  function ToggleAttribute(t: PropertyType, catalogue: seq<Attribute>, x: int): (r: PropertyType)
    ensures r.id == t.id && r.name == t.name && r.description == t.description
    ensures forall a :: a in r.attributes ==> a in catalogue
    ensures forall y :: y in Ids(r.attributes) <==>
      y in Ids(catalogue) && ((y in Ids(t.attributes)) != (y == x))
  {
    var ids := ToggleIds(Ids(t.attributes), x);
    forall y ensures y in ids <==> (y in Ids(t.attributes)) != (y == x) {
      ToggleMembership(Ids(t.attributes), x, y);
    }
    t.(attributes := Resolve(ids, catalogue))
  }

  /** When the catalogue knows the toggled id and every working id, the new
      id list is exactly the toggled list, so the list lemmas above apply. */
  lemma ToggleAttributeIds(t: PropertyType, catalogue: seq<Attribute>, x: int)
    requires x in Ids(catalogue)
    requires forall y :: y in Ids(t.attributes) ==> y in Ids(catalogue)
    ensures Ids(ToggleAttribute(t, catalogue, x).attributes) == ToggleIds(Ids(t.attributes), x)
  {
    var ids := ToggleIds(Ids(t.attributes), x);
    forall y | y in ids ensures y in Ids(catalogue) {
      ToggleMembership(Ids(t.attributes), x, y);
    }
    ResolveKnown(ids, catalogue);
  }

  /** Distinct working ids stay distinct after a toggle. */
  lemma ToggleAttributeKeepsDistinct(t: PropertyType, catalogue: seq<Attribute>, x: int)
    requires Distinct(Ids(t.attributes))
    ensures Distinct(Ids(ToggleAttribute(t, catalogue, x).attributes))
  {
    ToggleKeepsDistinct(Ids(t.attributes), x);
    ResolveKeepsDistinct(ToggleIds(Ids(t.attributes), x), catalogue);
  }

  /** Ticking a catalogue attribute on and then off again restores the
      working id list. */
  lemma ToggleAttributeTwiceRestores(t: PropertyType, catalogue: seq<Attribute>, x: int)
    requires x in Ids(catalogue) && x !in Ids(t.attributes)
    requires forall y :: y in Ids(t.attributes) ==> y in Ids(catalogue)
    ensures Ids(ToggleAttribute(ToggleAttribute(t, catalogue, x), catalogue, x).attributes) == Ids(t.attributes)
  {
    var once := ToggleAttribute(t, catalogue, x);
    ToggleAttributeIds(t, catalogue, x);
    ToggleAttributeIds(once, catalogue, x);
    ToggleAbsentTwiceRestores(Ids(t.attributes), x);
  }

  /** `{ ...prev, ...typeData }` after the type's metadata was edited. */
  function Merge(t: PropertyType, data: TypeModal.TypePayload): (r: PropertyType)
    ensures r.id == t.id && r.attributes == t.attributes
    ensures r.name == data.name && r.description == Some(data.description)
  {
    t.(name := data.name, description := Some(data.description))
  }

  /** The attribute save the view issues for the attribute modal. */
  datatype AttributeRequest =
    | CreateAttribute(data: AttributeModal.AttributePayload)
    | UpdateAttribute(id: int, data: AttributeModal.AttributePayload)

  /** `handleSaveAttribute`: an update of the record being edited, a
      creation otherwise; the modal's payload is passed on unchanged. */
  function AttributeRequestFor(editing: Option<Attribute>, data: AttributeModal.AttributePayload)
    : (r: AttributeRequest)
    ensures r.data == data
    ensures r.CreateAttribute? <==> editing.None?
    ensures r.UpdateAttribute? ==> r.id == editing.value.id
  {
    match editing
    case Some(a) => UpdateAttribute(a.id, data)
    case None => CreateAttribute(data)
  }

  // ---------------------------------------------------------------------
  // Type cards
  // ---------------------------------------------------------------------

  const ChipLimit := 8

  /** What a type card shows of its attributes: the first chips, the
      "+n autres" chip, and the "no attribute" note. */
  datatype CardChips = CardChips(shown: seq<Attribute>, more: Option<nat>, noneNote: bool)

  function Chips(attrs: seq<Attribute>): (c: CardChips)
    ensures |c.shown| <= ChipLimit && |c.shown| <= |attrs| && c.shown == attrs[..|c.shown|]
    ensures |attrs| <= ChipLimit ==> c.shown == attrs
    ensures c.more.Some? <==> |attrs| > ChipLimit
    ensures c.more.Some? ==> |c.shown| + c.more.value == |attrs|
    ensures |attrs| > ChipLimit ==> c.shown == attrs[..ChipLimit] && c.more == Some(|attrs| - ChipLimit)
    ensures c.noneNote <==> attrs == []
  {
    if |attrs| > ChipLimit then CardChips(attrs[..ChipLimit], Some(|attrs| - ChipLimit), false)
    else CardChips(attrs, None, attrs == [])
  }

  // ---------------------------------------------------------------------
  // Messages
  // ---------------------------------------------------------------------

  const InUseFallback := "Impossible : utilisé par des biens."
  const DeleteFailed := "Erreur suppression"

  /** The toast after a failed attribute deletion: a 409 shows the server's
      reason (or a fixed "in use" text), any other failure a generic text. */
  function DeleteAttributeErrorText(err: CallError): (r: string)
    ensures err.Response? && err.status == 409 ==> r == ErrorText(err, InUseFallback)
    ensures !(err.Response? && err.status == 409) ==> r == DeleteFailed
  {
    if err.Response? && err.status == 409 then ErrorText(err, InUseFallback) else DeleteFailed
  }

  // ---------------------------------------------------------------------
  // The view's state
  // ---------------------------------------------------------------------

  datatype Tab = TypesTab | AttributesTab

  /** The scope save: `POST {attribute_ids}` for one type. */
  datatype ScopeRequest = ScopeRequest(typeId: int, attributeIds: seq<int>)

  /** The type save the view issues for the type modal. */
  datatype TypeRequest =
    | CreateType(name: string, description: string)
    | UpdateType(id: int, data: TypeModal.TypePayload)

  class ConfigState {
    var activeTab: Tab
    var types: seq<PropertyType>
    var attributes: seq<Attribute>
    var loading: bool
    /** The working copy being configured, if any. */
    var configuring: Option<PropertyType>

    constructor ()
      ensures activeTab == TypesTab && types == [] && attributes == []
      ensures loading && configuring == None
    {
      activeTab, types, attributes := TypesTab, [], [];
      loading, configuring := true, None;
    }

    /** The configuration panel is shown only on the types tab. */
    predicate PanelShown()
      reads this
    {
      configuring.Some? && activeTab == TypesTab
    }

    /** The end of `fetchConfig`: both lists replaced on success, kept on
        failure; the working copy is not touched. */
    method Fetched(result: Option<(seq<PropertyType>, seq<Attribute>)>)
      modifies this
      ensures !loading
      ensures result.Some? ==> types == result.value.0 && attributes == result.value.1
      ensures result.None? ==> types == old(types) && attributes == old(attributes)
      ensures activeTab == old(activeTab) && configuring == old(configuring)
    {
      if result.Some? {
        types, attributes := result.value.0, result.value.1;
      }
      loading := false;
    }

    /** Clicking a type card starts configuring that type. */
    method SelectType(t: PropertyType)
      modifies this`configuring
      ensures configuring == Some(t)
    {
      configuring := Some(t);
    }

    /** Ticking or unticking attribute `attrId` in the panel; nothing happens
        when no type is being configured. */
    method Toggle(attrId: int)
      modifies this`configuring
      ensures old(configuring).None? ==> configuring == None
      ensures old(configuring).Some? ==>
        configuring == Some(ToggleAttribute(old(configuring).value, attributes, attrId))
      ensures configuring.Some? ==> forall a :: a in configuring.value.attributes ==> a in attributes
    {
      if configuring.Some? {
        configuring := Some(ToggleAttribute(configuring.value, attributes, attrId));
      }
    }

    /** `saveTypeScopes`: sends the working ids in working order, and clears
        the working copy only when the call succeeded. */
    method SaveScopes(outcome: Outcome) returns (request: Option<ScopeRequest>)
      modifies this`configuring
      ensures old(configuring).None? ==> request.None?
      ensures old(configuring).Some? ==>
        request == Some(ScopeRequest(old(configuring).value.id, Ids(old(configuring).value.attributes)))
      ensures configuring == if request.Some? && outcome.Succeeded? then None else old(configuring)
    {
      if configuring.None? {
        return None;
      }
      request := Some(ScopeRequest(configuring.value.id, Ids(configuring.value.attributes)));
      if outcome.Succeeded? {
        configuring := None;
      }
    }

    /** `handleSaveType`: creates or updates; after a successful update of the
        type being configured, the new name and description are merged into
        the working copy. A failure goes back to the modal unchanged. */
    method SaveType(editing: Option<PropertyType>, data: TypeModal.TypePayload, outcome: Outcome)
      returns (request: TypeRequest)
      modifies this`configuring
      ensures request == match editing
        case Some(e) => UpdateType(e.id, data)
        case None => CreateType(data.name, data.description)
      ensures configuring ==
        if editing.Some? && outcome.Succeeded? && old(configuring).Some?
           && old(configuring).value.id == editing.value.id
        then Some(Merge(old(configuring).value, data))
        else old(configuring)
    {
      match editing {
        case Some(e) =>
          request := UpdateType(e.id, data);
          if outcome.Succeeded? && configuring.Some? && configuring.value.id == e.id {
            configuring := Some(Merge(configuring.value, data));
          }
        case None =>
          request := CreateType(data.name, data.description);
      }
    }

    /** `handleDeleteType`: nothing without confirmation; a successful delete
        of the configured type clears the working copy. */
    method DeleteType(id: int, confirmed: bool, outcome: Outcome) returns (request: Option<int>)
      modifies this`configuring
      ensures request == if confirmed then Some(id) else None
      ensures configuring ==
        if confirmed && outcome.Succeeded? && old(configuring).Some? && old(configuring).value.id == id
        then None else old(configuring)
    {
      if !confirmed {
        return None;
      }
      request := Some(id);
      if outcome.Succeeded? && configuring.Some? && configuring.value.id == id {
        configuring := None;
      }
    }

    /** `handleDeleteAttribute`: nothing without confirmation; a failure
        yields the toast text. The working copy is not touched. */
    method DeleteAttribute(id: int, confirmed: bool, outcome: Outcome)
      returns (request: Option<int>, errorToast: Option<string>)
      ensures request == if confirmed then Some(id) else None
      ensures errorToast.Some? <==> confirmed && outcome.Failed?
      ensures errorToast.Some? ==> errorToast.value == DeleteAttributeErrorText(outcome.err)
    {
      if !confirmed {
        return None, None;
      }
      request := Some(id);
      errorToast := if outcome.Failed? then Some(DeleteAttributeErrorText(outcome.err)) else None;
    }

    /** Switching tabs drops the working copy. */
    method SwitchTab(tab: Tab)
      modifies this`activeTab, this`configuring
      ensures activeTab == tab && configuring == None
    {
      activeTab, configuring := tab, None;
    }

    /** The panel's close and cancel buttons drop the working copy. */
    method ClosePanel()
      modifies this`configuring
      ensures configuring == None
    {
      configuring := None;
    }
  }
}
