/**
 * The customer-verification list screen: its saved-view tabs, the four filter fields
 * and the removable filter chips built from them, the toolbar's primary action, and the
 * badge and buttons a row gets from its record's status. Rows are shown exactly as
 * loaded: the screen never filters or sorts them (the sort choice is only handed to the
 * table widget).
 */
module Customers {
  import opened Wrappers
  import opened Js

  /** A verification record as the loader selects it. */
  datatype Verification = Verification(
    id: string,
    customer: string,
    orderDetails: string,
    verificationId: string,
    ageSubmitted: int,
    idType: string,
    status: string,
    verificationDate: string)

  // ---------------------------------------------------------------------------
  // Filters and applied-filter chips
  // ---------------------------------------------------------------------------

  /** The pair `[lo, hi]` the age slider reports. */
  datatype AgeRange = AgeRange(lo: int, hi: int)

  /**
   * The four filter fields: the chosen statuses and the age range are `undefined` until
   * set; the tag and the search query are strings, `''` when cleared.
   */
  datatype FilterState = FilterState(
    statusFilter: Option<seq<string>>,
    ageRange: Option<AgeRange>,
    taggedWith: string,
    queryValue: string)

  const DefaultFilters := FilterState(None, None, "", "")

  /** The range the slider shows while no range is set (it is never stored). */
  const DisplayedDefaultRange := AgeRange(18, 100)

  datatype FilterKey = StatusFilterKey | AgeRangeKey | TaggedWithKey | QueryValueKey

  /** The value handed to `disambiguateLabel` along with its key. */
  datatype FilterValue = Statuses(values: seq<string>) | Range(range: AgeRange) | Text(text: string)

  /** One entry of `appliedFilters`; its `onRemove` handler is `RemoveFilter` for `key`. */
  datatype Chip = Chip(key: FilterKey, text: string)

  /**
   * `isEmpty(value)`: an array is empty when it has no elements; any other value when it
   * is `''`, `null` or `undefined`.
   */
  function IsEmpty(v: JsValue): (r: bool)
    ensures v.Arr? ==> (r <==> |v.items| == 0)
    ensures !v.Arr? ==> (r <==> v == Str("") || v == Null || v == Undefined)
  {
    match v
    case Arr(items) => |items| == 0
    case Str(s) => s == ""
    case Null => true
    case Undefined => true
    case _ => false
  }

  /**
   * `isEmpty` agrees with falsiness on strings, `null` and `undefined`, but not on the
   * other values: an empty array is truthy yet empty, and `0`, `NaN` and `false` are
   * falsy yet not empty.
   */
  lemma IsEmptyVersusFalsy(v: JsValue)
    ensures (v.Str? || v.Null? || v.Undefined?) ==> (IsEmpty(v) <==> Falsy(v))
    ensures v.Arr? ==> !Falsy(v)
    ensures (v.Num? || v.Bool? || v.Obj?) ==> !IsEmpty(v)
  {
  }

  /** A list of strings as the JavaScript array the choice list produces. */
  function StrArray(vs: seq<string>): (r: JsValue)
    ensures r.Arr? && |r.items| == |vs|
  {
    Arr(seq(|vs|, i requires 0 <= i < |vs| => Str(vs[i])))
  }

  /** `value.map((val) => `Status ${val}`)`. */
  function StatusParts(values: seq<string>): (r: seq<string>)
    ensures |r| == |values|
    ensures forall i :: 0 <= i < |values| ==> r[i] == "Status " + values[i]
  {
    seq(|values|, i requires 0 <= i < |values| => "Status " + values[i])
  }

  /** A key and a value of the kind that key's filter produces. */
  predicate Fits(key: FilterKey, value: FilterValue) {
    match key
    case StatusFilterKey => value.Statuses?
    case AgeRangeKey => value.Range?
    case TaggedWithKey => value.Text?
    case QueryValueKey => value.Text?
  }

  const AgePrefix := "Age submitted is between "
  const AgeJoin := " and "
  const TagPrefix := "Tagged with "

  /**
   * `disambiguateLabel(key, value)`: the chip text for a filter. The query key reaches
   * the `default` branch, which returns the value itself.
   */
  function DisambiguateLabel(key: FilterKey, value: FilterValue): (r: string)
    requires Fits(key, value)
    ensures key == StatusFilterKey ==> (r == "" <==> |value.values| == 0)
    ensures key == StatusFilterKey && |value.values| == 1 ==> r == "Status " + value.values[0]
    ensures key == AgeRangeKey ==> AgePrefix <= r
    ensures key == TaggedWithKey ==> TagPrefix <= r && r[|TagPrefix|..] == value.text
    ensures key == QueryValueKey ==> r == value.text
  {
    match key
    case AgeRangeKey =>
      var tail := IntToString(value.range.lo) + AgeJoin + IntToString(value.range.hi);
      assert (AgePrefix + tail)[..|AgePrefix|] == AgePrefix;
      AgePrefix + tail
    case TaggedWithKey =>
      assert (TagPrefix + value.text)[..|TagPrefix|] == TagPrefix;
      assert (TagPrefix + value.text)[|TagPrefix|..] == value.text;
      TagPrefix + value.text
    case StatusFilterKey =>
      var parts := StatusParts(value.values);
      assert |parts| > 0 ==> parts[0] != "";
      Join(parts, ", ")
    case QueryValueKey => value.text
  }

  /** Selecting one more status appends `, Status v` to a non-empty status label. */
  lemma StatusLabelSnoc(values: seq<string>, v: string)
    requires |values| > 0
    ensures DisambiguateLabel(StatusFilterKey, Statuses(values + [v]))
         == DisambiguateLabel(StatusFilterKey, Statuses(values)) + ", " + "Status " + v
  {
    assert StatusParts(values + [v]) == StatusParts(values) + ["Status " + v];
    JoinSnoc(StatusParts(values), ", ", "Status " + v);
  }

  /** `parseInt` reads an integer back from its rendering after any prefix. */
  lemma ParseIntAfter(prefix: string, i: int, rest: string)
    requires rest == [] || !IsDigit(rest[0])
    ensures ParseInt((prefix + (IntToString(i) + rest))[|prefix|..]) == Int(i)
  {
    assert (prefix + (IntToString(i) + rest))[|prefix|..] == IntToString(i) + rest;
    ParseIntOfIntToString(i, rest);
  }

  /**
   * Both bounds can be read back from the age label with `parseInt`: the lower one right
   * after the fixed prefix, the upper one after " and ".
   */
  lemma AgeLabelReadsBack(range: AgeRange)
    ensures var r := DisambiguateLabel(AgeRangeKey, Range(range));
            var hiAt := |AgePrefix| + |IntToString(range.lo)| + |AgeJoin|;
            hiAt <= |r| && |r| == hiAt + |IntToString(range.hi)|
            && r[..|AgePrefix|] == AgePrefix
            && r[|AgePrefix| + |IntToString(range.lo)|..hiAt] == AgeJoin
            && ParseInt(r[|AgePrefix|..]) == Int(range.lo)
            && ParseInt(r[hiAt..]) == Int(range.hi)
  {
    var lo, hi := IntToString(range.lo), IntToString(range.hi);
    var r := DisambiguateLabel(AgeRangeKey, Range(range));
    var head := AgePrefix + lo + AgeJoin;
    assert r == AgePrefix + (lo + (AgeJoin + hi));
    assert r == head + (hi + []);
    assert r[|AgePrefix| + |lo|..|head|] == AgeJoin;
    assert AgeJoin[0] == ' ';
    ParseIntAfter(AgePrefix, range.lo, AgeJoin + hi);
    ParseIntAfter(head, range.hi, []);
  }

  /** The value a filter key reads from the filter fields. */
  function ValueOf(f: FilterState, key: FilterKey): (v: FilterValue)
    ensures Fits(key, v)
  {
    match key
    case StatusFilterKey => Statuses(f.statusFilter.GetOr([]))
    case AgeRangeKey => Range(f.ageRange.GetOr(DisplayedDefaultRange))
    case TaggedWithKey => Text(f.taggedWith)
    case QueryValueKey => Text(f.queryValue)
  }

  /** Whether the chip builder pushes a chip for `key`; the query never gets one. */
  predicate Active(f: FilterState, key: FilterKey) {
    match key
    case StatusFilterKey => f.statusFilter.Some? && !IsEmpty(StrArray(f.statusFilter.value))
    case AgeRangeKey => f.ageRange.Some?
    case TaggedWithKey => !IsEmpty(Str(f.taggedWith))
    case QueryValueKey => false
  }

  function Label(f: FilterState, key: FilterKey): string {
    DisambiguateLabel(key, ValueOf(f, key))
  }

  /** The position of a key in the order the builder considers the filter fields. */
  function Rank(key: FilterKey): nat {
    match key
    case StatusFilterKey => 0
    case AgeRangeKey => 1
    case TaggedWithKey => 2
    case QueryValueKey => 3
  }

  /** The chip the builder pushes for `key`, if any. */
  function ChipFor(f: FilterState, key: FilterKey): (r: seq<Chip>)
    ensures |r| <= 1 && (r != [] <==> Active(f, key))
    ensures forall i :: 0 <= i < |r| ==> r[i].key == key && r[i].text == Label(f, key)
  {
    if Active(f, key) then [Chip(key, Label(f, key))] else []
  }

  predicate HasChip(chips: seq<Chip>, key: FilterKey) {
    exists i :: 0 <= i < |chips| && chips[i].key == key
  }

  lemma HasChipConcat(a: seq<Chip>, b: seq<Chip>, key: FilterKey)
    ensures HasChip(a + b, key) <==> HasChip(a, key) || HasChip(b, key)
  {
    if HasChip(a + b, key) {
      var i :| 0 <= i < |a + b| && (a + b)[i].key == key;
      if i >= |a| { assert b[i - |a|].key == key; }
    }
    if HasChip(a, key) {
      var i :| 0 <= i < |a| && a[i].key == key;
      assert (a + b)[i].key == key;
    }
    if HasChip(b, key) {
      var i :| 0 <= i < |b| && b[i].key == key;
      assert (a + b)[|a| + i].key == key;
    }
  }

  lemma HasChipFor(f: FilterState, k: FilterKey, key: FilterKey)
    ensures HasChip(ChipFor(f, k), key) <==> k == key && Active(f, k)
  {
    if k == key && Active(f, k) {
      assert ChipFor(f, k)[0].key == key;
    }
  }

  /**
   * The `appliedFilters` list. It holds a status chip iff some status is selected, an age
   * chip iff a range is set (also when it equals the displayed default 18 to 100), a tag
   * chip iff the tag is non-empty, and never a query chip; at most one chip per key, in
   * the order status, age, tag; each label is `disambiguateLabel` of its field.
   */
  function AppliedFiltersOf(f: FilterState): (r: seq<Chip>)
    ensures HasChip(r, StatusFilterKey) <==> f.statusFilter.Some? && |f.statusFilter.value| > 0
    ensures HasChip(r, AgeRangeKey) <==> f.ageRange.Some?
    ensures HasChip(r, TaggedWithKey) <==> f.taggedWith != ""
    ensures !HasChip(r, QueryValueKey)
    ensures forall i, j :: 0 <= i < j < |r| ==> Rank(r[i].key) < Rank(r[j].key)
    ensures forall i :: 0 <= i < |r| ==> r[i].text == Label(f, r[i].key)
  {
    var s, a, t := ChipFor(f, StatusFilterKey), ChipFor(f, AgeRangeKey), ChipFor(f, TaggedWithKey);
    var r := s + a + t;
    forall key: FilterKey
      ensures HasChip(r, key) <==> Active(f, key)
    {
      HasChipConcat(s, a, key);
      HasChipConcat(s + a, t, key);
      HasChipFor(f, StatusFilterKey, key);
      HasChipFor(f, AgeRangeKey, key);
      HasChipFor(f, TaggedWithKey, key);
    }
    forall i | 0 <= i < |r|
      ensures Rank(r[i].key) == if i < |s| then 0 else if i < |s| + |a| then 1 else 2
      ensures r[i].text == Label(f, r[i].key)
    {
      if i < |s| { assert r[i] == s[i]; }
      else if i < |s| + |a| { assert r[i] == a[i - |s|]; }
      else { assert r[i] == t[i - |s| - |a|]; }
    }
    r
  }

  lemma AppliedFiltersOfChips(f: FilterState)
    ensures AppliedFiltersOf(f) == ChipFor(f, StatusFilterKey) + ChipFor(f, AgeRangeKey) + ChipFor(f, TaggedWithKey)
  {
  }

  /** The chip list is empty exactly when no status is selected, no range set and no tag typed. */
  lemma NoChipsIff(f: FilterState)
    ensures AppliedFiltersOf(f) == []
            <==> (f.statusFilter.None? || f.statusFilter.value == []) && f.ageRange.None? && f.taggedWith == ""
  {
    var r := AppliedFiltersOf(f);
    if r != [] {
      assert HasChip(r, r[0].key);
    }
  }

  /** The handler behind a chip's `onRemove` (and the query's clear button). */
  function RemoveFilter(f: FilterState, key: FilterKey): (r: FilterState)
    ensures key == StatusFilterKey ==> r == f.(statusFilter := None)
    ensures key == AgeRangeKey ==> r == f.(ageRange := None)
    ensures key == TaggedWithKey ==> r == f.(taggedWith := "")
    ensures key == QueryValueKey ==> r == f.(queryValue := "")
  {
    match key
    case StatusFilterKey => f.(statusFilter := None)
    case AgeRangeKey => f.(ageRange := None)
    case TaggedWithKey => f.(taggedWith := "")
    case QueryValueKey => f.(queryValue := "")
  }

  /** `handleFiltersClearAll`: the four removals in turn, which restore the initial filters. */
  function ClearAll(f: FilterState): (r: FilterState)
    ensures r == DefaultFilters
    ensures AppliedFiltersOf(r) == []
  {
    var r := RemoveFilter(RemoveFilter(RemoveFilter(RemoveFilter(f, StatusFilterKey), AgeRangeKey), TaggedWithKey), QueryValueKey);
    NoChipsIff(r);
    r
  }

  /** `chips` without the chips for `key`, the others in order. */
  function WithoutKey(chips: seq<Chip>, key: FilterKey): (r: seq<Chip>)
    ensures forall c :: c in r <==> c in chips && c.key != key
  {
    if chips == [] then []
    else (if chips[0].key == key then [] else [chips[0]]) + WithoutKey(chips[1..], key)
  }

  lemma {:induction false} WithoutKeyConcat(a: seq<Chip>, b: seq<Chip>, key: FilterKey)
    ensures WithoutKey(a + b, key) == WithoutKey(a, key) + WithoutKey(b, key)
  {
    if a == [] {
      assert a + b == b;
    } else {
      assert (a + b)[0] == a[0];
      assert (a + b)[1..] == a[1..] + b;
      WithoutKeyConcat(a[1..], b, key);
    }
  }

  /** Removing one filter drops exactly its own chip and leaves the other chips as they were. */
  lemma RemoveDropsOnlyItsChip(f: FilterState, key: FilterKey)
    ensures AppliedFiltersOf(RemoveFilter(f, key)) == WithoutKey(AppliedFiltersOf(f), key)
  {
    var g := RemoveFilter(f, key);
    var s, a, t := ChipFor(f, StatusFilterKey), ChipFor(f, AgeRangeKey), ChipFor(f, TaggedWithKey);
    WithoutKeyConcat(s + a, t, key);
    WithoutKeyConcat(s, a, key);
    RemoveKeepsOtherChip(f, key, StatusFilterKey);
    RemoveKeepsOtherChip(f, key, AgeRangeKey);
    RemoveKeepsOtherChip(f, key, TaggedWithKey);
  }

  lemma RemoveKeepsOtherChip(f: FilterState, key: FilterKey, k: FilterKey)
    ensures ChipFor(RemoveFilter(f, key), k) == WithoutKey(ChipFor(f, k), key)
  {
    var g := RemoveFilter(f, key);
    var c := ChipFor(f, k);
    if c != [] {
      assert c == [c[0]] && c[1..] == [];
    }
    if k == key {
      assert !Active(g, k);
    } else {
      assert Active(g, k) == Active(f, k) && Label(g, k) == Label(f, k);
    }
  }

  // ---------------------------------------------------------------------------
  // Tabs, primary action, rows
  // ---------------------------------------------------------------------------

  const InitialTabs: seq<string> := ["All", "Approved", "Pending", "Rejected"]

  datatype TabAction = Rename | Duplicate | Edit | Delete

  /** A tab's behaviour-relevant part: its title, whether it is locked, and its actions. */
  datatype Tab = Tab(content: string, isLocked: bool, actions: seq<TabAction>)

  /** The `tabs` built from `itemStrings`: the first tab is locked and has no actions. */
  function TabsOf(items: seq<string>): (r: seq<Tab>)
    ensures |r| == |items|
    ensures forall i :: 0 <= i < |r| ==> r[i].content == items[i]
    ensures forall i :: 0 <= i < |r| ==> (r[i].isLocked <==> i == 0)
    ensures forall i :: 0 <= i < |r| ==> (Delete in r[i].actions <==> i != 0)
    ensures forall i :: 0 <= i < |r| ==> (Duplicate in r[i].actions <==> i != 0)
    ensures forall i :: 0 <= i < |r| ==> (Rename in r[i].actions <==> i != 0)
    ensures forall i :: 0 <= i < |r| ==> (Edit in r[i].actions <==> i != 0)
    ensures forall i :: 0 <= i < |r| ==> (r[i].actions == [] <==> i == 0)
  {
    seq(|items|, i requires 0 <= i < |items| =>
      Tab(items[i], i == 0, if i == 0 then [] else [Rename, Duplicate, Edit, Delete]))
  }

  /** `itemStrings` after `splice(index, 1)` on a copy: element `index` removed if it exists. */
  function Spliced<T>(s: seq<T>, index: nat): (r: seq<T>)
    ensures index < |s| ==> |r| == |s| - 1
    ensures index < |s| ==> forall j :: 0 <= j < index ==> r[j] == s[j]
    ensures index < |s| ==> forall j :: index <= j < |r| ==> r[j] == s[j + 1]
    ensures index < |s| ==> multiset(r) + multiset{s[index]} == multiset(s)
    ensures index >= |s| ==> r == s
  {
    if index < |s| then
      assert s == s[..index] + [s[index]] + s[index + 1..];
      s[..index] + s[index + 1..]
    else s
  }

  /** Deleting the tab just appended (a duplicated or newly created view) restores the list. */
  lemma DeleteUndoesAppend(items: seq<string>, name: string)
    ensures Spliced(items + [name], |items|) == items
  {
    assert (items + [name])[..|items|] == items;
  }

  datatype PrimaryAction = SaveAs | Save

  /** The filter bar's primary action: "save as" on the first tab, "save" elsewhere. */
  function PrimaryActionFor(selected: nat): (r: PrimaryAction)
    ensures r == SaveAs <==> selected == 0
  {
    if selected == 0 then SaveAs else Save
  }

  datatype Progress = Complete | PartiallyComplete | Incomplete

  datatype RowButton = ReviewButton | DownloadPdfButton | ResendButton

  /** The status badge's progress. */
  function BadgeProgress(status: string): (r: Progress)
    ensures r == Complete <==> status == "Approved"
    ensures r == PartiallyComplete <==> status == "Pending"
    ensures r == Incomplete <==> status != "Approved" && status != "Pending"
  {
    if status == "Approved" then Complete
    else if status == "Pending" then PartiallyComplete
    else Incomplete
  }

  function ButtonRank(b: RowButton): nat {
    match b
    case ReviewButton => 0
    case DownloadPdfButton => 1
    case ResendButton => 2
  }

  /** The row's buttons: Review only when pending, Resend only when rejected, Download PDF always. */
  function RowButtons(status: string): (r: seq<RowButton>)
    ensures DownloadPdfButton in r
    ensures ReviewButton in r <==> status == "Pending"
    ensures ResendButton in r <==> status == "Rejected"
    ensures forall i, j :: 0 <= i < j < |r| ==> ButtonRank(r[i]) < ButtonRank(r[j])
  {
    (if status == "Pending" then [ReviewButton] else [])
    + [DownloadPdfButton]
    + (if status == "Rejected" then [ResendButton] else [])
  }

  /** A row of the table: the record as loaded, its badge and its buttons. */
  datatype Row = Row(record: Verification, progress: Progress, buttons: seq<RowButton>)

  /** `rowMarkup`: one row per loaded record, in load order; nothing filtered or sorted. */
  function RowMarkup(vs: seq<Verification>): (rows: seq<Row>)
    ensures |rows| == |vs|
    ensures forall i :: 0 <= i < |vs| ==> rows[i].record == vs[i]
    ensures forall i :: 0 <= i < |vs| ==>
              rows[i].progress == BadgeProgress(vs[i].status) && rows[i].buttons == RowButtons(vs[i].status)
  {
    seq(|vs|, i requires 0 <= i < |vs| => Row(vs[i], BadgeProgress(vs[i].status), RowButtons(vs[i].status)))
  }

  // ---------------------------------------------------------------------------
  // The screen's state
  // ---------------------------------------------------------------------------

  /** The `useState` fields of the customer list and the handlers that set them. */
  class CustomerList {
    var itemStrings: seq<string>
    var selected: nat
    var sortSelected: seq<string>
    var statusFilter: Option<seq<string>>
    var ageRange: Option<AgeRange>
    var taggedWith: string
    var queryValue: string

    /** The first tab stays "All" (it is locked), and the selected tab exists. */
    ghost predicate Valid()
      reads this
    {
      |itemStrings| >= 1 && itemStrings[0] == "All" && selected < |itemStrings|
    }

    function Filters(): FilterState
      reads this
    {
      FilterState(statusFilter, ageRange, taggedWith, queryValue)
    }

    constructor ()
      ensures Valid()
      ensures itemStrings == InitialTabs && selected == 0
      ensures sortSelected == ["customer asc"]
      ensures Filters() == DefaultFilters
    {
      itemStrings := InitialTabs;
      selected := 0;
      sortSelected := ["customer asc"];
      statusFilter := None;
      ageRange := None;
      taggedWith := "";
      queryValue := "";
    }

    /** `deleteView(index)`, reachable only from a tab other than the first. */
    method DeleteView(index: nat)
      requires Valid()
      requires index != 0
      modifies this
      ensures Valid()
      ensures itemStrings == Spliced(old(itemStrings), index)
      ensures selected == 0
      ensures Filters() == old(Filters()) && sortSelected == old(sortSelected)
    {
      itemStrings := Spliced(itemStrings, index);
      selected := 0;
    }

    /** `duplicateView(name)`: the copy is appended and becomes the selected tab. */
    method DuplicateView(name: string)
      requires Valid()
      modifies this
      ensures Valid()
      ensures itemStrings == old(itemStrings) + [name]
      ensures selected == |old(itemStrings)| && itemStrings[selected] == name
      ensures Filters() == old(Filters()) && sortSelected == old(sortSelected)
    {
      selected := |itemStrings|;
      itemStrings := itemStrings + [name];
    }

    /** `onCreateNewView(value)`: the new view is appended and becomes the selected tab. */
    method OnCreateNewView(value: string)
      requires Valid()
      modifies this
      ensures Valid()
      ensures itemStrings == old(itemStrings) + [value]
      ensures selected == |old(itemStrings)| && itemStrings[selected] == value
      ensures Filters() == old(Filters()) && sortSelected == old(sortSelected)
    {
      selected := |itemStrings|;
      itemStrings := itemStrings + [value];
    }

    /** The widget's `onSelect`, with the index of one of the tabs. */
    method OnSelect(index: nat)
      requires Valid() && index < |itemStrings|
      modifies this
      ensures Valid()
      ensures selected == index && itemStrings == old(itemStrings)
      ensures Filters() == old(Filters()) && sortSelected == old(sortSelected)
    {
      selected := index;
    }

    /** The widget's `onSort`; the choice is stored and passed back, never applied to rows. */
    method OnSort(choice: seq<string>)
      modifies this
      ensures sortSelected == choice
      ensures itemStrings == old(itemStrings) && selected == old(selected) && Filters() == old(Filters())
    {
      sortSelected := choice;
    }

    method HandleStatusFilterChange(value: seq<string>)
      modifies this
      ensures Filters() == old(Filters()).(statusFilter := Some(value))
      ensures itemStrings == old(itemStrings) && selected == old(selected) && sortSelected == old(sortSelected)
    {
      statusFilter := Some(value);
    }

    method HandleAgeRangeChange(value: AgeRange)
      modifies this
      ensures Filters() == old(Filters()).(ageRange := Some(value))
      ensures itemStrings == old(itemStrings) && selected == old(selected) && sortSelected == old(sortSelected)
    {
      ageRange := Some(value);
    }

    method HandleTaggedWithChange(value: string)
      modifies this
      ensures Filters() == old(Filters()).(taggedWith := value)
      ensures itemStrings == old(itemStrings) && selected == old(selected) && sortSelected == old(sortSelected)
    {
      taggedWith := value;
    }

    method HandleFiltersQueryChange(value: string)
      modifies this
      ensures Filters() == old(Filters()).(queryValue := value)
      ensures itemStrings == old(itemStrings) && selected == old(selected) && sortSelected == old(sortSelected)
    {
      queryValue := value;
    }

    /** The four remove handlers: each resets only its own field. */
    method HandleRemove(key: FilterKey)
      modifies this
      ensures Filters() == RemoveFilter(old(Filters()), key)
      ensures itemStrings == old(itemStrings) && selected == old(selected) && sortSelected == old(sortSelected)
    {
      match key
      case StatusFilterKey => statusFilter := None;
      case AgeRangeKey => ageRange := None;
      case TaggedWithKey => taggedWith := "";
      case QueryValueKey => queryValue := "";
    }

    /** `handleFiltersClearAll`: the four remove handlers in turn. */
    method HandleFiltersClearAll()
      modifies this
      ensures Filters() == ClearAll(old(Filters()))
      ensures itemStrings == old(itemStrings) && selected == old(selected) && sortSelected == old(sortSelected)
    {
      HandleRemove(StatusFilterKey);
      HandleRemove(AgeRangeKey);
      HandleRemove(TaggedWithKey);
      HandleRemove(QueryValueKey);
    }

    /** The `appliedFilters` array, built by successive pushes. */
    method AppliedFilters() returns (applied: seq<Chip>)
      ensures applied == AppliedFiltersOf(Filters())
    {
      ghost var f := Filters();
      applied := [];
      if statusFilter.Some? && !IsEmpty(StrArray(statusFilter.value)) {
        applied := applied + [Chip(StatusFilterKey, DisambiguateLabel(StatusFilterKey, Statuses(statusFilter.value)))];
      }
      assert applied == ChipFor(f, StatusFilterKey);
      ghost var s := applied;
      if ageRange.Some? {
        applied := applied + [Chip(AgeRangeKey, DisambiguateLabel(AgeRangeKey, Range(ageRange.value)))];
      }
      assert applied == s + ChipFor(f, AgeRangeKey);
      ghost var sa := applied;
      if !IsEmpty(Str(taggedWith)) {
        applied := applied + [Chip(TaggedWithKey, DisambiguateLabel(TaggedWithKey, Text(taggedWith)))];
      }
      assert applied == sa + ChipFor(f, TaggedWithKey);
      AppliedFiltersOfChips(f);
    }

    /** The primary action offered for the selected tab. */
    function PrimaryAction(): (r: PrimaryAction)
      reads this
      ensures r == SaveAs <==> selected == 0
    {
      PrimaryActionFor(selected)
    }
  }
}
