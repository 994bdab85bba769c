/**
 * The save action for email templates: it parses the posted `settings` list and upserts
 * each entry into the template table, keyed by its `type`, storing every falsy field as
 * null. The table is a map from type to row standing in for the ORM table.
 */
module EmailSettingsApi {
  import opened Wrappers
  import opened Js
  import opened Templates

  /** One upsert the action issues: the `where` type and the normalised columns. */
  datatype Upsert = Upsert(templateType: string, columns: Columns)

  /** `value || null`. */
  function OrNull(v: JsValue): (r: JsValue)
    ensures Falsy(v) ==> r == Null
    ensures !Falsy(v) ==> r == v
  {
    if Falsy(v) then Null else v
  }

  /** A column the table accepts: null or a string. */
  function AsColumn(v: JsValue): Option<Option<string>> {
    match v
    case Null => Some(None)
    case Str(s) => Some(Some(s))
    case _ => None
  }

  /** The column the table is given for field `f` of an entry: `entry[f] || null`, if storable. */
  function Cell(setting: JsValue, f: Field): Option<Option<string>> {
    AsColumn(OrNull(Prop(setting, FieldName(f))))
  }

  /** The eight cells of an entry, each as the column it is stored as. */
  function CellsOf(setting: JsValue): Columns {
    Columns(Cell(setting, Subject).GetOr(None), Cell(setting, Preview).GetOr(None),
            Cell(setting, Body).GetOr(None), Cell(setting, Note).GetOr(None),
            Cell(setting, Description).GetOr(None), Cell(setting, Instructions).GetOr(None),
            Cell(setting, PrivacyNote).GetOr(None), Cell(setting, MaxFileSize).GetOr(None))
  }

  /** Each column of `CellsOf` is the cell of its own field. */
  lemma CellsOfGet(setting: JsValue, f: Field)
    ensures CellsOf(setting).Get(f) == Cell(setting, f).GetOr(None)
  {
    match f
    case Subject =>
    case Preview =>
    case Body =>
    case Note =>
    case Description =>
    case Instructions =>
    case PrivacyNote =>
    case MaxFileSize =>
  }

  /** A storable cell is null for a falsy field and the field's text otherwise. */
  lemma CellValue(setting: JsValue, f: Field)
    requires Cell(setting, f).Some?
    ensures Cell(setting, f).value == if Falsy(Prop(setting, FieldName(f))) then None
                                      else Some(Prop(setting, FieldName(f)).s)
  {
  }

  /** The table accepts an entry: its `type` is a string and every cell is null or a string. */
  predicate Storable(setting: JsValue) {
    Prop(setting, "type").Str? && forall f :: Cell(setting, f).Some?
  }

  /**
   * The upsert an entry of the posted list becomes, or `None` when it fails: a `type`
   * that is not a string, or a field whose `|| null` value is neither null nor a string,
   * is refused by the table.
   */
  function UpsertOf(setting: JsValue): (r: Option<Upsert>)
    ensures r.Some? <==> Storable(setting)
    ensures r.Some? ==> r.value.templateType == Prop(setting, "type").s
  {
    if Storable(setting) then
      Some(Upsert(Prop(setting, "type").s, CellsOf(setting)))
    else None
  }

  /** The columns of an entry's upsert: null for a falsy field, the field's text otherwise. */
  lemma UpsertOfColumns(setting: JsValue, f: Field)
    requires UpsertOf(setting).Some?
    ensures Cell(setting, f).Some?
    ensures UpsertOf(setting).value.columns.Get(f)
            == if Falsy(Prop(setting, FieldName(f))) then None else Some(Prop(setting, FieldName(f)).s)
  {
    CellValue(setting, f);
    CellsOfGet(setting, f);
  }

  /** Each row is stored under its own type. */
  predicate Keyed(rows: map<string, TemplateRow>) {
    forall k :: k in rows ==> rows[k].templateType == k
  }

  /** The table after one upsert: the row of that type updated in place, or a new row. */
  function Upserted(rows: map<string, TemplateRow>, u: Upsert, now: nat): (r: map<string, TemplateRow>)
    requires Keyed(rows)
    ensures Keyed(r)
    ensures r.Keys == rows.Keys + {u.templateType}
    ensures r[u.templateType].templateType == u.templateType && r[u.templateType].columns == u.columns
    ensures forall t :: t in rows && t != u.templateType ==> r[t] == rows[t]
    ensures u.templateType in rows ==> r[u.templateType].updatedAt == Some(now)
  {
    if u.templateType in rows then rows[u.templateType := rows[u.templateType].(columns := u.columns, updatedAt := Some(now))]
    else rows[u.templateType := TemplateRow(u.templateType, u.columns, None)]
  }

  /** The table after the upserts of `us`, applied in order. */
  function UpsertedAll(rows: map<string, TemplateRow>, us: seq<Upsert>, now: nat): (r: map<string, TemplateRow>)
    requires Keyed(rows)
    ensures Keyed(r)
    decreases |us|
  {
    if us == [] then rows
    else Upserted(UpsertedAll(rows, us[..|us| - 1], now), us[|us| - 1], now)
  }

  /** Applying one more upsert of a list extends the applied prefix by one. */
  lemma UpsertedAllStep(rows: map<string, TemplateRow>, us: seq<Upsert>, i: nat, now: nat)
    requires Keyed(rows) && i < |us|
    ensures UpsertedAll(rows, us[..i + 1], now) == Upserted(UpsertedAll(rows, us[..i], now), us[i], now)
  {
    assert us[..i + 1][..i] == us[..i];
  }

  /** A table that has the first `i` upserts applied has the first `i + 1` after the next one. */
  lemma UpsertedAllNext(rows: map<string, TemplateRow>, us: seq<Upsert>, i: nat, now: nat,
                        before: map<string, TemplateRow>, after: map<string, TemplateRow>)
    requires Keyed(rows) && i < |us|
    requires before == UpsertedAll(rows, us[..i], now)
    requires after == Upserted(before, us[i], now)
    ensures after == UpsertedAll(rows, us[..i + 1], now)
  {
    UpsertedAllStep(rows, us, i, now);
  }

  /** Whether some upsert of `us` is for type `t`. */
  predicate Mentions(us: seq<Upsert>, t: string) {
    exists i :: 0 <= i < |us| && us[i].templateType == t
  }

  /** The columns of the last upsert of `us` for type `t`. */
  function LastColumns(us: seq<Upsert>, t: string): Columns
    requires Mentions(us, t)
    decreases |us|
  {
    var last := us[|us| - 1];
    if last.templateType == t then last.columns
    else
      var init := us[..|us| - 1];
      assert Mentions(init, t) by {
        var i :| 0 <= i < |us| && us[i].templateType == t;
        assert init[i].templateType == t;
      }
      LastColumns(init, t)
  }

  /**
   * What the table holds after a run of upserts: a row for every old type and every type
   * upserted; an upserted type holds the columns of its last upsert and keeps its type;
   * every other row is untouched.
   */
  lemma {:induction false} UpsertedAllAt(rows: map<string, TemplateRow>, us: seq<Upsert>, now: nat, t: string)
    requires Keyed(rows)
    ensures t in UpsertedAll(rows, us, now) <==> t in rows || Mentions(us, t)
    ensures Mentions(us, t) ==> UpsertedAll(rows, us, now)[t].templateType == t
                                && UpsertedAll(rows, us, now)[t].columns == LastColumns(us, t)
    ensures !Mentions(us, t) && t in rows ==> UpsertedAll(rows, us, now)[t] == rows[t]
    decreases |us|
  {
    if us != [] {
      var init := us[..|us| - 1];
      UpsertedAllAt(rows, init, now, t);
      assert Mentions(us, t) <==> Mentions(init, t) || us[|us| - 1].templateType == t by {
        if Mentions(us, t) && us[|us| - 1].templateType != t {
          var i :| 0 <= i < |us| && us[i].templateType == t;
          assert init[i].templateType == t;
        }
        if Mentions(init, t) {
          var i :| 0 <= i < |init| && init[i].templateType == t;
          assert us[i].templateType == t;
        }
      }
    }
  }

  /** The text of a table: each row's type and columns, ignoring when it was updated. */
  function Contents(rows: map<string, TemplateRow>): map<string, (string, Columns)> {
    map t | t in rows :: (rows[t].templateType, rows[t].columns)
  }

  /**
   * Saving the same templates twice leaves the table holding the same text as saving
   * them once; only the update times differ.
   */
  lemma SaveTwiceSameContents(rows: map<string, TemplateRow>, us: seq<Upsert>, now1: nat, now2: nat)
    requires Keyed(rows)
    ensures Contents(UpsertedAll(UpsertedAll(rows, us, now1), us, now2)) == Contents(UpsertedAll(rows, us, now1))
  {
    var once := UpsertedAll(rows, us, now1);
    var twice := UpsertedAll(once, us, now2);
    forall t ensures (t in twice <==> t in once) && (t in once ==> twice[t].templateType == once[t].templateType && twice[t].columns == once[t].columns) {
      UpsertedAllAt(rows, us, now1, t);
      UpsertedAllAt(once, us, now2, t);
    }
  }

  /** When no two upserts share a type, each one's columns are what its row holds. */
  lemma DistinctTypesAllStored(rows: map<string, TemplateRow>, us: seq<Upsert>, now: nat, i: nat)
    requires Keyed(rows)
    requires forall a, b :: 0 <= a < b < |us| ==> us[a].templateType != us[b].templateType
    requires i < |us|
    ensures us[i].templateType in UpsertedAll(rows, us, now)
    ensures UpsertedAll(rows, us, now)[us[i].templateType].columns == us[i].columns
  {
    UpsertedAllAt(rows, us, now, us[i].templateType);
    LastColumnsOfUnique(us, i);
  }

  lemma {:induction false} LastColumnsOfUnique(us: seq<Upsert>, i: nat)
    requires forall a, b :: 0 <= a < b < |us| ==> us[a].templateType != us[b].templateType
    requires i < |us|
    ensures Mentions(us, us[i].templateType) && LastColumns(us, us[i].templateType) == us[i].columns
    decreases |us|
  {
    if i < |us| - 1 {
      var init := us[..|us| - 1];
      assert init[i] == us[i];
      LastColumnsOfUnique(init, i);
    }
  }

  /** The action's JSON reply and its HTTP status. */
  datatype Reply = Reply(status: nat, body: JsValue)

  const SavedMessage := "Settings saved successfully"
  const SaveFailedMessage := "Failed to save settings"

  const Saved := Reply(200, Obj(map["success" := Bool(true), "message" := Str(SavedMessage)]))
  const SaveFailed := Reply(500, Obj(map["success" := Bool(false), "error" := Str(SaveFailedMessage)]))

  /** The list that `settings.map` runs over, or `None` when parsing or mapping throws. */
  function Entries(parsed: Option<JsValue>): (r: Option<seq<JsValue>>)
    ensures r.Some? <==> parsed.Some? && parsed.value.Arr?
  {
    if parsed.Some? && parsed.value.Arr? then Some(parsed.value.items) else None
  }

  /** The position of the first entry from `from` on that cannot be formed, or the length. */
  function FirstUnformed(entries: seq<JsValue>, from: nat): (k: nat)
    requires from <= |entries|
    ensures from <= k <= |entries|
    ensures forall i :: from <= i < k ==> Storable(entries[i])
    ensures k < |entries| ==> !Storable(entries[k])
    decreases |entries| - from
  {
    if from == |entries| || !Storable(entries[from]) then from
    else FirstUnformed(entries, from + 1)
  }

  /**
   * The upserts of `entries`: those of the leading entries that can be formed, in order,
   * stopping at the first entry that cannot.
   */
  function UpsertsOf(entries: seq<JsValue>): (us: seq<Upsert>)
    ensures |us| <= |entries|
    ensures forall i :: 0 <= i < |us| ==> UpsertOf(entries[i]) == Some(us[i])
    ensures |us| < |entries| ==> UpsertOf(entries[|us|]).None?
  {
    var k := FirstUnformed(entries, 0);
    seq(k, i requires 0 <= i < k => UpsertOf(entries[i]).value)
  }

  /** How many upserts succeed before the first one that fails, if any does. */
  function Done(entries: seq<JsValue>, failAt: Option<nat>): (n: nat)
    ensures n <= |UpsertsOf(entries)|
    ensures n == |entries| <==> |UpsertsOf(entries)| == |entries| && (failAt.None? || failAt.value >= |entries|)
  {
    var m := |UpsertsOf(entries)|;
    if failAt.Some? && failAt.value < m then failAt.value else m
  }

  /** The upserts stop at the first entry that cannot be formed or whose write fails. */
  lemma StopsAt(entries: seq<JsValue>, failAt: Option<nat>, i: nat)
    requires i < |entries| && i <= |UpsertsOf(entries)|
    requires failAt.Some? ==> i <= failAt.value
    requires UpsertOf(entries[i]).None? || failAt == Some(i)
    ensures Done(entries, failAt) == i < |entries|
  {
  }

  /** The email-template table. */
  class TemplateTable {
    var rows: map<string, TemplateRow>

    /** Each row is stored under its own type. */
    ghost predicate Valid()
      reads this
    {
      Keyed(rows)
    }

    constructor (initial: map<string, TemplateRow>)
      requires Keyed(initial)
      ensures Valid() && rows == initial
    {
      rows := initial;
    }

    /**
     * The `action`: `parsed` is the value `JSON.parse` gives for the posted `settings`
     * field (`None` when it throws); `failAt` is the position of the first upsert the
     * database fails, if any; `now` is the clock. The upserts run one after the other and
     * stop at the first failure, which makes the reply a 500.
     */
    method Action(parsed: Option<JsValue>, failAt: Option<nat>, now: nat) returns (reply: Reply)
      requires Valid()
      modifies this
      ensures Valid()
      ensures Entries(parsed).None? ==> reply == SaveFailed && rows == old(rows)
      ensures Entries(parsed).Some? ==>
                var entries := Entries(parsed).value;
                var done := Done(entries, failAt);
                rows == UpsertedAll(old(rows), UpsertsOf(entries)[..done], now)
                && reply == if done == |entries| then Saved else SaveFailed
    {
      var entries := Entries(parsed);
      if entries.None? {
        return SaveFailed;
      }
      var completed := ApplyAll(entries.value, failAt, now);
      reply := if completed then Saved else SaveFailed;
    }

    /**
     * The upserts of `items`, one after the other, stopping at the first entry that
     * cannot be formed or whose write fails; `completed` says whether every entry was
     * stored.
     */
    method ApplyAll(items: seq<JsValue>, failAt: Option<nat>, now: nat) returns (completed: bool)
      requires Valid()
      modifies this
      ensures Valid()
      ensures rows == UpsertedAll(old(rows), UpsertsOf(items)[..Done(items, failAt)], now)
      ensures completed <==> Done(items, failAt) == |items|
    {
      ghost var us := UpsertsOf(items);
      var start, current := rows, rows;
      var i := 0;
      while i < |items|
        invariant 0 <= i <= |us|
        invariant current == UpsertedAll(start, us[..i], now) && Keyed(current)
        invariant failAt.Some? ==> i <= failAt.value
      {
        var u := UpsertOf(items[i]);
        if u.None? || (failAt.Some? && failAt.value == i) {
          StopsAt(items, failAt, i);
          assert us[..Done(items, failAt)] == us[..i];
          assert current == UpsertedAll(start, us[..Done(items, failAt)], now);
          rows := current;
          return false;
        }
        assert i < |us| && u.value == us[i];
        ghost var before := current;
        current := Upserted(current, u.value, now);
        UpsertedAllNext(start, us, i, now, before, current);
        i := i + 1;
      }
      assert us[..i] == us;
      assert Done(items, failAt) == |items| == i;
      assert current == UpsertedAll(start, us[..Done(items, failAt)], now);
      rows := current;
      return true;
    }
  }
}
