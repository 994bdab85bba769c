/**
 * The email-template settings page: a record of templates keyed by type, each a record
 * of text fields; it is filled from the stored rows on load, edited one field at a time,
 * and saved as an ordered list of four entries. The page also keeps a list of dropped
 * files and a toast that reports the outcome of a save.
 */
module EmailSetting {
  import opened Wrappers
  import opened Js
  import opened Templates
  import opened EmailSettingsApi

  /** One template as the page holds it: only the fields it has been given. */
  type Record = map<Field, string>

  /** The page's `settings`: a record per template type. */
  type Settings = map<string, Record>

  /**
   * The HTML documents that are the default bodies of the three email templates; their
   * text is not reproduced in this model.
   */
  datatype DefaultBodies = DefaultBodies(verification: string, success: string, reject: string)

  /** The templates the page starts with, before anything is loaded. */
  function DefaultSettings(bodies: DefaultBodies): Settings {
    map[
      "verification" := map[
        Subject := "Age Verification Required - Upload Your ID",
        Preview := "Complete your order by verifying your age",
        Body := bodies.verification],
      "success" := map[
        Subject := "Age Verification Successful",
        Preview := "Your age has been verified and your order is now being processed",
        Body := bodies.success],
      "reject" := map[
        Subject := "Age Verification Rejected",
        Preview := "We need clearer documentation to complete your age verification",
        Body := bodies.reject],
      "upload" := map[
        Note := "", Description := "", Instructions := "", PrivacyNote := "", MaxFileSize := ""]
    ]
  }

  /** Every template type has a record. */
  predicate HasAllTypes(s: Settings) {
    forall i :: 0 <= i < |TemplateTypes| ==> TemplateTypes[i] in s
  }

  // ---------------------------------------------------------------------------
  // Loading
  // ---------------------------------------------------------------------------

  /** The record a stored row loads as: all eight fields, each its value or `''` when falsy. */
  function LoadRow(row: TemplateRow): (r: Record)
    ensures forall f :: f in r
    ensures forall f :: r[f] == if row.columns.Get(f).None? || row.columns.Get(f).value == "" then ""
                                else row.columns.Get(f).value
  {
    forall f ensures f in AllFields { AllFieldsListed(f); }
    map f | f in AllFields :: row.columns.Get(f).GetOr("")
  }

  /** The four empty records the loader starts from. */
  const EmptyTemplates: Settings := map["verification" := map[], "success" := map[], "reject" := map[], "upload" := map[]]

  /** `loadedSettings` after the `forEach` over `rows`: each row assigned under its type in turn. */
  function LoadedFrom(rows: seq<TemplateRow>): Settings
    decreases |rows|
  {
    if rows == [] then EmptyTemplates
    else LoadedFrom(rows[..|rows| - 1])[rows[|rows| - 1].templateType := LoadRow(rows[|rows| - 1])]
  }

  predicate Lists(rows: seq<TemplateRow>, t: string) {
    exists i :: 0 <= i < |rows| && rows[i].templateType == t
  }

  /** A type is listed by some row iff it is listed before the last row or by the last row. */
  lemma ListsSnoc(rows: seq<TemplateRow>, t: string)
    requires rows != []
    ensures Lists(rows, t) <==> Lists(rows[..|rows| - 1], t) || rows[|rows| - 1].templateType == t
  {
    var init := rows[..|rows| - 1];
    if Lists(rows, t) && rows[|rows| - 1].templateType != t {
      var i :| 0 <= i < |rows| && rows[i].templateType == t;
      assert init[i].templateType == t;
    }
    if Lists(init, t) {
      var i :| 0 <= i < |init| && init[i].templateType == t;
      assert rows[i].templateType == t;
    }
  }

  /** The types loading gives a record: the four template types and every listed type. */
  lemma {:induction false} LoadedFromKeys(rows: seq<TemplateRow>, t: string)
    ensures t in LoadedFrom(rows) <==> t in TemplateTypes || Lists(rows, t)
    ensures !Lists(rows, t) && t in TemplateTypes ==> LoadedFrom(rows)[t] == map[]
    decreases |rows|
  {
    if rows != [] {
      LoadedFromKeys(rows[..|rows| - 1], t);
      ListsSnoc(rows, t);
    }
  }

  /** The record loaded for a type is that of the last row of that type. */
  lemma {:induction false} LoadedFromLast(rows: seq<TemplateRow>, t: string, i: nat)
    requires i < |rows| && rows[i].templateType == t
    requires forall j :: i < j < |rows| ==> rows[j].templateType != t
    ensures t in LoadedFrom(rows) && LoadedFrom(rows)[t] == LoadRow(rows[i])
    decreases |rows|
  {
    var init := rows[..|rows| - 1];
    if i < |rows| - 1 {
      assert init[i] == rows[i];
      assert forall j :: i < j < |init| ==> init[j] == rows[j];
      LoadedFromLast(init, t, i);
    }
  }

  /**
   * What loading gives for a type: the record of the last row of that type when there is
   * one (a later row overwrites an earlier one), an empty record for a template type no
   * row mentions, and nothing for any other type.
   */
  lemma LoadedFromAt(rows: seq<TemplateRow>, t: string)
    ensures t in LoadedFrom(rows) <==> t in TemplateTypes || Lists(rows, t)
    ensures !Lists(rows, t) && t in TemplateTypes ==> LoadedFrom(rows)[t] == map[]
    ensures forall i :: 0 <= i < |rows| && rows[i].templateType == t
                        && (forall j :: i < j < |rows| ==> rows[j].templateType != t)
                        ==> LoadedFrom(rows)[t] == LoadRow(rows[i])
  {
    LoadedFromKeys(rows, t);
    forall i | 0 <= i < |rows| && rows[i].templateType == t
               && (forall j :: i < j < |rows| ==> rows[j].templateType != t)
      ensures LoadedFrom(rows)[t] == LoadRow(rows[i])
    {
      LoadedFromLast(rows, t, i);
    }
  }

  // ---------------------------------------------------------------------------
  // Editing
  // ---------------------------------------------------------------------------

  /**
   * `handleInputChange(value, stateKey, field)`: the settings with `field` of the
   * `stateKey` record set to `value` and everything else as it was.
   */
  function WithField(s: Settings, key: string, field: Field, value: string): (r: Settings)
    ensures r.Keys == s.Keys + {key}
    ensures field in r[key] && r[key][field] == value
    ensures key in s ==> r[key].Keys == s[key].Keys + {field}
    ensures key !in s ==> r[key].Keys == {field}
    ensures forall g :: g != field && key in s && g in s[key] ==> r[key][g] == s[key][g]
    ensures forall k :: k in s && k != key ==> r[k] == s[k]
  {
    var prev := if key in s then s[key] else map[];
    s[key := prev[field := value]]
  }

  /** Edits of two different fields can be made in either order. */
  lemma EditsCommute(s: Settings, k1: string, f1: Field, v1: string, k2: string, f2: Field, v2: string)
    requires k1 != k2 || f1 != f2
    ensures WithField(WithField(s, k1, f1, v1), k2, f2, v2) == WithField(WithField(s, k2, f2, v2), k1, f1, v1)
  {
    var p1: Record := if k1 in s then s[k1] else map[];
    var p2: Record := if k2 in s then s[k2] else map[];
    if k1 == k2 {
      UpdatesCommute(p1, f1, v1, f2, v2);
    } else {
      UpdatesCommute(s, k1, p1[f1 := v1], k2, p2[f2 := v2]);
    }
  }

  /** Updates of two different keys of a map can be made in either order. */
  lemma UpdatesCommute<K, V>(m: map<K, V>, a: K, x: V, b: K, y: V)
    requires a != b
    ensures m[a := x][b := y] == m[b := y][a := x]
  {
    assert m[a := x][b := y].Keys == m[b := y][a := x].Keys;
  }

  /** Writing back the value a field already holds changes nothing. */
  lemma EditSameValue(s: Settings, key: string, field: Field)
    requires key in s && field in s[key]
    ensures WithField(s, key, field, s[key][field]) == s
  {
    var r := WithField(s, key, field, s[key][field]);
    assert r[key] == s[key];
  }

  // ---------------------------------------------------------------------------
  // Saving
  // ---------------------------------------------------------------------------

  const FieldNames: set<string> :=
    {"subject", "preview", "body", "note", "description", "instructions", "privacyNote", "maxFileSize"}

  /** `{ type, ...settings[type] }` as the JSON object it is posted as. */
  function Entry(templateType: string, rec: Record): (e: JsValue)
    ensures e.Obj?
    ensures Prop(e, "type") == Str(templateType)
    ensures forall f :: Prop(e, FieldName(f)) == if f in rec then Str(rec[f]) else Undefined
    ensures e.props.Keys == {"type"} + set f | f in rec :: FieldName(f)
  {
    var fields := map n | n in FieldNames && FieldByName(n).Some? && FieldByName(n).value in rec
                    :: Str(rec[FieldByName(n).value]);
    forall f ensures FieldName(f) in FieldNames && FieldByName(FieldName(f)) == Some(f) {
      FieldByNameOfFieldName(f);
    }
    assert fields.Keys == set f | f in rec :: FieldName(f);
    Obj(fields["type" := Str(templateType)])
  }

  /** The record the page holds for `t`; spreading a missing one gives no fields. */
  function RecordOf(s: Settings, t: string): Record {
    if t in s then s[t] else map[]
  }

  /** The list `saveSettingsToServer` posts. */
  function PayloadOf(s: Settings): seq<JsValue> {
    seq(|TemplateTypes|, i requires 0 <= i < |TemplateTypes| => Entry(TemplateTypes[i], RecordOf(s, TemplateTypes[i])))
  }

  /**
   * The save payload has one entry per template type, in the order verification,
   * success, reject, upload; each carries its type and exactly the fields of its record.
   */
  lemma PayloadShape(s: Settings)
    ensures |PayloadOf(s)| == 4
    ensures forall i :: 0 <= i < 4 ==> Prop(PayloadOf(s)[i], "type") == Str(TemplateTypes[i])
    ensures forall i, f :: 0 <= i < 4 ==>
              Prop(PayloadOf(s)[i], FieldName(f))
              == if f in RecordOf(s, TemplateTypes[i]) then Str(RecordOf(s, TemplateTypes[i])[f]) else Undefined
  {
  }

  /** A record with all eight fields, `''` where it had none. */
  function Filled(rec: Record): (r: Record)
    ensures forall f :: f in r && r[f] == if f in rec then rec[f] else ""
  {
    forall f ensures f in AllFields { AllFieldsListed(f); }
    map f | f in AllFields :: if f in rec then rec[f] else ""
  }

  /** The columns the save action stores for a record: its non-empty fields, null elsewhere. */
  function StoredColumns(rec: Record): (c: Columns)
    ensures forall f :: c.Get(f) == if f in rec && rec[f] != "" then Some(rec[f]) else None
  {
    Columns(StoredCell(rec, Subject), StoredCell(rec, Preview), StoredCell(rec, Body), StoredCell(rec, Note),
            StoredCell(rec, Description), StoredCell(rec, Instructions), StoredCell(rec, PrivacyNote),
            StoredCell(rec, MaxFileSize))
  }

  function StoredCell(rec: Record, f: Field): Option<string> {
    if f in rec && rec[f] != "" then Some(rec[f]) else None
  }

  lemma EntryField(t: string, rec: Record, f: Field)
    ensures Cell(Entry(t, rec), f) == Some(StoredColumns(rec).Get(f))
  {
    var v := Prop(Entry(t, rec), FieldName(f));
    assert v == if f in rec then Str(rec[f]) else Undefined;
  }

  /** The upsert the save action makes of one payload entry. */
  lemma EntryUpserts(t: string, rec: Record)
    ensures UpsertOf(Entry(t, rec)) == Some(Upsert(t, StoredColumns(rec)))
  {
    var e := Entry(t, rec);
    forall f ensures Cell(e, f) == Some(StoredColumns(rec).Get(f)) {
      EntryField(t, rec, f);
    }
    var u := UpsertOf(e);
    assert u.Some?;
    forall f ensures u.value.columns.Get(f) == StoredColumns(rec).Get(f) {
      EntryField(t, rec, f);
      UpsertOfColumns(e, f);
    }
    ColumnsExtensional(u.value.columns, StoredColumns(rec));
  }

  /** The upserts the save action makes of the whole payload: one per type, in order. */
  lemma PayloadUpserts(s: Settings)
    ensures |UpsertsOf(PayloadOf(s))| == 4
    ensures forall i :: 0 <= i < 4 ==>
              UpsertsOf(PayloadOf(s))[i] == Upsert(TemplateTypes[i], StoredColumns(RecordOf(s, TemplateTypes[i])))
  {
    var p := PayloadOf(s);
    forall i | 0 <= i < 4
      ensures UpsertOf(p[i]) == Some(Upsert(TemplateTypes[i], StoredColumns(RecordOf(s, TemplateTypes[i]))))
    {
      EntryUpserts(TemplateTypes[i], RecordOf(s, TemplateTypes[i]));
    }
  }

  /** A stored record loads back with every field it had, and `''` for the others. */
  lemma LoadStoredColumns(t: string, rec: Record, updatedAt: Option<nat>)
    ensures LoadRow(TemplateRow(t, StoredColumns(rec), updatedAt)) == Filled(rec)
  {
    var loaded, filled := LoadRow(TemplateRow(t, StoredColumns(rec), updatedAt)), Filled(rec);
    assert loaded.Keys == filled.Keys;
  }

  /**
   * Saving then reloading: after the save action has stored the page's payload, the row
   * of each template type loads back as the record the page held, with every field it
   * lacked as `''`. Nothing is lost or altered on the way, whatever the table held before.
   */
  lemma SaveThenLoad(rows: map<string, TemplateRow>, s: Settings, now: nat, i: nat)
    requires Keyed(rows) && i < 4
    ensures var stored := UpsertedAll(rows, UpsertsOf(PayloadOf(s)), now);
            TemplateTypes[i] in stored
            && LoadRow(stored[TemplateTypes[i]]) == Filled(RecordOf(s, TemplateTypes[i]))
  {
    var us := UpsertsOf(PayloadOf(s));
    var t := TemplateTypes[i];
    PayloadUpsertsDistinct(s, i);
    DistinctTypesAllStored(rows, us, now, i);
    var row := UpsertedAll(rows, us, now)[t];
    assert row == TemplateRow(t, StoredColumns(RecordOf(s, t)), row.updatedAt);
    LoadStoredColumns(t, RecordOf(s, t), row.updatedAt);
  }

  lemma PayloadUpsertsDistinct(s: Settings, i: nat)
    requires i < 4
    ensures var us := UpsertsOf(PayloadOf(s));
            |us| == 4
            && (forall a, b :: 0 <= a < b < |us| ==> us[a].templateType != us[b].templateType)
            && us[i] == Upsert(TemplateTypes[i], StoredColumns(RecordOf(s, TemplateTypes[i])))
  {
    var us := UpsertsOf(PayloadOf(s));
    PayloadUpserts(s);
    TemplateTypesDistinct();
    assert forall a :: 0 <= a < 4 ==> us[a].templateType == TemplateTypes[a];
  }

  /**
   * A save with no database failure always succeeds: all four entries are stored.
   */
  lemma PayloadSaves(s: Settings)
    ensures Done(PayloadOf(s), None) == |PayloadOf(s)|
  {
    var us := UpsertsOf(PayloadOf(s));
    PayloadUpserts(s);
    TemplateTypesDistinct();
    assert forall a :: 0 <= a < 4 ==> us[a].templateType == TemplateTypes[a];
  }

  // ---------------------------------------------------------------------------
  // Toast
  // ---------------------------------------------------------------------------

  /** What the toast shows for an action reply: its text and whether it is an error. */
  datatype Toast = Toast(message: JsValue, error: bool)

  /**
   * The toast for `actionData`: its `message` when that is truthy, otherwise a fixed text
   * chosen by `success`; it is an error exactly when `success` is falsy.
   */
  function ToastFor(actionData: JsValue): (t: Toast)
    ensures t.error <==> Falsy(Prop(actionData, "success"))
    ensures !Falsy(Prop(actionData, "message")) ==> t.message == Prop(actionData, "message")
    ensures Falsy(Prop(actionData, "message")) ==>
              t.message == Str(if t.error then "Failed to save settings" else "Settings saved successfully")
  {
    var message := Prop(actionData, "message");
    var success := !Falsy(Prop(actionData, "success"));
    Toast(if !Falsy(message) then message
          else Str(if success then "Settings saved successfully" else "Failed to save settings"),
          !success)
  }

  /**
   * The save action's two replies give the expected toasts: its success message, and
   * (as the failure reply carries no `message`) the page's own failure text as an error.
   */
  lemma ToastForReplies()
    ensures ToastFor(Saved.body) == Toast(Str(SavedMessage), false)
    ensures ToastFor(SaveFailed.body) == Toast(Str(SaveFailedMessage), true)
  {
  }

  // ---------------------------------------------------------------------------
  // The page's state
  // ---------------------------------------------------------------------------

  /** A file accepted by the drop zone. */
  datatype DroppedFile = DroppedFile(name: string, mimeType: string, size: nat)

  class EmailSettingPage {
    var selected: nat
    var showToast: bool
    var toastMessage: JsValue
    var toastError: bool
    var files: seq<DroppedFile>
    var settings: Settings

    /** Every template type keeps a record. */
    ghost predicate Valid()
      reads this
    {
      HasAllTypes(settings)
    }

    constructor (bodies: DefaultBodies)
      ensures Valid()
      ensures settings == DefaultSettings(bodies)
      ensures selected == 0 && !showToast && toastMessage == Str("") && !toastError && files == []
    {
      selected := 0;
      showToast := false;
      toastMessage := Str("");
      toastError := false;
      files := [];
      settings := DefaultSettings(bodies);
    }

    /**
     * The effect on the loader's rows: when there is at least one, `settings` becomes the
     * four empty records with each row's record assigned under its type in turn; an empty
     * list keeps the settings as they were.
     */
    method LoadSettings(initialSettings: seq<TemplateRow>)
      requires Valid()
      modifies this
      ensures Valid()
      ensures settings == if |initialSettings| > 0 then LoadedFrom(initialSettings) else old(settings)
      ensures files == old(files) && selected == old(selected)
      ensures showToast == old(showToast) && toastMessage == old(toastMessage) && toastError == old(toastError)
    {
      if |initialSettings| > 0 {
        var loaded := EmptyTemplates;
        var i := 0;
        while i < |initialSettings|
          invariant 0 <= i <= |initialSettings|
          invariant loaded == LoadedFrom(initialSettings[..i])
        {
          assert initialSettings[..i + 1][..i] == initialSettings[..i];
          var s := initialSettings[i];
          loaded := loaded[s.templateType := LoadRow(s)];
          i := i + 1;
        }
        assert initialSettings[..i] == initialSettings;
        forall t | t in TemplateTypes ensures t in loaded {
          LoadedFromAt(initialSettings, t);
        }
        settings := loaded;
      }
    }

    /** `handleInputChange(value, stateKey, field)`. */
    method HandleInputChange(value: string, stateKey: string, field: Field)
      requires Valid()
      modifies this
      ensures Valid()
      ensures settings == WithField(old(settings), stateKey, field, value)
      ensures files == old(files) && selected == old(selected)
      ensures showToast == old(showToast) && toastMessage == old(toastMessage) && toastError == old(toastError)
    {
      settings := WithField(settings, stateKey, field, value);
    }

    /** `handleTabChange(index)`. */
    method HandleTabChange(index: nat)
      modifies this
      ensures selected == index
      ensures settings == old(settings) && files == old(files)
      ensures showToast == old(showToast) && toastMessage == old(toastMessage) && toastError == old(toastError)
    {
      selected := index;
    }

    /** `handleDropZoneDrop`: the accepted files are appended, in order, after those already there. */
    method HandleDropZoneDrop(dropFiles: seq<DroppedFile>, acceptedFiles: seq<DroppedFile>, rejectedFiles: seq<DroppedFile>)
      modifies this
      ensures files == old(files) + acceptedFiles
      ensures settings == old(settings) && selected == old(selected)
      ensures showToast == old(showToast) && toastMessage == old(toastMessage) && toastError == old(toastError)
    {
      files := files + acceptedFiles;
    }

    /** The effect on new action data: a truthy value shows its toast; a falsy one changes nothing. */
    method OnActionData(actionData: JsValue)
      modifies this
      ensures !Falsy(actionData) ==>
                showToast && Toast(toastMessage, toastError) == ToastFor(actionData)
      ensures Falsy(actionData) ==>
                showToast == old(showToast) && toastMessage == old(toastMessage) && toastError == old(toastError)
      ensures settings == old(settings) && files == old(files) && selected == old(selected)
    {
      if !Falsy(actionData) {
        var t := ToastFor(actionData);
        toastMessage := t.message;
        toastError := t.error;
        showToast := true;
      }
    }

    /** `toggleToast`: hides the toast. */
    method ToggleToast()
      modifies this
      ensures !showToast
      ensures toastMessage == old(toastMessage) && toastError == old(toastError)
      ensures settings == old(settings) && files == old(files) && selected == old(selected)
    {
      showToast := false;
    }

    /** `saveSettingsToServer`: the list of four entries, built by pushing one per type. */
    method SaveSettingsToServer() returns (emailSettings: seq<JsValue>)
      ensures emailSettings == PayloadOf(settings)
    {
      emailSettings := [];
      var types := TemplateTypes;
      var i := 0;
      while i < |types|
        invariant 0 <= i <= |types|
        invariant |emailSettings| == i
        invariant forall j :: 0 <= j < i ==> emailSettings[j] == Entry(types[j], RecordOf(settings, types[j]))
      {
        var t := types[i];
        var setting := Entry(t, if t in settings then settings[t] else map[]);
        emailSettings := emailSettings + [setting];
        i := i + 1;
      }
    }
  }
}
