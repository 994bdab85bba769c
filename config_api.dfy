/**
 * The configuration save action: it reads the posted form into a configuration record
 * and upserts it into the configuration table at the fixed id 1. The table is a map from
 * id to row standing in for the ORM table.
 */
module ConfigApi {
  import opened Wrappers
  import opened Js

  /** `configData` as the action builds it from the form. */
  datatype ConfigData = ConfigData(
    enabled: bool,
    popupTrigger: Option<string>,
    minimumAge: Number,
    eSignatureEnabled: bool,
    idUploadEnabled: bool,
    emailEnabled: bool,
    emailTrigger: Option<string>)

  /** `formData.get(name) === 'true'`. */
  function IsTrue(form: seq<(string, string)>, name: string): (b: bool)
    ensures b <==> FormGet(form, name) == Some("true")
  {
    FormGet(form, name) == Some("true")
  }

  /**
   * `parseInt(formData.get(name))`: a missing field is `null`, which `parseInt` reads as
   * the text "null".
   */
  function ParseIntField(form: seq<(string, string)>, name: string): (n: Number)
    ensures FormGet(form, name).None? ==> n == NaN
    ensures FormGet(form, name).Some? ==> n == ParseInt(FormGet(form, name).value)
  {
    var raw := FormGet(form, name).GetOr("null");
    assert FormGet(form, name).None? ==> ParseInt(raw) == NaN by {
      if FormGet(form, name).None? {
        ParseIntWithoutDigits(raw);
      }
    }
    ParseInt(raw)
  }

  /**
   * The configuration the form describes: each flag is on iff its field is exactly the
   * text "true"; the triggers are taken as posted, with no check of their values; the
   * minimum age is `parseInt` of its field.
   */
  function ParseConfig(form: seq<(string, string)>): (c: ConfigData)
    ensures c.enabled <==> FormGet(form, "enabled") == Some("true")
    ensures c.eSignatureEnabled <==> FormGet(form, "eSignatureEnabled") == Some("true")
    ensures c.idUploadEnabled <==> FormGet(form, "idUploadEnabled") == Some("true")
    ensures c.emailEnabled <==> FormGet(form, "emailEnabled") == Some("true")
    ensures c.popupTrigger == FormGet(form, "popupTrigger")
    ensures c.emailTrigger == FormGet(form, "emailTrigger")
    ensures FormGet(form, "minimumAge").None? ==> c.minimumAge == NaN
    ensures FormGet(form, "minimumAge").Some? ==> c.minimumAge == ParseInt(FormGet(form, "minimumAge").value)
  {
    ConfigData(
      IsTrue(form, "enabled"),
      FormGet(form, "popupTrigger"),
      ParseIntField(form, "minimumAge"),
      IsTrue(form, "eSignatureEnabled"),
      IsTrue(form, "idUploadEnabled"),
      IsTrue(form, "emailEnabled"),
      FormGet(form, "emailTrigger"))
  }

  /** Whether the form has a field called `name`. */
  predicate Posts(form: seq<(string, string)>, name: string) {
    exists i :: 0 <= i < |form| && form[i].0 == name
  }

  /**
   * A form that leaves fields out still sets them: flags to false, triggers to null and
   * the minimum age to NaN.
   */
  lemma MissingFieldsCleared(form: seq<(string, string)>)
    ensures !Posts(form, "enabled") ==> !ParseConfig(form).enabled
    ensures !Posts(form, "eSignatureEnabled") ==> !ParseConfig(form).eSignatureEnabled
    ensures !Posts(form, "idUploadEnabled") ==> !ParseConfig(form).idUploadEnabled
    ensures !Posts(form, "emailEnabled") ==> !ParseConfig(form).emailEnabled
    ensures !Posts(form, "popupTrigger") ==> ParseConfig(form).popupTrigger.None?
    ensures !Posts(form, "emailTrigger") ==> ParseConfig(form).emailTrigger.None?
    ensures !Posts(form, "minimumAge") ==> ParseConfig(form).minimumAge == NaN
  {
    FormGetSpec(form, "enabled");
    FormGetSpec(form, "eSignatureEnabled");
    FormGetSpec(form, "idUploadEnabled");
    FormGetSpec(form, "emailEnabled");
    FormGetSpec(form, "popupTrigger");
    FormGetSpec(form, "emailTrigger");
    FormGetSpec(form, "minimumAge");
  }

  /** The fixed id of the one configuration row. */
  const ConfigId := 1

  /** A row of the configuration table; `updatedAt` is set only when the action updates it. */
  datatype ConfigRow = ConfigRow(id: int, data: ConfigData, updatedAt: Option<nat>)

  /** Each row is stored under its own id. */
  predicate Keyed(rows: map<int, ConfigRow>) {
    forall k :: k in rows ==> rows[k].id == k
  }

  /** The table after the upsert at id 1: the row there updated, or a new row created. */
  function UpsertedConfig(rows: map<int, ConfigRow>, data: ConfigData, now: nat): (r: map<int, ConfigRow>)
    requires Keyed(rows)
    ensures Keyed(r)
    ensures r.Keys == rows.Keys + {ConfigId}
    ensures r[ConfigId].id == ConfigId && r[ConfigId].data == data
    ensures ConfigId in rows ==> r[ConfigId].updatedAt == Some(now)
    ensures forall k :: k in rows && k != ConfigId ==> r[k] == rows[k]
  {
    if ConfigId in rows then rows[ConfigId := rows[ConfigId].(data := data, updatedAt := Some(now))]
    else rows[ConfigId := ConfigRow(ConfigId, data, None)]
  }

  /**
   * Saving depends only on the last form: whatever an earlier save stored at id 1, a
   * later save replaces all of it.
   */
  lemma LaterSaveReplaces(rows: map<int, ConfigRow>, d1: ConfigData, d2: ConfigData, t1: nat, t2: nat)
    requires Keyed(rows)
    ensures UpsertedConfig(UpsertedConfig(rows, d1, t1), d2, t2)[ConfigId].data == d2
    ensures UpsertedConfig(UpsertedConfig(rows, d1, t1), d2, t2)
            == UpsertedConfig(rows, d2, t2)[ConfigId := UpsertedConfig(rows, d2, t2)[ConfigId].(updatedAt := Some(t2))]
  {
  }

  /** A JSON number: NaN serialises as null. */
  function NumberJson(n: Number): JsValue {
    match n
    case NaN => Null
    case Int(v) => Num(Int(v))
  }

  function OptionJson(s: Option<string>): JsValue {
    match s
    case None => Null
    case Some(v) => Str(v)
  }

  /** The saved row as the reply's `config`. */
  function RowJson(row: ConfigRow): JsValue {
    Obj(map[
      "id" := Num(Int(row.id)),
      "enabled" := Bool(row.data.enabled),
      "popupTrigger" := OptionJson(row.data.popupTrigger),
      "minimumAge" := NumberJson(row.data.minimumAge),
      "eSignatureEnabled" := Bool(row.data.eSignatureEnabled),
      "idUploadEnabled" := Bool(row.data.idUploadEnabled),
      "emailEnabled" := Bool(row.data.emailEnabled),
      "emailTrigger" := OptionJson(row.data.emailTrigger),
      "updatedAt" := if row.updatedAt.Some? then Num(Int(row.updatedAt.value)) else Null])
  }

  /** The action's JSON reply and its HTTP status. */
  datatype Reply = Reply(status: nat, body: JsValue)

  const SaveConfigFailedMessage := "Failed to save configuration"

  /** The reply for a stored row: success with the row. */
  function SavedReply(row: ConfigRow): (r: Reply)
    ensures r.status == 200 && Prop(r.body, "success") == Bool(true) && Prop(r.body, "config") == RowJson(row)
  {
    Reply(200, Obj(map["success" := Bool(true), "config" := RowJson(row)]))
  }

  /** The reply when the database fails: only an `error`, so `success` is undefined. */
  const FailedReply := Reply(500, Obj(map["error" := Str(SaveConfigFailedMessage)]))

  lemma FailedReplyHasNoSuccess()
    ensures Prop(FailedReply.body, "success") == Undefined
    ensures Prop(FailedReply.body, "error") == Str(SaveConfigFailedMessage)
  {
  }

  /** The configuration table. */
  class ConfigTable {
    var rows: map<int, ConfigRow>

    ghost predicate Valid()
      reads this
    {
      Keyed(rows)
    }

    constructor (initial: map<int, ConfigRow>)
      requires Keyed(initial)
      ensures Valid() && rows == initial
    {
      rows := initial;
    }

    /**
     * The `action`: `form` is the posted form, `storeFails` whether the database refuses
     * the upsert, `now` the clock. On success the row at id 1 holds exactly the parsed
     * configuration and no other row changes; on failure nothing changes.
     */
    method Action(form: seq<(string, string)>, storeFails: bool, now: nat) returns (reply: Reply)
      requires Valid()
      modifies this
      ensures Valid()
      ensures storeFails ==> reply == FailedReply && rows == old(rows)
      ensures !storeFails ==> rows == UpsertedConfig(old(rows), ParseConfig(form), now)
                              && reply == SavedReply(rows[ConfigId])
    {
      var configData := ParseConfig(form);
      if storeFails {
        return FailedReply;
      }
      rows := UpsertedConfig(rows, configData, now);
      reply := SavedReply(rows[ConfigId]);
    }
  }
}
