/**
 * The email-template schema shared by the settings page and its save action: the four
 * template types, the eight text columns a template row holds, and a stored row.
 */
module Templates {
  import opened Wrappers

  /** The four template types, in the order the page saves them. */
  const TemplateTypes: seq<string> := ["verification", "success", "reject", "upload"]

  /** No template type is listed twice. */
  lemma TemplateTypesDistinct()
    ensures forall a, b :: 0 <= a < b < |TemplateTypes| ==> TemplateTypes[a] != TemplateTypes[b]
  {
    assert TemplateTypes[2][0] != TemplateTypes[3][0];
  }

  /** The eight text columns of an email-template row. */
  datatype Field = Subject | Preview | Body | Note | Description | Instructions | PrivacyNote | MaxFileSize

  /** Every field, in the order the page's loader lists them. */
  const AllFields: seq<Field> := [Subject, Preview, Body, Note, Description, Instructions, PrivacyNote, MaxFileSize]

  lemma AllFieldsListed(f: Field)
    ensures f in AllFields
  {
  }

  /** The property name under which a field travels in JSON and in the page's state. */
  function FieldName(f: Field): (n: string)
    ensures n != "type"
  {
    match f
    case Subject => "subject"
    case Preview => "preview"
    case Body => "body"
    case Note => "note"
    case Description => "description"
    case Instructions => "instructions"
    case PrivacyNote => "privacyNote"
    case MaxFileSize => "maxFileSize"
  }

  /** The field a property name stands for, if any. */
  function FieldByName(n: string): (r: Option<Field>)
    ensures r.Some? ==> FieldName(r.value) == n
  {
    if n == "subject" then Some(Subject)
    else if n == "preview" then Some(Preview)
    else if n == "body" then Some(Body)
    else if n == "note" then Some(Note)
    else if n == "description" then Some(Description)
    else if n == "instructions" then Some(Instructions)
    else if n == "privacyNote" then Some(PrivacyNote)
    else if n == "maxFileSize" then Some(MaxFileSize)
    else None
  }

  /** Names and fields correspond one to one. */
  lemma FieldByNameOfFieldName(f: Field)
    ensures FieldByName(FieldName(f)) == Some(f)
  {
  }

  /** The eight nullable text columns of a stored template. */
  datatype Columns = Columns(
    subject: Option<string>,
    preview: Option<string>,
    body: Option<string>,
    note: Option<string>,
    description: Option<string>,
    instructions: Option<string>,
    privacyNote: Option<string>,
    maxFileSize: Option<string>)
  {
    function Get(f: Field): Option<string> {
      match f
      case Subject => subject
      case Preview => preview
      case Body => body
      case Note => note
      case Description => description
      case Instructions => instructions
      case PrivacyNote => privacyNote
      case MaxFileSize => maxFileSize
    }
  }

  /** Two column sets agree on every field exactly when they are equal. */
  lemma ColumnsExtensional(a: Columns, b: Columns)
    requires forall f :: a.Get(f) == b.Get(f)
    ensures a == b
  {
    assert a.Get(Subject) == b.Get(Subject) && a.Get(Preview) == b.Get(Preview);
    assert a.Get(Body) == b.Get(Body) && a.Get(Note) == b.Get(Note);
    assert a.Get(Description) == b.Get(Description) && a.Get(Instructions) == b.Get(Instructions);
    assert a.Get(PrivacyNote) == b.Get(PrivacyNote) && a.Get(MaxFileSize) == b.Get(MaxFileSize);
  }

  /**
   * A row of the email-template table: its unique `type`, its columns, and the time of
   * its last update by the save action (`None` when the action created it and so never
   * set it).
   */
  datatype TemplateRow = TemplateRow(templateType: string, columns: Columns, updatedAt: Option<nat>)
}
