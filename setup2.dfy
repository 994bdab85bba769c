/**
 * The second step of the setup wizard: which verification methods are on, whether the
 * outcome emails are sent and when, the summary lines describing those choices, and the
 * form it posts to the configuration action before moving on to the customer list.
 */
module Setup2 {
  import opened Wrappers
  import opened Js
  import ConfigApi
  import Setup

  /** The values offered by the email-trigger selector, in display order. */
  const EmailTriggerOptions: seq<string> := ["before_checkout", "after_age_verification", "after_popup", "manual"]

  /** The non-empty strings of `parts`, in order: `parts.filter(Boolean)`. */
  function NonEmpty(parts: seq<string>): (r: seq<string>)
    ensures |r| <= |parts|
    ensures forall i :: 0 <= i < |r| ==> r[i] != "" && r[i] in parts
    ensures forall s :: s in parts && s != "" ==> s in r
  {
    if parts == [] then []
    else (if parts[0] == "" then [] else [parts[0]]) + NonEmpty(parts[1..])
  }

  /** Filtering distributes over concatenation, so the kept parts stay in order. */
  lemma {:induction false} NonEmptyConcat(a: seq<string>, b: seq<string>)
    ensures NonEmpty(a + b) == NonEmpty(a) + NonEmpty(b)
  {
    if a == [] {
      assert a + b == b;
    } else {
      assert (a + b)[0] == a[0];
      assert (a + b)[1..] == a[1..] + b;
      NonEmptyConcat(a[1..], b);
    }
  }

  /** A single part is kept, once, exactly when it is non-empty. */
  lemma NonEmptySingle(s: string)
    ensures NonEmpty([s]) == (if s == "" then [] else [s])
  {
    assert [s][1..] == [];
  }

  /**
   * `selectedVerificationMethods`: the names of the enabled methods joined with " and ",
   * or "None" when neither is on.
   */
  function MethodsSummary(eSignatureEnabled: bool, idUploadEnabled: bool): (r: string)
    ensures r != ""
  {
    var joined := Join(NonEmpty([if eSignatureEnabled then "E-signature" else "", if idUploadEnabled then "ID upload" else ""]), " and ");
    if joined == "" then "None" else joined
  }

  /** Filtering two parts keeps the non-empty ones in order. */
  lemma NonEmptyPair(a: string, b: string)
    ensures NonEmpty([a, b]) == (if a == "" then [] else [a]) + (if b == "" then [] else [b])
  {
    assert [a, b][1..] == [b];
    assert [b][1..] == [];
  }

  /** The summary for each combination of the two methods. */
  lemma MethodsSummaryCases(eSignatureEnabled: bool, idUploadEnabled: bool)
    ensures eSignatureEnabled && idUploadEnabled ==> MethodsSummary(eSignatureEnabled, idUploadEnabled) == "E-signature" + " and " + "ID upload"
    ensures eSignatureEnabled && !idUploadEnabled ==> MethodsSummary(eSignatureEnabled, idUploadEnabled) == "E-signature"
    ensures !eSignatureEnabled && idUploadEnabled ==> MethodsSummary(eSignatureEnabled, idUploadEnabled) == "ID upload"
    ensures !eSignatureEnabled && !idUploadEnabled ==> MethodsSummary(eSignatureEnabled, idUploadEnabled) == "None"
  {
    var a := if eSignatureEnabled then "E-signature" else "";
    var b := if idUploadEnabled then "ID upload" else "";
    NonEmptyPair(a, b);
    if eSignatureEnabled && idUploadEnabled {
      JoinSnoc([a], " and ", b);
      assert [a] + [b] == [a, b];
    }
  }

  const EnabledPrefix := "Enabled ("

  /**
   * The email line of the summary: "Disabled" when emails are off, otherwise the trigger
   * with every underscore turned into a space, inside "Enabled (" and ")".
   */
  function EmailSummary(emailEnabled: bool, emailTrigger: string): (r: string)
    ensures !emailEnabled ==> r == "Disabled"
    ensures emailEnabled ==> |r| == |EnabledPrefix| + |emailTrigger| + 1
  {
    if emailEnabled then EnabledPrefix + ReplaceAll(emailTrigger, '_', ' ') + ")" else "Disabled"
  }

  /**
   * An enabled email line starts with "Enabled (", ends with ")", shows each character of
   * the trigger with `_` turned into a space in between, and so holds no underscore.
   */
  lemma EmailSummaryShape(emailTrigger: string)
    ensures var r := EmailSummary(true, emailTrigger);
            r[..|EnabledPrefix|] == EnabledPrefix && r[|r| - 1] == ')'
            && (forall i :: 0 <= i < |emailTrigger| ==>
                  r[|EnabledPrefix| + i] == if emailTrigger[i] == '_' then ' ' else emailTrigger[i])
            && '_' !in r
  {
    var shown := ReplaceAll(emailTrigger, '_', ' ');
    var r := EnabledPrefix + shown + ")";
    assert r == EmailSummary(true, emailTrigger);
    assert r[..|EnabledPrefix|] == EnabledPrefix;
    assert forall i :: 0 <= i < |emailTrigger| ==> r[|EnabledPrefix| + i] == shown[i];
    assert '_' !in EnabledPrefix;
    assert forall c :: c in r ==> c in EnabledPrefix || c in shown || c == ')';
  }

  /** Replacing distributes over concatenation. */
  lemma {:induction false} ReplaceAllConcat(s: string, t: string, from: char, to: char)
    ensures ReplaceAll(s + t, from, to) == ReplaceAll(s, from, to) + ReplaceAll(t, from, to)
  {
    if s != [] {
      assert (s + t)[1..] == s[1..] + t;
      ReplaceAllConcat(s[1..], t, from, to);
    }
  }

  /** Text without the replaced character is left as it is. */
  lemma ReplaceAllAbsent(s: string, from: char, to: char)
    requires from !in s
    ensures ReplaceAll(s, from, to) == s
  {
  }

  /** The summary line for a trigger of the form `w1_w2...`: each `_` becomes a space. */
  lemma EmailSummaryOfWords(words: seq<string>)
    requires |words| > 0
    requires forall i :: 0 <= i < |words| ==> '_' !in words[i]
    ensures EmailSummary(true, Join(words, "_")) == EnabledPrefix + Join(words, " ") + ")"
  {
    ReplaceAllOfWords(words);
  }

  lemma {:induction false} ReplaceAllOfWords(words: seq<string>)
    requires |words| > 0
    requires forall i :: 0 <= i < |words| ==> '_' !in words[i]
    ensures ReplaceAll(Join(words, "_"), '_', ' ') == Join(words, " ")
  {
    if |words| == 1 {
      ReplaceAllAbsent(words[0], '_', ' ');
    } else {
      var init := words[..|words| - 1];
      var last := words[|words| - 1];
      assert init + [last] == words;
      ReplaceAllOfWords(init);
      JoinSnoc(init, "_", last);
      JoinSnoc(init, " ", last);
      ReplaceAllOfSnoc(Join(init, "_"), last);
    }
  }

  /** Replacing in `a_w`, for a word `w` without `_`, replaces in `a` and turns the joint into a space. */
  lemma ReplaceAllOfSnoc(a: string, w: string)
    requires '_' !in w
    ensures ReplaceAll(a + "_" + w, '_', ' ') == ReplaceAll(a, '_', ' ') + " " + w
  {
    ReplaceAllConcat(a + "_", w, '_', ' ');
    ReplaceAllConcat(a, "_", '_', ' ');
    ReplaceAllAbsent(w, '_', ' ');
  }

  /** Joining two parts puts the separator between them. */
  lemma JoinPair(a: string, b: string, sep: string)
    ensures Join([a, b], sep) == a + sep + b
  {
    JoinSnoc([a], sep, b);
    assert [a] + [b] == [a, b];
  }

  /** The summary line for each offered trigger. */
  lemma EmailSummaryOfOptions()
    ensures EmailSummary(true, "before_checkout") == "Enabled (" + "before checkout" + ")"
    ensures EmailSummary(true, "after_age_verification") == "Enabled (" + "after age verification" + ")"
    ensures EmailSummary(true, "after_popup") == "Enabled (" + "after popup" + ")"
    ensures EmailSummary(true, "manual") == "Enabled (" + "manual" + ")"
  {
    BeforeCheckoutShown();
    AfterAgeVerificationShown();
    AfterPopupShown();
    ManualShown();
  }

  lemma BeforeCheckoutShown()
    ensures EmailSummary(true, "before_checkout") == "Enabled (" + "before checkout" + ")"
  {
    JoinPair("before", "checkout", "_");
    JoinPair("before", "checkout", " ");
    EmailSummaryOfWords(["before", "checkout"]);
    assert "before" + "_" + "checkout" == "before_checkout";
    assert "before" + " " + "checkout" == "before checkout";
  }

  lemma AfterAgeVerificationShown()
    ensures EmailSummary(true, "after_age_verification") == "Enabled (" + "after age verification" + ")"
  {
    AgeVerificationWords();
    EmailSummaryOfWords(["after", "age", "verification"]);
  }

  lemma AgeVerificationWords()
    ensures Join(["after", "age", "verification"], "_") == "after_age_verification"
    ensures Join(["after", "age", "verification"], " ") == "after age verification"
  {
    AgeVerificationUnderscored();
    AgeVerificationSpaced();
  }

  lemma AgeVerificationUnderscored()
    ensures Join(["after", "age", "verification"], "_") == "after_age_verification"
  {
    AgeVerificationJoined("_");
    assert "after" + "_" + "age" + "_" + "verification" == "after_age_verification";
  }

  lemma AgeVerificationSpaced()
    ensures Join(["after", "age", "verification"], " ") == "after age verification"
  {
    AgeVerificationJoined(" ");
    assert "after" + " " + "age" + " " + "verification" == "after age verification";
  }

  lemma AgeVerificationJoined(sep: string)
    ensures Join(["after", "age", "verification"], sep) == "after" + sep + "age" + sep + "verification"
  {
    JoinPair("after", "age", sep);
    JoinSnoc(["after", "age"], sep, "verification");
    assert ["after", "age"] + ["verification"] == ["after", "age", "verification"];
  }

  lemma AfterPopupShown()
    ensures EmailSummary(true, "after_popup") == "Enabled (" + "after popup" + ")"
  {
    JoinPair("after", "popup", "_");
    JoinPair("after", "popup", " ");
    EmailSummaryOfWords(["after", "popup"]);
    assert "after" + "_" + "popup" == "after_popup";
    assert "after" + " " + "popup" == "after popup";
  }

  lemma ManualShown()
    ensures EmailSummary(true, "manual") == "Enabled (" + "manual" + ")"
  {
    ReplaceAllAbsent("manual", '_', ' ');
  }

  /** The form `handleSave` posts: the three flags as "true"/"false" and the trigger. */
  function Setup2Payload(eSignatureEnabled: bool, idUploadEnabled: bool, emailEnabled: bool, emailTrigger: string): seq<(string, string)> {
    [("eSignatureEnabled", BoolToString(eSignatureEnabled)),
     ("idUploadEnabled", BoolToString(idUploadEnabled)),
     ("emailEnabled", BoolToString(emailEnabled)),
     ("emailTrigger", emailTrigger)]
  }

  /**
   * What the configuration action reads from this form: the three flags and the trigger
   * as chosen; the first step's fields come out cleared (disabled, no popup trigger, a
   * NaN minimum age).
   */
  lemma Setup2PayloadParsed(eSignatureEnabled: bool, idUploadEnabled: bool, emailEnabled: bool, emailTrigger: string)
    ensures var c := ConfigApi.ParseConfig(Setup2Payload(eSignatureEnabled, idUploadEnabled, emailEnabled, emailTrigger));
            c.eSignatureEnabled == eSignatureEnabled && c.idUploadEnabled == idUploadEnabled
            && c.emailEnabled == emailEnabled && c.emailTrigger == Some(emailTrigger)
            && !c.enabled && c.popupTrigger.None? && c.minimumAge == NaN
  {
    var form := Setup2Payload(eSignatureEnabled, idUploadEnabled, emailEnabled, emailTrigger);
    FormGetFirst(form, 0, "eSignatureEnabled");
    FormGetFirst(form, 1, "idUploadEnabled");
    FormGetFirst(form, 2, "emailEnabled");
    FormGetFirst(form, 3, "emailTrigger");
    FormGetAbsent(form, "enabled");
    FormGetAbsent(form, "popupTrigger");
    FormGetAbsent(form, "minimumAge");
  }

  /**
   * Going through both steps loses the first: after the first step's save and then the
   * second's, the stored configuration is disabled, has no popup trigger and a NaN
   * minimum age, whatever the first step chose.
   */
  lemma SecondStepClobbersFirst(
    rows: map<int, ConfigApi.ConfigRow>, t1: nat, t2: nat,
    enabled: bool, popupTrigger: string, minimumAge: string,
    eSignatureEnabled: bool, idUploadEnabled: bool, emailEnabled: bool, emailTrigger: string)
    requires ConfigApi.Keyed(rows)
    ensures var first := ConfigApi.UpsertedConfig(rows, ConfigApi.ParseConfig(Setup.SetupPayload(enabled, popupTrigger, minimumAge)), t1);
            var second := ConfigApi.UpsertedConfig(first, ConfigApi.ParseConfig(Setup2Payload(eSignatureEnabled, idUploadEnabled, emailEnabled, emailTrigger)), t2);
            var c := second[ConfigApi.ConfigId].data;
            !c.enabled && c.popupTrigger.None? && c.minimumAge == NaN
            && c.eSignatureEnabled == eSignatureEnabled && c.emailTrigger == Some(emailTrigger)
  {
    Setup2PayloadParsed(eSignatureEnabled, idUploadEnabled, emailEnabled, emailTrigger);
  }

  /** The page's state. */
  class Setup2Page {
    var eSignatureEnabled: bool
    var idUploadEnabled: bool
    var emailEnabled: bool
    var emailTrigger: string

    constructor ()
      ensures eSignatureEnabled && idUploadEnabled && emailEnabled
      ensures emailTrigger == "after_popup" && emailTrigger in EmailTriggerOptions
    {
      eSignatureEnabled := true;
      idUploadEnabled := true;
      emailEnabled := true;
      emailTrigger := "after_popup";
    }

    method SetESignatureEnabled(value: bool)
      modifies this
      ensures eSignatureEnabled == value
      ensures idUploadEnabled == old(idUploadEnabled) && emailEnabled == old(emailEnabled) && emailTrigger == old(emailTrigger)
    {
      eSignatureEnabled := value;
    }

    method SetIdUploadEnabled(value: bool)
      modifies this
      ensures idUploadEnabled == value
      ensures eSignatureEnabled == old(eSignatureEnabled) && emailEnabled == old(emailEnabled) && emailTrigger == old(emailTrigger)
    {
      idUploadEnabled := value;
    }

    method SetEmailEnabled(value: bool)
      modifies this
      ensures emailEnabled == value
      ensures eSignatureEnabled == old(eSignatureEnabled) && idUploadEnabled == old(idUploadEnabled) && emailTrigger == old(emailTrigger)
    {
      emailEnabled := value;
    }

    method SetEmailTrigger(value: string)
      modifies this
      ensures emailTrigger == value
      ensures eSignatureEnabled == old(eSignatureEnabled) && idUploadEnabled == old(idUploadEnabled) && emailEnabled == old(emailEnabled)
    {
      emailTrigger := value;
    }

    /**
     * `handleSave`: posts the form; on a reply with a truthy `success` it alerts and moves
     * on to the customer list, otherwise it alerts a failure or an error.
     */
    method HandleSave(result: Option<JsValue>) returns (posted: seq<(string, string)>, effects: seq<Setup.Effect>)
      ensures posted == Setup2Payload(eSignatureEnabled, idUploadEnabled, emailEnabled, emailTrigger)
      ensures Setup.Navigate("/customers") in effects <==> result.Some? && !Falsy(Prop(result.value, "success"))
      ensures Setup.Navigate("/customers") in effects ==>
                effects == [Setup.Alert("Configuration saved successfully"), Setup.Navigate("/customers")]
      ensures Setup.Navigate("/customers") !in effects ==> effects == [Setup.AfterSave(result, "/customers")]
    {
      posted := Setup2Payload(eSignatureEnabled, idUploadEnabled, emailEnabled, emailTrigger);
      var e := Setup.AfterSave(result, "/customers");
      if e.Navigate? {
        effects := [Setup.Alert("Configuration saved successfully"), e];
      } else {
        effects := [e];
      }
    }
  }

  /** The initial state's summaries. */
  lemma InitialSummaries()
    ensures MethodsSummary(true, true) == "E-signature" + " and " + "ID upload"
    ensures EmailSummary(true, "after_popup") == "Enabled (" + "after popup" + ")"
  {
    MethodsSummaryCases(true, true);
    AfterPopupShown();
  }
}
