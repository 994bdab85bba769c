/**
 * The first step of the setup wizard: whether the popup is enabled, when it appears and
 * the minimum age, the sentence describing the trigger, and the form it posts to the
 * configuration action before moving on to the second step.
 */
module Setup {
  import opened Wrappers
  import opened Js
  import ConfigApi

  /** What the page does with the outcome of a post: show an alert or navigate. */
  datatype Effect = Alert(message: string) | Navigate(path: string)

  /** The values offered by the trigger selector, in display order. */
  const TriggerOptions: seq<string> := ["checkout", "pageload", "addtocart", "manual"]

  const UnspecifiedTime := "at an unspecified time"

  /** `getTriggerDescription(trigger)`. */
  function TriggerDescription(trigger: string): (d: string)
    ensures trigger == "checkout" ==> d == "when customers start checkout"
    ensures trigger == "pageload" ==> d == "on page load"
    ensures trigger == "addtocart" ==> d == "when customers add items to cart"
    ensures trigger == "manual" ==> d == "when you trigger it manually"
    ensures d == UnspecifiedTime <==> trigger !in TriggerOptions
  {
    match trigger
    case "checkout" => "when customers start checkout"
    case "pageload" => "on page load"
    case "addtocart" => "when customers add items to cart"
    case "manual" => "when you trigger it manually"
    case _ => UnspecifiedTime
  }

  /** Each offered trigger has its own description, and none falls to the default one. */
  lemma OptionsDescribedDistinctly()
    ensures forall i :: 0 <= i < |TriggerOptions| ==> TriggerDescription(TriggerOptions[i]) != UnspecifiedTime
    ensures forall i, j :: 0 <= i < j < |TriggerOptions| ==>
              TriggerDescription(TriggerOptions[i]) != TriggerDescription(TriggerOptions[j])
  {
  }

  /** The form `handleNext` posts: `enabled` as "true"/"false", the other two as typed. */
  function SetupPayload(enabled: bool, popupTrigger: string, minimumAge: string): seq<(string, string)> {
    [("enabled", BoolToString(enabled)), ("popupTrigger", popupTrigger), ("minimumAge", minimumAge)]
  }

  /**
   * What the configuration action reads from this form: the flag, the trigger as chosen
   * and `parseInt` of the age text; the second step's fields come out cleared.
   */
  lemma SetupPayloadParsed(enabled: bool, popupTrigger: string, minimumAge: string)
    ensures var c := ConfigApi.ParseConfig(SetupPayload(enabled, popupTrigger, minimumAge));
            c.enabled == enabled && c.popupTrigger == Some(popupTrigger) && c.minimumAge == ParseInt(minimumAge)
            && !c.eSignatureEnabled && !c.idUploadEnabled && !c.emailEnabled && c.emailTrigger.None?
  {
    var form := SetupPayload(enabled, popupTrigger, minimumAge);
    FormGetFirst(form, 0, "enabled");
    FormGetFirst(form, 1, "popupTrigger");
    FormGetFirst(form, 2, "minimumAge");
    FormGetAbsent(form, "eSignatureEnabled");
    FormGetAbsent(form, "idUploadEnabled");
    FormGetAbsent(form, "emailEnabled");
    FormGetAbsent(form, "emailTrigger");
  }

  /** An age typed as the decimal rendering of a number is stored as that number. */
  lemma TypedAgeStored(enabled: bool, popupTrigger: string, age: int)
    ensures ConfigApi.ParseConfig(SetupPayload(enabled, popupTrigger, IntToString(age))).minimumAge == Int(age)
  {
    SetupPayloadParsed(enabled, popupTrigger, IntToString(age));
    ParseIntOfIntToString(age, []);
    assert IntToString(age) + [] == IntToString(age);
  }

  /**
   * What the page does with the posted form's reply: `result` is the parsed reply, or
   * `None` when the request or the parsing throws. A truthy `success` moves on to the
   * second step; a reply without it alerts a failure; a thrown error (also reading
   * `success` of a null reply) alerts an error.
   */
  function AfterSave(result: Option<JsValue>, next: string): (e: Effect)
    ensures e == Navigate(next) <==> result.Some? && !Falsy(Prop(result.value, "success"))
    ensures e.Alert? ==> e.message == "Failed to save configuration" || e.message == "Error saving configuration"
    ensures e == Alert("Error saving configuration") <==> result.None? || result.value.Null? || result.value.Undefined?
  {
    if result.None? || result.value.Null? || result.value.Undefined? then Alert("Error saving configuration")
    else if !Falsy(Prop(result.value, "success")) then Navigate(next)
    else Alert("Failed to save configuration")
  }

  /** The page moves on exactly when the configuration action stored the form. */
  lemma ProceedsIffStored(reply: ConfigApi.Reply, storeFails: bool, row: ConfigApi.ConfigRow)
    requires reply == (if storeFails then ConfigApi.FailedReply else ConfigApi.SavedReply(row))
    ensures AfterSave(Some(reply.body), "/setup2") == Navigate("/setup2") <==> !storeFails
    ensures storeFails ==> AfterSave(Some(reply.body), "/setup2") == Alert("Failed to save configuration")
  {
    ConfigApi.FailedReplyHasNoSuccess();
  }

  /** The page's state. */
  class SetupPage {
    var enabled: bool
    var popupTrigger: string
    var minimumAge: string

    constructor ()
      ensures !enabled && popupTrigger == "checkout" && minimumAge == "18"
    {
      enabled := false;
      popupTrigger := "checkout";
      minimumAge := "18";
    }

    /** `handleEnableToggle`: flips `enabled`; toggling twice restores it. */
    method HandleEnableToggle()
      modifies this
      ensures enabled == !old(enabled)
      ensures popupTrigger == old(popupTrigger) && minimumAge == old(minimumAge)
    {
      enabled := !enabled;
    }

    method SetPopupTrigger(value: string)
      modifies this
      ensures popupTrigger == value
      ensures enabled == old(enabled) && minimumAge == old(minimumAge)
    {
      popupTrigger := value;
    }

    method SetMinimumAge(value: string)
      modifies this
      ensures minimumAge == value
      ensures enabled == old(enabled) && popupTrigger == old(popupTrigger)
    {
      minimumAge := value;
    }

    /** The description shown in the banner for the chosen trigger. */
    function Description(): (d: string)
      reads this
      ensures d == UnspecifiedTime <==> popupTrigger !in TriggerOptions
    {
      TriggerDescription(popupTrigger)
    }

    /** `handleNext`: posts the form and reacts to the reply. */
    method HandleNext(result: Option<JsValue>) returns (posted: seq<(string, string)>, effect: Effect)
      ensures posted == SetupPayload(enabled, popupTrigger, minimumAge)
      ensures effect == AfterSave(result, "/setup2")
    {
      posted := SetupPayload(enabled, popupTrigger, minimumAge);
      effect := AfterSave(result, "/setup2");
    }
  }

  /** The page's initial state posts the default trigger and an age of 18. */
  lemma InitialStatePosts()
    ensures var c := ConfigApi.ParseConfig(SetupPayload(false, "checkout", "18"));
            !c.enabled && c.popupTrigger == Some("checkout") && c.minimumAge == Int(18)
  {
    EighteenRendered();
    TypedAgeStored(false, "checkout", 18);
  }

  lemma EighteenRendered()
    ensures IntToString(18) == "18"
  {
    assert NatToString(1) == ['1'];
    assert NatToString(18) == NatToString(1) + [DigitChar(8)];
  }
}
