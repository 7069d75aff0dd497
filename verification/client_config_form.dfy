/**
 * The "Save Configuration" and Cancel buttons of `ClientConfigView`, as a
 * pure function over the sheet's state. Saving itself
 * (`saveCognitoConfiguration`, which persists the fields and re-authenticates)
 * is recorded as the list of field values handed to it.
 */
module ClientConfigForm {
  import opened SwiftText

  /** The fields the sheet edits, bound to the view-model. */
  datatype ConfigFields = ConfigFields(
    apiKey: string,
    apiKeyRegion: string,
    identityPoolId: string,
    trackerName: string,
    websocketUrl: string,
    geofenceCollectionArn: string)

  /** The sheet: its fields, whether it is presented, its error text, and every set of
      fields saved so far. */
  datatype ConfigSheet = ConfigSheet(
    fields: ConfigFields,
    isPresented: bool,
    showError: bool,
    errorMessage: string,
    saved: seq<ConfigFields>)

  const FillAllFields: string := "FillAllFields"

  /** The four fields the button insists on; an API key is optional. */
  predicate MissingRequired(f: ConfigFields) {
    f.identityPoolId == "" || f.trackerName == "" || f.websocketUrl == "" || f.geofenceCollectionArn == ""
  }

  /** "Save Configuration": with a required field empty, show the error and stay; otherwise
      save once and dismiss. */
  function Save(sheet: ConfigSheet): (r: ConfigSheet)
    ensures r.fields == sheet.fields
    ensures MissingRequired(sheet.fields) ==>
      && r.showError && r.errorMessage == FillAllFields
      && r.isPresented == sheet.isPresented && r.saved == sheet.saved
    ensures !MissingRequired(sheet.fields) ==>
      && !r.isPresented && r.saved == sheet.saved + [sheet.fields]
      && r.showError == sheet.showError && r.errorMessage == sheet.errorMessage
  {
    if MissingRequired(sheet.fields) then sheet.(errorMessage := FillAllFields, showError := true)
    else sheet.(saved := sheet.saved + [sheet.fields], isPresented := false)
  }

  /** The Cancel button: dismiss without saving. */
  function Cancel(sheet: ConfigSheet): (r: ConfigSheet)
    ensures !r.isPresented && r.saved == sheet.saved && r.fields == sheet.fields
    ensures r.showError == sheet.showError && r.errorMessage == sheet.errorMessage
  {
    sheet.(isPresented := false)
  }

  /** A save happens exactly when all four required fields are non-empty, and then exactly
      one set of fields (the current one) is saved. */
  lemma SaveIff(sheet: ConfigSheet)
    ensures |Save(sheet).saved| > |sheet.saved| <==>
      sheet.fields.identityPoolId != "" && sheet.fields.trackerName != ""
      && sheet.fields.websocketUrl != "" && sheet.fields.geofenceCollectionArn != ""
    ensures |Save(sheet).saved| <= |sheet.saved| + 1
    ensures Save(sheet).saved[..|sheet.saved|] == sheet.saved
  {
  }

  /** The API key and its region play no part in the decision. */
  lemma SaveIgnoresApiKey(sheet: ConfigSheet, apiKey: string, apiKeyRegion: string)
    ensures var other := sheet.(fields := sheet.fields.(apiKey := apiKey, apiKeyRegion := apiKeyRegion));
      Save(other).isPresented == Save(sheet).isPresented
      && Save(other).showError == Save(sheet).showError
      && |Save(other).saved| == |Save(sheet).saved|
  {
  }

  /** A non-empty value made of whitespace only: it trims to "" but is not empty. */
  predicate Blank(s: string) {
    s != "" && forall k :: 0 <= k < |s| ==> IsWhitespace(s[k])
  }

  /** The check is `isEmpty`, not a trimmed check: required fields that hold nothing but
      whitespace are accepted and saved. */
  lemma BlankFieldsAreSaved(sheet: ConfigSheet)
    requires Blank(sheet.fields.identityPoolId) && Blank(sheet.fields.trackerName)
    requires Blank(sheet.fields.websocketUrl) && Blank(sheet.fields.geofenceCollectionArn)
    ensures !Save(sheet).isPresented && Save(sheet).saved == sheet.saved + [sheet.fields]
  {
  }

  /** A rejected save leaves the sheet open, so pressing Save again rejects again with the
      same result. */
  lemma RejectedSaveIsStable(sheet: ConfigSheet)
    requires MissingRequired(sheet.fields)
    ensures Save(Save(sheet)) == Save(sheet)
  {
  }
}
