/** The hearing sheet of a project: a form of free-text and choice answers
    keyed by field name, loaded from and saved to the project's stored
    hearing sheet. The database's answers are inputs of the model. */
module Hearing {
  import opened Common

  type Form = map<string, string>

  /** Every field of the sheet, in the order of its ten sections. */
  const FORM_KEYS: seq<string> := [
    "title", "purpose", "aspectRatio", "targetAge", "targetGender", "viewingHabit", "device", "length",
    "message", "keywords", "hook", "emotionFlow", "finalEmotion", "climaxMessage", "conceptNotes",
    "referenceUrls", "avoidExpressions", "differentiation", "usp",
    "animationStyle", "characterDesign", "brandColor", "speed", "narration", "voiceTone", "subtitles",
    "bgm", "sfx", "forbiddenVisuals",
    "platform", "postStrategy", "hashtagStrategy", "postTime", "platformOptimization",
    "action", "commentReaction", "linkGuidance", "cta",
    "logoUsage", "characterUsage", "trademarkNotes", "secondaryUse",
    "budget", "deadline", "revisionLimit", "checkTiming", "format", "assets",
    "aiDisclosure", "dataConstraints", "ownership", "compliance",
    "otherNotes", "expectations"
  ]

  /** The sheet before anything is loaded: every field present and empty. */
  function DefaultForm(): (m: Form)
    ensures |FORM_KEYS| == 54
    ensures forall k :: k in m <==> k in FORM_KEYS
    ensures forall k :: k in m ==> m[k] == ""
  {
    map k | k in FORM_KEYS :: ""
  }

  /** A change to one answer: that field takes the new value, every other
      field keeps its own. */
  function WithChange(form: Form, key: string, value: string): (r: Form)
    ensures r.Keys == form.Keys + {key}
    ensures r[key] == value
    ensures forall k :: k in form && k != key ==> r[k] == form[k]
  {
    form[key := value]
  }

  /** Loaded answers laid over the form: stored answers override, every field they
      do not mention keeps its value. */
  function Merge(form: Form, responses: Form): (r: Form)
    ensures r.Keys == form.Keys + responses.Keys
    ensures forall k :: k in responses ==> r[k] == responses[k]
    ensures forall k :: k in form && k !in responses ==> r[k] == form[k]
  {
    form + responses
  }

  /** Loading the same answers twice is the same as loading them once. */
  lemma MergeIdempotent(form: Form, responses: Form)
    ensures Merge(Merge(form, responses), responses) == Merge(form, responses)
  {
  }

  /** Loading answers into a fresh sheet yields the stored answer where
      there is one and the empty string for every other field. */
  lemma LoadIntoDefaults(responses: Form, k: string)
    requires k in FORM_KEYS
    ensures k in Merge(DefaultForm(), responses)
    ensures Merge(DefaultForm(), responses)[k] == if k in responses then responses[k] else ""
  {
  }

  /** The row written on save. */
  datatype SaveRequest =
    | UpdateSheet(projectId: string, responses: Form, updatedAt: string)
    | InsertSheet(projectId: string, responses: Form, status: string)

  const SAVED_MESSAGE: string := "保存しました"
  const SAVE_FAILED_MESSAGE: string := "保存に失敗しました"

  /** The hearing tab's state. */
  class HearingTab {
    const projectId: string
    var formData: Form
    /** The form as it was when the save button was pressed: the save handler
        belongs to that render, so edits typed while the save runs are not
        part of the request. */
    var savingForm: Form
    var isSaving: bool
    var isLoading: bool

    /** No field of the sheet ever disappears from the form. */
    ghost predicate Valid()
      reads this
    {
      forall k :: k in FORM_KEYS ==> k in formData
    }

    constructor (projectId: string)
      ensures Valid()
      ensures this.projectId == projectId
      ensures formData == DefaultForm() && !isSaving && isLoading
      ensures savingForm == DefaultForm()
    {
      this.projectId := projectId;
      formData := DefaultForm();
      savingForm := formData;
      isSaving := false;
      isLoading := true;
    }

    /** `loadData`, given what the query returned: `stored` is the sheet's
        responses, or None when there is no row or no responses. The wait
        for the query is one step here. Without a project id nothing happens,
        not even the end of loading. */
    method LoadData(stored: Option<Form>)
      requires Valid()
      modifies this
      ensures Valid()
      ensures projectId == "" ==> unchanged(this)
      ensures projectId != "" ==>
        && !isLoading
        && formData == (if stored.Some? then Merge(old(formData), stored.value) else old(formData))
        && isSaving == old(isSaving) && savingForm == old(savingForm)
    {
      if projectId == "" {
        return;
      }
      if stored.Some? {
        formData := Merge(formData, stored.value);
      }
      isLoading := false;
    }

    /** `handleChange`. */
    method HandleChange(key: string, value: string)
      requires Valid()
      modifies this
      ensures Valid()
      ensures formData == WithChange(old(formData), key, value)
      ensures isSaving == old(isSaving) && isLoading == old(isLoading)
      ensures savingForm == old(savingForm)
    {
      formData := WithChange(formData, key, value);
    }

    /** `handleSave` up to its first await: the save is in progress, and the
        form it will send is the one on screen at the click. */
    method BeginSave()
      modifies this
      ensures isSaving && savingForm == formData
      ensures formData == old(formData) && isLoading == old(isLoading)
    {
      isSaving := true;
      savingForm := formData;
    }

    /** The rest of `handleSave`, given whether a sheet row exists and
        whether the write failed: an existing row is updated with the form,
        otherwise a draft row is inserted; the alert reports the outcome and
        the save is over whatever happened. The request carries the form as
        it was when the save began, whatever was typed since. */
    method CompleteSave(existing: bool, writeFailed: bool, now: string)
      returns (request: SaveRequest, message: string)
      requires isSaving
      modifies this
      ensures !isSaving
      ensures formData == old(formData) && isLoading == old(isLoading)
      ensures savingForm == old(savingForm)
      ensures request == if existing then UpdateSheet(projectId, savingForm, now)
                         else InsertSheet(projectId, savingForm, "draft")
      ensures message == if writeFailed then SAVE_FAILED_MESSAGE else SAVED_MESSAGE
    {
      if existing {
        request := UpdateSheet(projectId, savingForm, now);
      } else {
        request := InsertSheet(projectId, savingForm, "draft");
      }
      if writeFailed {
        message := SAVE_FAILED_MESSAGE;
      } else {
        message := SAVED_MESSAGE;
      }
      isSaving := false;
    }

    /** The save button in the header. */
    predicate HeaderSaveDisabled()
      reads this
    {
      isSaving || isLoading
    }

    /** The save button at the bottom of the sheet. */
    predicate FooterSaveDisabled()
      reads this
    {
      isSaving
    }
  }

  /** Whenever the bottom button is disabled so is the header button; the
      header button alone is disabled exactly while the sheet is loading. */
  lemma SaveButtons(t: HearingTab)
    ensures t.FooterSaveDisabled() ==> t.HeaderSaveDisabled()
    ensures t.HeaderSaveDisabled() && !t.FooterSaveDisabled() <==> t.isLoading && !t.isSaving
  {
  }
}
