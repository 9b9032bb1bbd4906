/**
 * The disease-identification page: the chosen image (from the file input or
 * by drag and drop), the drag highlight, and the simulated identification,
 * whose delayed result is a separate completion step.
 */
module DiseaseIdentificationPage {
  import opened Outcomes

  /** A picked file: its name and contents. */
  datatype ImageFile = ImageFile(name: string, bytes: seq<bv8>)

  /** The result card's data. */
  datatype Diagnosis = Diagnosis(disease: string, description: string, suggestions: seq<string>, severity: string)

  const BlightDescription := "Late blight is a disease that affects potatoes and tomatoes, caused by the oomycete Phytophthora infestans. It thrives in cool, moist conditions."
  const BlightSuggestions: seq<string> :=
    ["Remove and destroy infected plants.", "Apply recommended fungicides.", "Avoid overhead irrigation."]

  /** The fixed result the completion step sets. */
  function LateBlight(): (d: Diagnosis)
    ensures d.disease == "Late Blight" && d.severity == "high"
    ensures |d.suggestions| == 3
  {
    Diagnosis("Late Blight", BlightDescription, BlightSuggestions, "high")
  }

  /** The card shows the alert icon, rather than the check mark, for a high severity. */
  predicate ShowsAlert(d: Diagnosis) {
    d.severity == "high"
  }

  /** `files && files[0]`: the first file of a non-empty list, otherwise the current image. */
  function ChosenImage(files: Option<seq<ImageFile>>, current: Option<ImageFile>): (r: Option<ImageFile>)
    ensures files.Some? && files.value != [] ==> r == Some(files.value[0])
    ensures (files.None? || files.value == []) ==> r == current
  {
    match files
    case Some(fs) => if fs != [] then Some(fs[0]) else current
    case None => current
  }

  /** The drag highlight after an event of type `eventType`. */
  function DragActiveAfter(eventType: string, current: bool): (r: bool)
    ensures eventType == "dragenter" || eventType == "dragover" ==> r
    ensures eventType == "dragleave" ==> !r
    ensures eventType !in {"dragenter", "dragover", "dragleave"} ==> r == current
  {
    if eventType == "dragenter" || eventType == "dragover" then true
    else if eventType == "dragleave" then false
    else current
  }

  class Page {
    var image: Option<ImageFile>
    var crop: string
    var symptom: string
    var result: Option<Diagnosis>
    var loading: bool
    var dragActive: bool
    /** Identification timers started and not yet fired. */
    var pending: nat

    constructor ()
      ensures image == None && crop == "" && symptom == "" && result == None
      ensures !loading && !dragActive && pending == 0
    {
      image, crop, symptom, result := None, "", "", None;
      loading, dragActive, pending := false, false, 0;
    }

    method SetCrop(value: string)
      modifies this
      ensures crop == value && image == old(image) && symptom == old(symptom) && result == old(result)
      ensures loading == old(loading) && dragActive == old(dragActive) && pending == old(pending)
    {
      crop := value;
    }

    method SetSymptom(value: string)
      modifies this
      ensures symptom == value && image == old(image) && crop == old(crop) && result == old(result)
      ensures loading == old(loading) && dragActive == old(dragActive) && pending == old(pending)
    {
      symptom := value;
    }

    /** `disabled={!image || loading}`. */
    predicate IdentifyDisabled()
      reads this
    {
      image.None? || loading
    }

    /** The file input's change handler. */
    method HandleImageChange(files: Option<seq<ImageFile>>)
      modifies this
      ensures image == ChosenImage(files, old(image))
      ensures crop == old(crop) && symptom == old(symptom) && result == old(result)
      ensures loading == old(loading) && dragActive == old(dragActive) && pending == old(pending)
    {
      if files.Some? && files.value != [] {
        image := Some(files.value[0]);
      }
    }

    /** `handleDrag`, for an event of type `eventType`. */
    method HandleDrag(eventType: string)
      modifies this
      ensures dragActive == DragActiveAfter(eventType, old(dragActive))
      ensures image == old(image) && crop == old(crop) && symptom == old(symptom) && result == old(result)
      ensures loading == old(loading) && pending == old(pending)
    {
      if eventType == "dragenter" || eventType == "dragover" {
        dragActive := true;
      } else if eventType == "dragleave" {
        dragActive := false;
      }
    }

    /** `handleDrop`: the highlight goes off; a dropped file replaces the image. */
    method HandleDrop(files: Option<seq<ImageFile>>)
      modifies this
      ensures !dragActive
      ensures image == ChosenImage(files, old(image))
      ensures crop == old(crop) && symptom == old(symptom) && result == old(result)
      ensures loading == old(loading) && pending == old(pending)
    {
      dragActive := false;
      if files.Some? && files.value != [] {
        image := Some(files.value[0]);
      }
    }

    /** `handleIdentify`: start loading and the timer. */
    method HandleIdentify()
      modifies this
      ensures loading && pending == old(pending) + 1
      ensures image == old(image) && crop == old(crop) && symptom == old(symptom)
      ensures result == old(result) && dragActive == old(dragActive)
    {
      loading := true;
      pending := pending + 1;
    }

    /** The Identify button: does nothing while disabled. */
    method ClickIdentify()
      modifies this
      ensures old(IdentifyDisabled()) ==> loading == old(loading) && pending == old(pending)
      ensures !old(IdentifyDisabled()) ==> loading && pending == old(pending) + 1
      ensures image == old(image) && crop == old(crop) && symptom == old(symptom)
      ensures result == old(result) && dragActive == old(dragActive)
    {
      if !IdentifyDisabled() {
        HandleIdentify();
      }
    }

    /** A timer fires: the fixed result is set and loading ends. */
    method CompleteIdentify()
      requires pending > 0
      modifies this
      ensures result == Some(LateBlight()) && !loading && pending == old(pending) - 1
      ensures image == old(image) && crop == old(crop) && symptom == old(symptom) && dragActive == old(dragActive)
    {
      result := Some(LateBlight());
      loading := false;
      pending := pending - 1;
    }
  }

  /** The result the page shows after identification carries the alert icon. */
  lemma LateBlightAlerts()
    ensures ShowsAlert(LateBlight())
  {
  }
}
