/**
 * The medical-imaging page: an imaging type is chosen, an image is uploaded,
 * and "analyze" produces, after a delay, a canned analysis that does not
 * look at the image.
 */
module MedicalImaging {
  import opened Common

  /** The imaging types offered as buttons: key to display name. */
  const ImagingTypeNames: map<string, string> := map[
    "mri" := "MRI Scan",
    "ct" := "CT Scan",
    "xray" := "X-Ray",
    "pet" := "PET Scan"]

  /** The findings every analysis reports, whatever the image. */
  const StandardFindings: seq<string> := [
    "Anatomically normal structure detected",
    "No significant abnormalities identified",
    "Tissue density within normal range",
    "Clear visualization of region of interest"]

  /** An uploaded image. The data URL the file reader produces is opaque here. */
  datatype Image = Image(token: nat)

  /**
   * How the file reader's `onloadend` ends: with the image read, or with a
   * failed or aborted read, whose result is null.
   */
  datatype ReadOutcome = Loaded(image: Image) | Failed

  datatype Analysis = Analysis(
    imagingType: string,
    findings: seq<string>,
    confidence: int,
    recommendation: string,
    processingTime: string)

  /** The confidence figure `floor(draw * 20) + 80`. */
  function AnalysisConfidence(draw: real): (confidence: int)
    requires IsDraw(draw)
    ensures 80 <= confidence <= 99
  {
    (draw * 20.0).Floor + 80
  }

  /**
   * The analysis the delayed callback records for an imaging type's display
   * name. No image is among its inputs.
   */
  function AnalysisFor(typeName: string, draw: real): (a: Analysis)
    requires IsDraw(draw)
    ensures a.imagingType == typeName
    ensures |a.findings| == 4 && a.findings == StandardFindings
    ensures 80 <= a.confidence <= 99
  {
    Analysis(
      typeName,
      StandardFindings,
      AnalysisConfidence(draw),
      "Results appear normal. Clinical correlation recommended.",
      "2.3 seconds")
  }

  /** Two analyses of the same type differ at most in their confidence figure. */
  lemma AnalysesDifferOnlyInConfidence(typeName: string, draw1: real, draw2: real)
    requires IsDraw(draw1) && IsDraw(draw2)
    ensures AnalysisFor(typeName, draw1).(confidence := 0) == AnalysisFor(typeName, draw2).(confidence := 0)
  {
  }

  class MedicalImagingPage {
    var selectedImaging: string
    var uploadedImage: Option<Image>
    var loading: bool
    var analysis: Option<Analysis>

    /** The selected type is an offered one, and a shown analysis has the canned findings and an in-range confidence. */
    ghost predicate Valid()
      reads this
    {
      && selectedImaging in ImagingTypeNames
      && (analysis.Some? ==>
            analysis.value.findings == StandardFindings && 80 <= analysis.value.confidence <= 99)
    }

    /** The page as first rendered: MRI, no image, no analysis. */
    constructor ()
      ensures Valid()
      ensures selectedImaging == "mri" && uploadedImage == None && !loading && analysis == None
    {
      selectedImaging := "mri";
      uploadedImage := None;
      loading := false;
      analysis := None;
    }

    /**
     * The file input changed. With no file nothing happens; otherwise, when
     * the reader finishes, the image it read (none, if the read failed) is
     * stored and any analysis is dropped.
     */
    method UploadImage(file: Option<ReadOutcome>)
      requires Valid()
      modifies this
      ensures Valid()
      ensures file.None? ==> uploadedImage == old(uploadedImage) && analysis == old(analysis)
      ensures file == Some(Failed) ==> uploadedImage == None && analysis == None
      ensures file.Some? && file.value.Loaded? ==>
                uploadedImage == Some(file.value.image) && analysis == None
      ensures selectedImaging == old(selectedImaging) && loading == old(loading)
    {
      if file.Some? {
        uploadedImage := if file.value.Loaded? then Some(file.value.image) else None;
        analysis := None;
      }
    }

    /**
     * "Analyze Image". With no image nothing happens; otherwise loading
     * starts, and the display name of the current type, which the delayed
     * callback closes over, is returned.
     */
    method BeginAnalysis() returns (typeName: Option<string>)
      requires Valid()
      modifies this
      ensures Valid()
      ensures typeName.None? <==> old(uploadedImage).None?
      ensures typeName.Some? ==> typeName.value == ImagingTypeNames[selectedImaging] && loading
      ensures typeName.None? ==> loading == old(loading)
      ensures selectedImaging == old(selectedImaging) && uploadedImage == old(uploadedImage)
      ensures analysis == old(analysis)
    {
      if uploadedImage.None? {
        return None;
      }
      loading := true;
      typeName := Some(ImagingTypeNames[selectedImaging]);
    }

    /** The delayed callback of an analysis fires: the analysis is shown and loading ends. */
    method CompleteAnalysis(typeName: string, draw: real)
      requires Valid() && IsDraw(draw)
      modifies this
      ensures Valid()
      ensures analysis == Some(AnalysisFor(typeName, draw)) && !loading
      ensures selectedImaging == old(selectedImaging) && uploadedImage == old(uploadedImage)
    {
      analysis := Some(AnalysisFor(typeName, draw));
      loading := false;
    }

    /** An imaging-type button: select the type and drop the analysis shown for the old one. */
    method SelectImaging(key: string)
      requires Valid() && key in ImagingTypeNames
      modifies this
      ensures Valid()
      ensures selectedImaging == key && analysis == None
      ensures uploadedImage == old(uploadedImage) && loading == old(loading)
    {
      selectedImaging := key;
      analysis := None;
    }

    /** "Remove Image": the image goes; the analysis, if any, stays. */
    method RemoveImage()
      requires Valid()
      modifies this
      ensures Valid()
      ensures uploadedImage == None
      ensures analysis == old(analysis) && selectedImaging == old(selectedImaging) && loading == old(loading)
    {
      uploadedImage := None;
    }
  }
}
