/**
 * The disease-prediction page: a disease model is chosen, the form is
 * submitted, and after a delay a result appears with a risk and a confidence
 * figure and the specialists for the disease's specialty.
 */
module DiseasePrediction {
  import opened Common

  /**
   * One entry of a specialty roster. `rating` is the source's one-decimal
   * figure scaled by ten; phone and e-mail are not modelled.
   */
  datatype Specialist = Specialist(
    name: string,
    specialty: string,
    rating: nat,
    reviews: nat,
    experience: string,
    hospital: string,
    availableSlots: seq<string>)

  /** The keys of the disease models offered as buttons, in display order. */
  const DiseaseKeys: seq<string> := ["cancer", "heart", "alzheimer", "chronic"]

  /** Disease key to the specialty that treats it. */
  const DiseaseSpecialtyMap: map<string, string> := map[
    "cancer" := "Oncologist",
    "heart" := "Cardiologist",
    "alzheimer" := "Neurologist",
    "chronic" := "General Practitioner"]

  /** Specialty to its fixed roster of specialists. */
  const DoctorsBySpecialty: map<string, seq<Specialist>> := map[
    "Oncologist" := [
      Specialist("Dr. Sarah Johnson", "Oncologist", 49, 456, "18 years", "Cancer Care Center", ["10:00 AM", "2:00 PM", "4:30 PM"]),
      Specialist("Dr. Emma Rodriguez", "Oncologist", 48, 389, "15 years", "Memorial Medical Center", ["9:00 AM", "11:30 AM", "3:00 PM"]),
      Specialist("Dr. Michael Zhang", "Oncologist", 47, 312, "12 years", "St. Luke's Hospital", ["1:00 PM", "3:30 PM", "5:00 PM"])
    ],
    "Cardiologist" := [
      Specialist("Dr. Robert Anderson", "Cardiologist", 49, 523, "19 years", "Heart Health Institute", ["9:30 AM", "1:00 PM", "4:00 PM"]),
      Specialist("Dr. Sarah Johnson", "Cardiologist", 48, 467, "16 years", "Cardiovascular Center", ["10:00 AM", "2:00 PM", "4:30 PM"]),
      Specialist("Dr. James Wilson", "Cardiologist", 47, 401, "13 years", "Downtown Medical Center", ["11:00 AM", "3:00 PM", "5:30 PM"])
    ],
    "Neurologist" := [
      Specialist("Dr. Michael Chen", "Neurologist", 49, 478, "17 years", "Neurology Excellence", ["9:00 AM", "1:30 PM", "4:00 PM"]),
      Specialist("Dr. Patricia Brown", "Neurologist", 48, 423, "14 years", "Brain & Spine Institute", ["10:30 AM", "2:30 PM", "5:00 PM"]),
      Specialist("Dr. David Kumar", "Neurologist", 47, 356, "11 years", "Central Neuro Clinic", ["8:30 AM", "12:00 PM", "3:30 PM"])
    ],
    "General Practitioner" := [
      Specialist("Dr. Emily Green", "General Practitioner", 49, 612, "14 years", "Primary Care Clinic", ["9:00 AM", "11:00 AM", "2:00 PM", "4:00 PM"]),
      Specialist("Dr. John Smith", "General Practitioner", 48, 534, "12 years", "Community Health Center", ["10:00 AM", "1:00 PM", "3:30 PM", "5:00 PM"]),
      Specialist("Dr. Lisa Anderson", "General Practitioner", 47, 489, "10 years", "City Medical Associates", ["9:30 AM", "12:30 PM", "2:30 PM", "4:30 PM"])
    ]
  ]

  /** Every disease offered has a specialty, and every such specialty has a roster. */
  lemma SpecialtyMapCoverage()
    ensures forall k | k in DiseaseKeys :: k in DiseaseSpecialtyMap
    ensures forall k | k in DiseaseSpecialtyMap :: DiseaseSpecialtyMap[k] in DoctorsBySpecialty
  {
  }

  /** Every specialist is filed under its own specialty. */
  lemma RostersMatchTheirSpecialty()
    ensures forall sp, d | sp in DoctorsBySpecialty && d in DoctorsBySpecialty[sp] :: d.specialty == sp
  {
  }

  /** A prediction as the page shows it. `specialty` is `None` where the source has `undefined`. */
  datatype PredictionResult = PredictionResult(
    risk: int,
    confidence: int,
    recommendation: string,
    specialty: Option<string>,
    recommendedDoctors: seq<Specialist>)

  /** The specialty of a disease key; a key the map lacks has none. */
  function SpecialtyOf(disease: string): (r: Option<string>) {
    if disease in DiseaseSpecialtyMap then Some(DiseaseSpecialtyMap[disease]) else None
  }

  /** The roster of a specialty, or the empty roster when there is none. */
  function RosterOf(specialty: Option<string>): (r: seq<Specialist>) {
    if specialty.Some? && specialty.value in DoctorsBySpecialty then DoctorsBySpecialty[specialty.value] else []
  }

  /** How a template literal renders the specialty: a missing one prints as "undefined". */
  function SpecialtyText(specialty: Option<string>): (r: string) {
    if specialty.Some? then specialty.value else "undefined"
  }

  /** The risk figure `floor(draw * 100)`. */
  function RiskScore(draw: real): (risk: int)
    requires IsDraw(draw)
    ensures 0 <= risk <= 99
  {
    (draw * 100.0).Floor
  }

  /** The confidence figure `floor(draw * 100) + 70`; nothing caps it at 99. */
  function ConfidenceScore(draw: real): (confidence: int)
    requires IsDraw(draw)
    ensures 70 <= confidence <= 169
  {
    (draw * 100.0).Floor + 70
  }

  /** The confidence figure can exceed 99 percent. */
  lemma ConfidenceCanExceedNinetyNine()
    ensures exists draw | IsDraw(draw) :: ConfidenceScore(draw) > 99
  {
    assert ConfidenceScore(0.5) == 120;
  }

  /**
   * The delayed callback of a prediction. It reads only the disease key and
   * two `Math.random()` values; the form's field values play no part.
   */
  function Predict(disease: string, riskDraw: real, confidenceDraw: real): (r: PredictionResult)
    requires IsDraw(riskDraw) && IsDraw(confidenceDraw)
    ensures disease in DiseaseSpecialtyMap ==>
      && r.specialty == Some(DiseaseSpecialtyMap[disease])
      && DiseaseSpecialtyMap[disease] in DoctorsBySpecialty
      && r.recommendedDoctors == DoctorsBySpecialty[DiseaseSpecialtyMap[disease]]
    ensures disease !in DiseaseSpecialtyMap ==> r.specialty == None && r.recommendedDoctors == []
    ensures forall d | d in r.recommendedDoctors :: r.specialty == Some(d.specialty)
    ensures 0 <= r.risk <= 99 && 70 <= r.confidence <= 169
    ensures r.recommendation
      == "Please consult with a " + SpecialtyText(r.specialty) + " for diagnosis and treatment"
  {
    SpecialtyMapCoverage();
    RostersMatchTheirSpecialty();
    var specialty := SpecialtyOf(disease);
    PredictionResult(
      RiskScore(riskDraw),
      ConfidenceScore(confidenceDraw),
      "Please consult with a " + SpecialtyText(specialty) + " for diagnosis and treatment",
      specialty,
      RosterOf(specialty))
  }

  /** Every offered disease yields its specialty's full roster of three specialists. */
  lemma EveryDiseaseHasSpecialists(disease: string, riskDraw: real, confidenceDraw: real)
    requires disease in DiseaseKeys && IsDraw(riskDraw) && IsDraw(confidenceDraw)
    ensures var r := Predict(disease, riskDraw, confidenceDraw);
      r.specialty.Some? && |r.recommendedDoctors| == 3
  {
    SpecialtyMapCoverage();
  }

  /** Results stay within the ranges the arithmetic allows. */
  ghost predicate InRange(result: PredictionResult) {
    0 <= result.risk <= 99 && 70 <= result.confidence <= 169
  }

  class DiseasePredictionPage {
    var selectedDisease: string
    var loading: bool
    var result: Option<PredictionResult>

    /** The selected key is one of the offered diseases, and a shown result is in range. */
    ghost predicate Valid()
      reads this
    {
      selectedDisease in DiseaseKeys && (result.Some? ==> InRange(result.value))
    }

    /** The page as first rendered: the cancer model, no result. */
    constructor ()
      ensures Valid()
      ensures selectedDisease == "cancer" && !loading && result == None
    {
      selectedDisease := "cancer";
      loading := false;
      result := None;
    }

    /** A disease button: select that model and drop the result shown for the old one. */
    method SelectDisease(key: string)
      requires Valid() && key in DiseaseKeys
      modifies this
      ensures Valid()
      ensures selectedDisease == key && result == None && loading == old(loading)
    {
      selectedDisease := key;
      result := None;
    }

    /** The form was submitted: loading starts; the delayed callback will answer for the disease returned. */
    method BeginPrediction() returns (disease: string)
      requires Valid()
      modifies this
      ensures Valid()
      ensures disease == selectedDisease && loading
      ensures selectedDisease == old(selectedDisease) && result == old(result)
    {
      loading := true;
      disease := selectedDisease;
    }

    /** The delayed callback of a prediction fires: the result is shown and loading ends. */
    method CompletePrediction(disease: string, riskDraw: real, confidenceDraw: real)
      requires Valid() && IsDraw(riskDraw) && IsDraw(confidenceDraw)
      modifies this
      ensures Valid()
      ensures result == Some(Predict(disease, riskDraw, confidenceDraw)) && !loading
      ensures selectedDisease == old(selectedDisease)
    {
      result := Some(Predict(disease, riskDraw, confidenceDraw));
      loading := false;
    }
  }
}
