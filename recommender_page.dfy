/**
 * The state of the doctor-recommendation page and its event handlers: the
 * symptom check boxes, the city selector, the search with its delayed
 * result, and the booking dialog.
 */
module RecommenderPage {
  import opened Common
  import opened RecommenderFixtures
  import opened Recommender

  /** Where the booking dialog stands. */
  datatype BookingPhase = Closed | Open | SlotChosen | Confirmed

  /** What the delayed search callback closes over: the symptoms and the city at submission. */
  datatype SearchRequest = SearchRequest(symptoms: seq<string>, city: string)

  class DoctorRecommendationPage {
    var symptoms: seq<string>
    var loading: bool
    var recommendations: seq<Recommendation>
    var selectedCity: string
    var showBookingModal: bool
    var selectedDoctor: Option<Recommendation>
    var selectedSlot: string
    var bookingConfirmed: bool

    /**
     * The symptom list has no duplicates, the dialog is shown exactly when a
     * doctor is selected, a chosen slot is one of that doctor's, and only a
     * chosen slot can be confirmed.
     */
    ghost predicate Valid()
      reads this
    {
      && NoDuplicates(symptoms)
      && showBookingModal == selectedDoctor.Some?
      && (selectedSlot != "" ==>
            selectedDoctor.Some? && selectedSlot in selectedDoctor.value.doctor.availableSlots)
      && (bookingConfirmed ==> selectedSlot != "")
    }

    /** The booking dialog's state, read off the four fields that hold it. */
    function Phase(): BookingPhase
      reads this
    {
      if !showBookingModal then Closed
      else if bookingConfirmed then Confirmed
      else if selectedSlot == "" then Open
      else SlotChosen
    }

    /** The page as first rendered: nothing selected, no results, dialog closed. */
    constructor ()
      ensures Valid() && Phase() == Closed
      ensures symptoms == [] && !loading && recommendations == [] && selectedCity == ""
      ensures selectedDoctor == None && selectedSlot == "" && !bookingConfirmed
    {
      symptoms := [];
      loading := false;
      recommendations := [];
      selectedCity := "";
      showBookingModal := false;
      selectedDoctor := None;
      selectedSlot := "";
      bookingConfirmed := false;
    }

    /** A symptom check box changed: select the symptom if unselected, else unselect it. */
    method ToggleSymptom(s: string)
      requires Valid()
      modifies this
      ensures Valid()
      ensures symptoms == Toggle(old(symptoms), s)
      ensures s in symptoms <==> s !in old(symptoms)
      ensures forall x | x != s :: x in symptoms <==> x in old(symptoms)
      ensures loading == old(loading) && recommendations == old(recommendations)
      ensures selectedCity == old(selectedCity)
      ensures showBookingModal == old(showBookingModal) && selectedDoctor == old(selectedDoctor)
      ensures selectedSlot == old(selectedSlot) && bookingConfirmed == old(bookingConfirmed)
    {
      ToggleKeepsNoDuplicates(symptoms, s);
      symptoms := Toggle(symptoms, s);
    }

    /** The city selector changed: take the city and drop the results shown for the old one. */
    method ChangeCity(city: string)
      requires Valid()
      modifies this
      ensures Valid()
      ensures selectedCity == city && recommendations == []
      ensures symptoms == old(symptoms) && loading == old(loading)
      ensures showBookingModal == old(showBookingModal) && selectedDoctor == old(selectedDoctor)
      ensures selectedSlot == old(selectedSlot) && bookingConfirmed == old(bookingConfirmed)
    {
      selectedCity := city;
      recommendations := [];
    }

    /**
     * The search form was submitted. With no symptom or no city nothing
     * happens; otherwise the page shows it is loading and the request the
     * delayed callback will answer is returned.
     */
    method BeginSearch() returns (pending: Option<SearchRequest>)
      requires Valid()
      modifies this
      ensures Valid()
      ensures pending.None? <==> old(symptoms) == [] || old(selectedCity) == ""
      ensures pending.Some? ==> pending.value == SearchRequest(symptoms, selectedCity) && loading
      ensures pending.None? ==> loading == old(loading)
      ensures symptoms == old(symptoms) && recommendations == old(recommendations)
      ensures selectedCity == old(selectedCity)
      ensures showBookingModal == old(showBookingModal) && selectedDoctor == old(selectedDoctor)
      ensures selectedSlot == old(selectedSlot) && bookingConfirmed == old(bookingConfirmed)
    {
      if symptoms == [] || selectedCity == "" {
        return None;
      }
      loading := true;
      pending := Some(SearchRequest(symptoms, selectedCity));
    }

    /**
     * The delayed callback of a search fires: the results replace the list
     * and loading ends. `draws` stands for the successive `Math.random()`
     * values, one per matching doctor.
     */
    method CompleteSearch(request: SearchRequest, draws: seq<real>)
      requires Valid()
      requires AreDraws(draws) && |draws| >= |CityRoster(request.city)|
      modifies this
      ensures Valid()
      ensures recommendations == Recommend(request.symptoms, request.city, draws)
      ensures !loading
      ensures symptoms == old(symptoms) && selectedCity == old(selectedCity)
      ensures showBookingModal == old(showBookingModal) && selectedDoctor == old(selectedDoctor)
      ensures selectedSlot == old(selectedSlot) && bookingConfirmed == old(bookingConfirmed)
    {
      recommendations := Recommend(request.symptoms, request.city, draws);
      loading := false;
    }

    /** "Book Appointment" on a result card: open the dialog for that doctor with no slot chosen. */
    method OpenBooking(doctor: Recommendation)
      requires Valid()
      modifies this
      ensures Valid() && Phase() == Open
      ensures selectedDoctor == Some(doctor) && selectedSlot == "" && !bookingConfirmed
      ensures showBookingModal
      ensures symptoms == old(symptoms) && loading == old(loading)
      ensures recommendations == old(recommendations) && selectedCity == old(selectedCity)
    {
      selectedDoctor := Some(doctor);
      selectedSlot := "";
      bookingConfirmed := false;
      showBookingModal := true;
    }

    /**
     * A slot button in the open, unconfirmed dialog: the buttons are those
     * of the selected doctor's available slots, and a new pick replaces the old.
     */
    method SelectSlot(slot: string)
      requires Valid()
      requires Phase() == Open || Phase() == SlotChosen
      requires slot in selectedDoctor.value.doctor.availableSlots
      modifies this
      ensures Valid()
      ensures selectedSlot == slot
      ensures Phase() == if slot == "" then Open else SlotChosen
      ensures showBookingModal == old(showBookingModal) && selectedDoctor == old(selectedDoctor)
      ensures bookingConfirmed == old(bookingConfirmed)
      ensures symptoms == old(symptoms) && loading == old(loading)
      ensures recommendations == old(recommendations) && selectedCity == old(selectedCity)
    {
      selectedSlot := slot;
    }

    /** "Confirm Booking": nothing happens without a chosen slot; with one, the booking is confirmed. */
    method ConfirmBooking()
      requires Valid()
      modifies this
      ensures Valid()
      ensures old(selectedSlot) == "" ==> bookingConfirmed == old(bookingConfirmed)
      ensures old(selectedSlot) != "" ==> bookingConfirmed
      ensures old(Phase()) == SlotChosen ==> Phase() == Confirmed
      ensures old(Phase()) != SlotChosen ==> Phase() == old(Phase())
      ensures showBookingModal == old(showBookingModal) && selectedDoctor == old(selectedDoctor)
      ensures selectedSlot == old(selectedSlot)
      ensures symptoms == old(symptoms) && loading == old(loading)
      ensures recommendations == old(recommendations) && selectedCity == old(selectedCity)
    {
      if selectedSlot == "" {
        return;
      }
      bookingConfirmed := true;
    }

    /** Closing the dialog, from any state: hide it and discard the doctor, slot and confirmation. */
    method CloseBooking()
      requires Valid()
      modifies this
      ensures Valid() && Phase() == Closed
      ensures !showBookingModal && selectedDoctor == None && selectedSlot == "" && !bookingConfirmed
      ensures symptoms == old(symptoms) && loading == old(loading)
      ensures recommendations == old(recommendations) && selectedCity == old(selectedCity)
    {
      showBookingModal := false;
      selectedDoctor := None;
      selectedSlot := "";
      bookingConfirmed := false;
    }
  }
}
