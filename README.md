# DocPredict: a verified model of its three feature pages

DocPredict is a demonstration web front-end with three independent pages,
each a view-model over static in-memory data:

- **Doctor recommendation** (`src/app/doctor-recommendation/page.tsx`). The user ticks
  symptoms and picks a city. A search maps each symptom to the specialties that
  treat it, keeps the city's doctors whose specialty is in the union of those
  specialties, gives each a random match score in [70, 94] and sorts them by
  distance, nearest first. A booking dialog then lets the user pick one of a
  doctor's slots, confirm, and close.
- **Disease prediction** (`src/app/disease-prediction/page.tsx`). The user picks a
  disease model and submits a form. The result holds a random risk and confidence
  figure, the disease's specialty and that specialty's whole fixed roster.
- **Medical imaging** (`src/app/medical-imaging/page.tsx`). The user picks an imaging
  type and uploads an image. "Analyze" yields four canned findings, which do not
  depend on the image, and a random confidence in [80, 99].

The model has six modules:

- `Common` (`common.dfy`): `Option`, duplicate-freedom, and `IsDraw`, the range of
  `Math.random()`.
- `RecommenderFixtures` (`recommender_fixtures.dfy`): the symptom map and the full
  city roster of 18 cities and 53 doctors.
- `Recommender` (`recommender.dfy`): the pure parts of the recommendation page. These
  are the symptom toggle and the filter/score/sort pipeline.
- `RecommenderPage` (`recommender_page.dfy`): the page state as a class, with the
  search and the booking dialog.
- `DiseasePrediction` (`disease_prediction.dfy`): the fixtures, the prediction, and
  the page state.
- `MedicalImaging` (`medical_imaging.dfy`): the canned analysis and the page state.

Pure computations are functions with lemmas. Each page's React state is a class
whose fields are the `useState` variables. Each handler is a method with
`modifies this` whose `ensures` gives every field's new value. A `Valid()`
invariant holds across all handlers.

The source uses `setTimeout` for fake latency. Each such handler becomes two
methods. `Begin…` applies the guard, sets `loading` and returns what the callback
closes over. `Complete…` is the callback, done as one atomic step. The values the
callback uses are the ones captured when the request was made, because a React
closure sees the state of the render that created it. Each `Math.random()` value
is a caller-supplied real in [0, 1). The source's arithmetic on it (`floor`, scale,
offset) is kept as written. Distances and ratings carry one decimal in the
fixtures, so they are stored as whole tenths (2.3 km is 23).

Three behaviours of the code are easy to misread, and the model follows the code
as written:

- The disease page's confidence (disease-prediction line 101) is
  `floor(r * 100) + 70`, so it ranges over [70, 169]; nothing caps it at 99.
  `ConfidenceScore` proves that range and `ConfidenceCanExceedNinetyNine`
  exhibits a draw that gives 120.
- "Remove Image" (medical-imaging line 135) sets only `uploadedImage` to null, so
  any analysis stays on screen (`RemoveImage`).
- One city key in the source is spelled `S√£o Paulo, Brazil` (mis-encoded
  text). The fixture keeps that spelling, since lookups compare keys exactly.

## Model

| member | source | states |
|---|---|---|
| `RecommenderFixtures.CityRoster` | src/app/doctor-recommendation/page.tsx:146 | a city missing from the table has the empty roster |
| `RecommenderFixtures.AvailableSymptomsAreMapped` | src/app/doctor-recommendation/page.tsx:17-33 | the offered symptoms are exactly the keys of the symptom map |
| `RecommenderFixtures.RostersHaveNoDuplicates` | src/app/doctor-recommendation/page.tsx:35-125 | no city roster lists the same doctor twice |
| `Recommender.Without` | src/app/doctor-recommendation/page.tsx:131 | the filter keeps exactly the symptoms other than the removed one and never grows the list |
| `Recommender.ToggleFlipsOnlyTheToggled` | src/app/doctor-recommendation/page.tsx:129-133 | after a toggle the symptom is selected iff it was not; every other symptom keeps its state |
| `Recommender.ToggleKeepsNoDuplicates` | src/app/doctor-recommendation/page.tsx:129-133 | toggling keeps a duplicate-free symptom list duplicate-free |
| `Recommender.ToggleTwiceRestores` | src/app/doctor-recommendation/page.tsx:129-133 | toggling an unselected symptom twice gives back the original list |
| `Recommender.ToggleSelectedShortens` | src/app/doctor-recommendation/page.tsx:131 | unselecting a selected symptom of a duplicate-free list removes exactly one entry |
| `Recommender.MappedSpecialties` | src/app/doctor-recommendation/page.tsx:147 | a symptom's specialties are those the map lists; an unknown symptom has none (the empty-list fallback) |
| `Recommender.CandidateSpecialtiesAreUnion` | src/app/doctor-recommendation/page.tsx:147 | a specialty is a candidate iff some selected symptom maps to it (union, not intersection) |
| `Recommender.CandidateSpecialtiesConcat` | src/app/doctor-recommendation/page.tsx:147 | the flattened specialties of two symptom lists joined are the two flattened lists joined |
| `Recommender.UnknownSymptomContributesNothing` | src/app/doctor-recommendation/page.tsx:147 | inserting a symptom the map lacks anywhere leaves the candidate specialties unchanged |
| `Recommender.FilterBySpecialty` | src/app/doctor-recommendation/page.tsx:148-149 | every kept doctor is on the roster and has a candidate specialty |
| `Recommender.FilterBySpecialtyCount` | src/app/doctor-recommendation/page.tsx:148-149 | the filter keeps each matching doctor as often as the roster has it and drops every other |
| `Recommender.MatchScore` | src/app/doctor-recommendation/page.tsx:150 | `70 + floor(r * 25)` lies in [70, 94] for every draw in [0, 1) |
| `Recommender.AttachScores` | src/app/doctor-recommendation/page.tsx:150 | the scored list carries the input doctors unchanged and in order, each with a score in [70, 94] |
| `Recommender.Insert` | src/app/doctor-recommendation/page.tsx:151 | inserting adds exactly the one entry |
| `Recommender.InsertKeepsSorted` | src/app/doctor-recommendation/page.tsx:151 | inserting into a distance-sorted list keeps it sorted |
| `Recommender.InsertDoctors` | src/app/doctor-recommendation/page.tsx:151 | inserting adds exactly the entry's doctor to the carried doctors |
| `Recommender.SortByDistance` | src/app/doctor-recommendation/page.tsx:151 | the sort's output is non-decreasing by distance and a permutation of its input |
| `Recommender.SortByDistanceDoctors` | src/app/doctor-recommendation/page.tsx:151 | the sort permutes the carried doctor records |
| `Recommender.Recommend` | src/app/doctor-recommendation/page.tsx:146-151 | results are sorted by distance; each is a roster doctor of the city with a candidate specialty and a score in [70, 94]; an unknown city gives no result |
| `Recommender.RecommendCount` | src/app/doctor-recommendation/page.tsx:146-151 | each doctor occurs in the results as often as in the city roster if its specialty is a candidate, otherwise never |
| `Recommender.RecommendedExactlyOnce` | src/app/doctor-recommendation/page.tsx:146-151 | a doctor is recommended iff it is on the city roster and a selected symptom maps to its specialty, and then exactly once |
| `Recommender.TorontoChestPain` | src/app/doctor-recommendation/page.tsx:51-55 | chest pain in Toronto yields exactly Dr. Carlos Hernandez, with a score in [70, 94] |
| `RecommenderPage.DoctorRecommendationPage.constructor` | src/app/doctor-recommendation/page.tsx:7-14 | initial state: no symptoms, no city, no results, not loading, dialog closed and empty |
| `RecommenderPage.DoctorRecommendationPage.ToggleSymptom` | src/app/doctor-recommendation/page.tsx:129-133 | the symptom list becomes its toggle; the list stays duplicate-free; nothing else changes |
| `RecommenderPage.DoctorRecommendationPage.ChangeCity` | src/app/doctor-recommendation/page.tsx:135-138 | the city is set and the results are emptied; nothing else changes |
| `RecommenderPage.DoctorRecommendationPage.BeginSearch` | src/app/doctor-recommendation/page.tsx:140-144 | with no symptom or no city the state is unchanged; otherwise loading is set and the current symptoms and city are captured |
| `RecommenderPage.DoctorRecommendationPage.CompleteSearch` | src/app/doctor-recommendation/page.tsx:145-154 | the results become the recommendation for the captured request and loading is cleared; nothing else changes |
| `RecommenderPage.DoctorRecommendationPage.OpenBooking` | src/app/doctor-recommendation/page.tsx:157-162 | the doctor is selected, slot and confirmation are cleared, the dialog is shown (phase Open) |
| `RecommenderPage.DoctorRecommendationPage.SelectSlot` | src/app/doctor-recommendation/page.tsx:391-394 | in the open, unconfirmed dialog, picking one of the doctor's slots replaces the chosen slot (phase SlotChosen) |
| `RecommenderPage.DoctorRecommendationPage.ConfirmBooking` | src/app/doctor-recommendation/page.tsx:164-167 | with no slot chosen nothing changes; with one, the booking is confirmed (SlotChosen to Confirmed) |
| `RecommenderPage.DoctorRecommendationPage.CloseBooking` | src/app/doctor-recommendation/page.tsx:169-174 | from any state the dialog is hidden and doctor, slot and confirmation are reset (phase Closed) |
| `DiseasePrediction.SpecialtyMapCoverage` | src/app/disease-prediction/page.tsx:11-17 | every offered disease has a specialty, and every mapped specialty is a key of the roster table |
| `DiseasePrediction.RostersMatchTheirSpecialty` | src/app/disease-prediction/page.tsx:20-41 | every specialist is filed under its own specialty |
| `DiseasePrediction.RiskScore` | src/app/disease-prediction/page.tsx:100 | `floor(r * 100)` lies in [0, 99] |
| `DiseasePrediction.ConfidenceScore` | src/app/disease-prediction/page.tsx:101 | `floor(r * 100) + 70` lies in [70, 169] |
| `DiseasePrediction.ConfidenceCanExceedNinetyNine` | src/app/disease-prediction/page.tsx:101 | some draw gives a confidence above 99 |
| `DiseasePrediction.Predict` | src/app/disease-prediction/page.tsx:95-105 | a known disease gets its mapped specialty and exactly that specialty's roster; an unknown one gets no specialty and no doctors; every doctor has the result's specialty; risk and confidence in range; the recommendation text names the specialty |
| `DiseasePrediction.EveryDiseaseHasSpecialists` | src/app/disease-prediction/page.tsx:96-97 | every offered disease yields a specialty and a roster of three |
| `DiseasePrediction.DiseasePredictionPage.constructor` | src/app/disease-prediction/page.tsx:7-9 | initial state: the cancer model, not loading, no result |
| `DiseasePrediction.DiseasePredictionPage.SelectDisease` | src/app/disease-prediction/page.tsx:131-134 | the disease is set and the result is cleared |
| `DiseasePrediction.DiseasePredictionPage.BeginPrediction` | src/app/disease-prediction/page.tsx:90-92 | loading is set and the selected disease is captured; nothing else changes |
| `DiseasePrediction.DiseasePredictionPage.CompletePrediction` | src/app/disease-prediction/page.tsx:95-107 | the result becomes the prediction for the captured disease and loading is cleared |
| `MedicalImaging.AnalysisConfidence` | src/app/medical-imaging/page.tsx:67 | `floor(r * 20) + 80` lies in [80, 99] |
| `MedicalImaging.AnalysisFor` | src/app/medical-imaging/page.tsx:59-70 | the analysis names the given imaging type and has exactly the four fixed findings and a confidence in [80, 99] |
| `MedicalImaging.AnalysesDifferOnlyInConfidence` | src/app/medical-imaging/page.tsx:59-70 | two analyses for one type agree on everything but the confidence |
| `MedicalImaging.MedicalImagingPage.constructor` | src/app/medical-imaging/page.tsx:7-10 | initial state: MRI, no image, not loading, no analysis |
| `MedicalImaging.MedicalImagingPage.UploadImage` | src/app/medical-imaging/page.tsx:41-51 | with no file nothing changes; a completed read stores the image, a failed or aborted one stores null, and either clears the analysis |
| `MedicalImaging.MedicalImagingPage.BeginAnalysis` | src/app/medical-imaging/page.tsx:53-56 | with no image nothing changes; otherwise loading is set and the current type's name is captured |
| `MedicalImaging.MedicalImagingPage.CompleteAnalysis` | src/app/medical-imaging/page.tsx:58-72 | the analysis becomes the canned one for the captured type name and loading is cleared |
| `MedicalImaging.MedicalImagingPage.SelectImaging` | src/app/medical-imaging/page.tsx:96-99 | the imaging type is set and the analysis is cleared |
| `MedicalImaging.MedicalImagingPage.RemoveImage` | src/app/medical-imaging/page.tsx:135 | the image is set to null and the analysis is left as it was |

## Left out

- Rendering, styling, `Link` navigation and the home page `src/app/page.tsx`: presentation only. This includes the sorted city list of the selector (`cities`, doctor-recommendation line 127).
- The `setTimeout` delays: each callback is one atomic `Complete…` step. The model does not constrain how user events interleave with a pending callback, and it does not model a callback landing after the page is gone.
- `Math.random()`: each value is a caller-supplied real in [0, 1).
- `Recommender.Recommend`: the caller supplies at least one draw per doctor on the city roster, and one draw is used per matching doctor, in roster order. The source draws exactly one value per matching doctor.
- `Recommender.SortByDistance`: this is a stable insertion sort, as `Array.prototype.sort` is stable, but stability is not proved. Only sortedness and permutation are proved.
- Floating-point `distance` and `rating`: they are whole tenths, which is exact for the one-decimal fixture values.
- `FileReader` and data-URL decoding: the uploaded image is an opaque token, and reading a file is one atomic step whose outcome (the image, or a failed read) the caller supplies. The file input only exists while no image is held (medical-imaging lines 127-141). `UploadImage` does not require that.
- `window.print` (doctor-recommendation line 487): it has no state effect.
- Doctor phone, e-mail, address, location text, and the city-roster hospital name. None of them take part in any rule.
- The disease and imaging catalogues: model names, algorithms, descriptions and input-field lists. Only the disease keys and the imaging display names are kept.
- The prediction form's field values. They are never read, so `Predict` takes only the disease key and two draws.
- The `disabled` state of the submit buttons while `loading`. The handlers themselves do not check `loading`, and neither does the model.
