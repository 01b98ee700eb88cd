/**
 * The pure part of the doctor-recommendation page: the symptom toggle and
 * the search pipeline (symptoms to specialties, filter the city roster,
 * attach a match score, sort by distance).
 */
module Recommender {
  import opened Common
  import opened RecommenderFixtures

  // ---------------------------------------------------------------------
  // Symptom selection
  // ---------------------------------------------------------------------

  /** `symptoms` with every occurrence of `s` dropped, order kept. */
  function Without(symptoms: seq<string>, s: string): (r: seq<string>)
    ensures forall x :: x in r <==> x in symptoms && x != s
    ensures |r| <= |symptoms|
  {
    if symptoms == [] then []
    else if symptoms[0] == s then Without(symptoms[1..], s)
    else [symptoms[0]] + Without(symptoms[1..], s)
  }

  /** The updater of the symptom list: drop `s` if present, else append it. */
  function Toggle(symptoms: seq<string>, s: string): (r: seq<string>)
  {
    if s in symptoms then Without(symptoms, s) else symptoms + [s]
  }

  /** After a toggle, `s` is selected exactly when it was not, and no other symptom changes. */
  lemma ToggleFlipsOnlyTheToggled(symptoms: seq<string>, s: string, x: string)
    ensures x == s ==> (x in Toggle(symptoms, s) <==> x !in symptoms)
    ensures x != s ==> (x in Toggle(symptoms, s) <==> x in symptoms)
  {
  }

  /** Dropping a value from a duplicate-free list keeps it duplicate-free. */
  lemma {:induction false} WithoutKeepsNoDuplicates(symptoms: seq<string>, s: string)
    requires NoDuplicates(symptoms)
    ensures NoDuplicates(Without(symptoms, s))
  {
    if symptoms != [] {
      var tail := symptoms[1..];
      assert NoDuplicates(tail) by {
        forall i, j | 0 <= i < j < |tail| ensures tail[i] != tail[j] {
          assert tail[i] == symptoms[i + 1] && tail[j] == symptoms[j + 1];
        }
      }
      WithoutKeepsNoDuplicates(tail, s);
      if symptoms[0] != s {
        assert symptoms[0] !in tail by {
          forall k | 0 <= k < |tail| ensures tail[k] != symptoms[0] {
            assert tail[k] == symptoms[k + 1];
          }
        }
        var r := [symptoms[0]] + Without(tail, s);
        forall i, j | 0 <= i < j < |r| ensures r[i] != r[j] {
          if i == 0 {
            assert r[j] in Without(tail, s);
          } else {
            assert r[i] == Without(tail, s)[i - 1] && r[j] == Without(tail, s)[j - 1];
          }
        }
      }
    }
  }

  /** Toggling keeps the selected-symptom list free of duplicates. */
  lemma ToggleKeepsNoDuplicates(symptoms: seq<string>, s: string)
    requires NoDuplicates(symptoms)
    ensures NoDuplicates(Toggle(symptoms, s))
  {
    if s in symptoms {
      WithoutKeepsNoDuplicates(symptoms, s);
    } else {
      var r := symptoms + [s];
      forall i, j | 0 <= i < j < |r| ensures r[i] != r[j] {
        if j == |symptoms| {
          assert r[i] == symptoms[i];
        } else {
          assert r[i] == symptoms[i] && r[j] == symptoms[j];
        }
      }
    }
  }

  /** Removing a value that is absent changes nothing. */
  lemma {:induction false} WithoutAbsent(symptoms: seq<string>, s: string)
    requires s !in symptoms
    ensures Without(symptoms, s) == symptoms
  {
    if symptoms != [] {
      WithoutAbsent(symptoms[1..], s);
    }
  }

  /** Removing from a list with one appended copy of `s` drops that copy. */
  lemma {:induction false} WithoutAppended(symptoms: seq<string>, s: string)
    ensures Without(symptoms + [s], s) == Without(symptoms, s)
  {
    if symptoms == [] {
      assert [s][1..] == [];
    } else {
      assert (symptoms + [s])[1..] == symptoms[1..] + [s];
      WithoutAppended(symptoms[1..], s);
    }
  }

  /** Toggling an unselected symptom twice restores the original list. */
  lemma ToggleTwiceRestores(symptoms: seq<string>, s: string)
    requires s !in symptoms
    ensures Toggle(Toggle(symptoms, s), s) == symptoms
  {
    WithoutAppended(symptoms, s);
    WithoutAbsent(symptoms, s);
  }

  /** Toggling a selected symptom of a duplicate-free list shortens it by one. */
  lemma {:induction false} ToggleSelectedShortens(symptoms: seq<string>, s: string)
    requires NoDuplicates(symptoms) && s in symptoms
    ensures |Toggle(symptoms, s)| == |symptoms| - 1
  {
    var i :| 0 <= i < |symptoms| && symptoms[i] == s;
    assert symptoms == symptoms[..i] + ([s] + symptoms[i + 1..]);
    WithoutConcat(symptoms[..i], [s] + symptoms[i + 1..], s);
    WithoutConcat([s], symptoms[i + 1..], s);
    assert Without([s], s) == [] by {
      assert [s][1..] == [];
    }
    assert s !in symptoms[..i] && s !in symptoms[i + 1..] by {
      forall k | 0 <= k < |symptoms| && k != i ensures symptoms[k] != s { }
    }
    WithoutAbsent(symptoms[..i], s);
    WithoutAbsent(symptoms[i + 1..], s);
    assert Toggle(symptoms, s) == symptoms[..i] + symptoms[i + 1..];
  }

  lemma {:induction false} WithoutConcat(a: seq<string>, b: seq<string>, s: string)
    ensures Without(a + b, s) == Without(a, s) + Without(b, s)
  {
    if a != [] {
      assert (a + b)[1..] == a[1..] + b;
      WithoutConcat(a[1..], b, s);
    } else {
      assert a + b == b;
    }
  }

  // ---------------------------------------------------------------------
  // Symptoms to specialties
  // ---------------------------------------------------------------------

  /** `specialty` is one the symptom map lists for `symptom`. */
  predicate Treats(symptom: string, specialty: string) {
    symptom in SymptomSpecialtyMap && specialty in SymptomSpecialtyMap[symptom]
  }

  /** The specialties of one symptom, empty for a symptom the map lacks. */
  function MappedSpecialties(symptom: string): (r: seq<string>)
    ensures forall sp :: sp in r <==> Treats(symptom, sp)
  {
    if symptom in SymptomSpecialtyMap then SymptomSpecialtyMap[symptom] else []
  }

  /** The flattened concatenation of the specialties of every selected symptom. */
  function CandidateSpecialties(symptoms: seq<string>): (r: seq<string>)
  {
    if symptoms == [] then [] else MappedSpecialties(symptoms[0]) + CandidateSpecialties(symptoms[1..])
  }

  /** The candidates are the union of the selected symptoms' specialty sets. */
  lemma {:induction false} CandidateSpecialtiesAreUnion(symptoms: seq<string>, sp: string)
    ensures sp in CandidateSpecialties(symptoms) <==> exists s :: s in symptoms && Treats(s, sp)
  {
    if symptoms != [] {
      CandidateSpecialtiesAreUnion(symptoms[1..], sp);
      if sp in CandidateSpecialties(symptoms[1..]) {
        var s :| s in symptoms[1..] && Treats(s, sp);
        assert s in symptoms;
      }
      if exists s :: s in symptoms && Treats(s, sp) {
        var s :| s in symptoms && Treats(s, sp);
        if s != symptoms[0] {
          assert s in symptoms[1..];
        }
      }
    }
  }

  /** The candidate list of a concatenation is the concatenation of the candidate lists. */
  lemma {:induction false} CandidateSpecialtiesConcat(a: seq<string>, b: seq<string>)
    ensures CandidateSpecialties(a + b) == CandidateSpecialties(a) + CandidateSpecialties(b)
  {
    if a == [] {
      assert a + b == b;
    } else {
      assert (a + b)[1..] == a[1..] + b;
      CandidateSpecialtiesConcat(a[1..], b);
    }
  }

  /** A symptom the map does not know contributes no specialty, wherever it is selected. */
  lemma UnknownSymptomContributesNothing(before: seq<string>, s: string, after: seq<string>)
    requires s !in SymptomSpecialtyMap
    ensures CandidateSpecialties(before + [s] + after) == CandidateSpecialties(before + after)
  {
    CandidateSpecialtiesConcat(before + [s], after);
    CandidateSpecialtiesConcat(before, [s]);
    CandidateSpecialtiesConcat(before, after);
    assert CandidateSpecialties([s]) == [] by {
      assert [s][1..] == [];
    }
  }

  // ---------------------------------------------------------------------
  // Filter, score and sort
  // ---------------------------------------------------------------------

  /** The doctors of `roster` whose specialty is among `specialties`, in roster order. */
  function FilterBySpecialty(roster: seq<Doctor>, specialties: seq<string>): (r: seq<Doctor>)
    ensures |r| <= |roster|
    ensures forall d :: d in r ==> d in roster && d.specialty in specialties
  {
    if roster == [] then []
    else if roster[0].specialty in specialties then [roster[0]] + FilterBySpecialty(roster[1..], specialties)
    else FilterBySpecialty(roster[1..], specialties)
  }

  /** The filter keeps every matching doctor as often as the roster lists it, and no other. */
  lemma {:induction false} FilterBySpecialtyCount(roster: seq<Doctor>, specialties: seq<string>, d: Doctor)
    ensures multiset(FilterBySpecialty(roster, specialties))[d]
         == if d.specialty in specialties then multiset(roster)[d] else 0
  {
    if roster != [] {
      assert roster == [roster[0]] + roster[1..];
      FilterBySpecialtyCount(roster[1..], specialties, d);
    }
  }

  /** A run of successive `Math.random()` values. */
  predicate AreDraws(draws: seq<real>) {
    forall i | 0 <= i < |draws| :: IsDraw(draws[i])
  }

  /** The match score `70 + floor(draw * 25)`. */
  function MatchScore(draw: real): (score: int)
    requires IsDraw(draw)
    ensures 70 <= score <= 94
  {
    70 + (draw * 25.0).Floor
  }

  /** A roster entry with its match score attached (the source's `{ ...doc, matchScore }`). */
  datatype Recommendation = Recommendation(doctor: Doctor, matchScore: int)

  /** The doctor records carried by a list of recommendations. */
  function Doctors(recs: seq<Recommendation>): (ds: seq<Doctor>)
    ensures |ds| == |recs|
    ensures forall i | 0 <= i < |recs| :: ds[i] == recs[i].doctor
  {
    if recs == [] then [] else [recs[0].doctor] + Doctors(recs[1..])
  }

  /** Attach to the i-th doctor the score of the i-th draw. */
  function AttachScores(docs: seq<Doctor>, draws: seq<real>): (r: seq<Recommendation>)
    requires AreDraws(draws) && |draws| >= |docs|
    ensures Doctors(r) == docs
    ensures forall x | x in r :: 70 <= x.matchScore <= 94
  {
    if docs == [] then []
    else [Recommendation(docs[0], MatchScore(draws[0]))] + AttachScores(docs[1..], draws[1..])
  }

  /** Non-decreasing by distance. */
  predicate SortedByDistance(recs: seq<Recommendation>) {
    forall i, j | 0 <= i < j < |recs| :: recs[i].doctor.distance <= recs[j].doctor.distance
  }

  /** Insert `x` before the first entry that is not nearer than it. */
  function Insert(x: Recommendation, recs: seq<Recommendation>): (r: seq<Recommendation>)
    ensures multiset(r) == multiset{x} + multiset(recs)
  {
    if recs == [] || x.doctor.distance <= recs[0].doctor.distance then
      [x] + recs
    else
      assert recs == [recs[0]] + recs[1..];
      [recs[0]] + Insert(x, recs[1..])
  }

  /** Inserting into a sorted list keeps it sorted. */
  lemma {:induction false} InsertKeepsSorted(x: Recommendation, recs: seq<Recommendation>)
    requires SortedByDistance(recs)
    ensures SortedByDistance(Insert(x, recs))
  {
    var r := Insert(x, recs);
    if recs == [] || x.doctor.distance <= recs[0].doctor.distance {
      forall i, j | 0 <= i < j < |r| ensures r[i].doctor.distance <= r[j].doctor.distance {
        assert r[j] == recs[j - 1];
        if i > 0 {
          assert r[i] == recs[i - 1];
        }
      }
    } else {
      var tail := recs[1..];
      assert SortedByDistance(tail) by {
        forall i, j | 0 <= i < j < |tail| ensures tail[i].doctor.distance <= tail[j].doctor.distance {
          assert tail[i] == recs[i + 1] && tail[j] == recs[j + 1];
        }
      }
      InsertKeepsSorted(x, tail);
      var rest := Insert(x, tail);
      forall i, j | 0 <= i < j < |r| ensures r[i].doctor.distance <= r[j].doctor.distance {
        assert r[j] == rest[j - 1];
        if i == 0 {
          assert r[j] in multiset(rest);
          if r[j] != x {
            var k :| 0 <= k < |tail| && tail[k] == r[j];
            assert tail[k] == recs[k + 1];
          }
        } else {
          assert r[i] == rest[i - 1];
        }
      }
    }
  }

  /** Inserting an entry adds exactly its doctor record to the carried doctors. */
  lemma {:induction false} InsertDoctors(x: Recommendation, recs: seq<Recommendation>)
    ensures multiset(Doctors(Insert(x, recs))) == multiset{x.doctor} + multiset(Doctors(recs))
  {
    if recs == [] || x.doctor.distance <= recs[0].doctor.distance {
      assert Doctors([x] + recs) == [x.doctor] + Doctors(recs);
    } else {
      var rest := Insert(x, recs[1..]);
      InsertDoctors(x, recs[1..]);
      assert Doctors([recs[0]] + rest) == [recs[0].doctor] + Doctors(rest);
      assert Doctors(recs) == [recs[0].doctor] + Doctors(recs[1..]);
    }
  }

  /** Stable sort by distance (insertion sort); the result is sorted and a permutation of the input. */
  function SortByDistance(recs: seq<Recommendation>): (r: seq<Recommendation>)
    ensures SortedByDistance(r)
    ensures multiset(r) == multiset(recs)
  {
    if recs == [] then []
    else
      assert recs == [recs[0]] + recs[1..];
      InsertKeepsSorted(recs[0], SortByDistance(recs[1..]));
      Insert(recs[0], SortByDistance(recs[1..]))
  }

  /** Sorting permutes the carried doctor records too. */
  lemma {:induction false} SortByDistanceDoctors(recs: seq<Recommendation>)
    ensures multiset(Doctors(SortByDistance(recs))) == multiset(Doctors(recs))
  {
    if recs != [] {
      SortByDistanceDoctors(recs[1..]);
      InsertDoctors(recs[0], SortByDistance(recs[1..]));
      assert Doctors(recs) == [recs[0].doctor] + Doctors(recs[1..]);
    }
  }

  /** The callback of a search: the recommendations for `symptoms` in `city`. */
  function Recommend(symptoms: seq<string>, city: string, draws: seq<real>): (r: seq<Recommendation>)
    requires AreDraws(draws) && |draws| >= |CityRoster(city)|
    ensures SortedByDistance(r)
    ensures forall x | x in r ::
      (x.doctor in CityRoster(city)
       && x.doctor.specialty in CandidateSpecialties(symptoms)
       && 70 <= x.matchScore <= 94)
    ensures city !in DoctorsByCity ==> r == []
  {
    var filtered := FilterBySpecialty(CityRoster(city), CandidateSpecialties(symptoms));
    var scored := AttachScores(filtered, draws);
    var r := SortByDistance(scored);
    assert forall x | x in r :: x in scored by {
      forall x | x in r ensures x in scored {
        assert x in multiset(r);
      }
    }
    assert forall x | x in scored :: x.doctor in filtered by {
      forall x | x in scored ensures x.doctor in filtered {
        var i :| 0 <= i < |scored| && scored[i] == x;
        assert Doctors(scored)[i] == x.doctor;
      }
    }
    assert r != [] ==> r[0] in r;
    r
  }

  /** Each doctor is recommended as often as the roster lists it if its specialty is a candidate, else never. */
  lemma RecommendCount(symptoms: seq<string>, city: string, draws: seq<real>, d: Doctor)
    requires AreDraws(draws) && |draws| >= |CityRoster(city)|
    ensures multiset(Doctors(Recommend(symptoms, city, draws)))[d]
         == if d.specialty in CandidateSpecialties(symptoms) then multiset(CityRoster(city))[d] else 0
  {
    var specialties := CandidateSpecialties(symptoms);
    var filtered := FilterBySpecialty(CityRoster(city), specialties);
    SortByDistanceDoctors(AttachScores(filtered, draws));
    FilterBySpecialtyCount(CityRoster(city), specialties, d);
  }

  /**
   * Soundness and completeness: a doctor is recommended exactly when it is
   * on the city's roster and some selected symptom calls for its specialty,
   * and then it is recommended exactly once.
   */
  lemma RecommendedExactlyOnce(symptoms: seq<string>, city: string, draws: seq<real>, d: Doctor)
    requires AreDraws(draws) && |draws| >= |CityRoster(city)|
    ensures d in Doctors(Recommend(symptoms, city, draws))
        <==> d in CityRoster(city) && exists s :: s in symptoms && Treats(s, d.specialty)
    ensures d in Doctors(Recommend(symptoms, city, draws))
        ==> multiset(Doctors(Recommend(symptoms, city, draws)))[d] == 1
  {
    var r := Recommend(symptoms, city, draws);
    RecommendCount(symptoms, city, draws, d);
    CandidateSpecialtiesAreUnion(symptoms, d.specialty);
    RostersHaveNoDuplicates(city);
    NoDuplicatesCountAtMostOne(CityRoster(city), d);
    assert d in Doctors(r) <==> d in multiset(Doctors(r));
  }

  /** The scenario of one chest-pain patient in Toronto: one cardiologist, nothing else. */
  lemma TorontoChestPain(draws: seq<real>)
    requires AreDraws(draws) && |draws| >= 3
    ensures var r := Recommend(["Chest Pain"], "Toronto, Canada", draws);
      |r| == 1 && r[0].doctor.name == "Dr. Carlos Hernandez" && 70 <= r[0].matchScore <= 94
  {
    var roster := CityRoster("Toronto, Canada");
    assert |roster| == 3;
    assert roster[0].specialty == "General Practitioner";
    assert roster[1].specialty == "Cardiologist" && roster[1].name == "Dr. Carlos Hernandez";
    assert roster[2].specialty == "Dermatologist";
    assert CandidateSpecialties(["Chest Pain"]) == ["Cardiologist"];
    var filtered := FilterBySpecialty(roster, ["Cardiologist"]);
    assert filtered == [roster[1]];
  }
}
