/**
 * The static reference data of the doctor-recommendation page: which
 * specialties each symptom calls for, and the doctor roster of every city.
 */
module RecommenderFixtures {
  import opened Common

  /**
   * One entry of a city roster. `rating` and `distance` are the source's
   * one-decimal numbers scaled by ten (4.8 stars is 48, 2.3 km is 23);
   * phone, e-mail, address, hospital and location text are not modelled.
   */
  datatype Doctor = Doctor(
    id: nat,
    name: string,
    specialty: string,
    rating: nat,
    reviews: nat,
    experience: string,
    availableSlots: seq<string>,
    distance: nat)

  /** The symptoms offered as check boxes, in display order. */
  const AvailableSymptoms: seq<string> := [
    "Chest Pain", "Shortness of Breath", "Headache", "Fever", "Cough",
    "Fatigue", "Joint Pain", "Memory Loss", "Dizziness", "Nausea"]

  /** Symptom to the specialties that treat it. */
  const SymptomSpecialtyMap: map<string, seq<string>> := map[
    "Chest Pain" := ["Cardiologist"],
    "Shortness of Breath" := ["Cardiologist", "General Practitioner"],
    "Headache" := ["Neurologist", "General Practitioner"],
    "Fever" := ["General Practitioner"],
    "Cough" := ["General Practitioner"],
    "Fatigue" := ["General Practitioner"],
    "Joint Pain" := ["General Practitioner"],
    "Memory Loss" := ["Neurologist"],
    "Dizziness" := ["Neurologist", "General Practitioner"],
    "Nausea" := ["General Practitioner"]]

  /** City to the doctors practising there, in fixture order. */
  const DoctorsByCity: map<string, seq<Doctor>> := map[
    "New York, USA" := [
      Doctor(1, "Dr. Sarah Johnson", "Cardiologist", 48, 342, "15 years", ["9:00 AM", "11:30 AM", "2:00 PM", "4:30 PM"], 23),
      Doctor(2, "Dr. Michael Chen", "Neurologist", 47, 287, "12 years", ["10:00 AM", "1:00 PM", "3:30 PM"], 58),
      Doctor(3, "Dr. James Wilson", "Cardiologist", 46, 215, "8 years", ["8:30 AM", "12:00 PM", "2:30 PM", "5:00 PM"], 35)
    ],
    "Los Angeles, USA" := [
      Doctor(4, "Dr. Emily Rodriguez", "General Practitioner", 49, 521, "10 years", ["9:30 AM", "11:00 AM", "1:30 PM", "3:00 PM", "5:00 PM"], 12),
      Doctor(5, "Dr. Lisa Martinez", "Neurologist", 45, 198, "9 years", ["10:30 AM", "2:00 PM"], 28),
      Doctor(6, "Dr. David Thompson", "Dermatologist", 47, 156, "11 years", ["9:00 AM", "11:00 AM", "3:00 PM", "4:30 PM"], 41)
    ],
    "Chicago, USA" := [
      Doctor(7, "Dr. Robert Anderson", "Cardiologist", 48, 403, "16 years", ["9:00 AM", "1:00 PM", "4:00 PM"], 18),
      Doctor(8, "Dr. Patricia Brown", "General Practitioner", 46, 378, "13 years", ["10:00 AM", "12:30 PM", "2:30 PM", "4:30 PM"], 32),
      Doctor(9, "Dr. William Davis", "Neurologist", 47, 245, "10 years", ["8:30 AM", "11:00 AM", "3:30 PM"], 25)
    ],
    "Toronto, Canada" := [
      Doctor(10, "Dr. Jennifer Lee", "General Practitioner", 49, 412, "12 years", ["9:00 AM", "11:00 AM", "2:00 PM", "4:00 PM"], 21),
      Doctor(11, "Dr. Carlos Hernandez", "Cardiologist", 47, 334, "14 years", ["10:30 AM", "1:30 PM", "3:30 PM"], 36),
      Doctor(12, "Dr. Michelle Wong", "Dermatologist", 48, 289, "11 years", ["9:30 AM", "11:30 AM", "2:30 PM", "4:30 PM", "5:30 PM"], 19)
    ],
    "Vancouver, Canada" := [
      Doctor(13, "Dr. Alexandra Park", "Neurologist", 46, 267, "9 years", ["9:00 AM", "12:00 PM", "3:00 PM"], 27),
      Doctor(14, "Dr. Marcus Johnson", "Cardiologist", 48, 381, "15 years", ["10:00 AM", "1:00 PM", "3:30 PM", "5:00 PM"], 15),
      Doctor(15, "Dr. Susan Miller", "General Practitioner", 47, 298, "10 years", ["9:30 AM", "1:00 PM"], 43)
    ],
    "London, UK" := [
      Doctor(16, "Dr. Thomas Bennett", "Cardiologist", 49, 567, "17 years", ["9:00 AM", "11:30 AM", "2:00 PM"], 18),
      Doctor(17, "Dr. Emma Thompson", "Neurologist", 48, 443, "13 years", ["10:00 AM", "1:00 PM", "3:30 PM"], 24),
      Doctor(18, "Dr. David Clarke", "General Practitioner", 47, 389, "11 years", ["9:30 AM", "11:00 AM", "2:30 PM", "4:30 PM", "5:00 PM"], 31)
    ],
    "Manchester, UK" := [
      Doctor(19, "Dr. Katherine Wright", "Dermatologist", 46, 312, "9 years", ["10:00 AM", "12:00 PM", "2:30 PM", "4:30 PM"], 22),
      Doctor(20, "Dr. Philip Harris", "Cardiologist", 48, 398, "14 years", ["9:00 AM", "1:00 PM"], 35)
    ],
    "Berlin, Germany" := [
      Doctor(21, "Dr. Klaus Mueller", "Cardiologist", 48, 456, "16 years", ["9:30 AM", "2:00 PM", "4:00 PM"], 21),
      Doctor(22, "Dr. Annika Schmidt", "Neurologist", 47, 334, "12 years", ["10:00 AM", "1:30 PM"], 42),
      Doctor(23, "Dr. Stefan Weber", "General Practitioner", 49, 501, "14 years", ["9:00 AM", "11:00 AM", "2:00 PM", "4:00 PM"], 19)
    ],
    "Munich, Germany" := [
      Doctor(24, "Dr. Gabriele Hoffmann", "Dermatologist", 46, 278, "10 years", ["10:00 AM", "1:00 PM", "3:30 PM"], 28),
      Doctor(25, "Dr. Matthias Bauer", "Cardiologist", 47, 412, "13 years", ["9:00 AM", "1:00 PM"], 32)
    ],
    "Paris, France" := [
      Doctor(26, "Dr. Pierre Dubois", "Cardiologist", 49, 523, "17 years", ["9:00 AM", "1:00 PM"], 23),
      Doctor(27, "Dr. Marie Leclerc", "Neurologist", 48, 445, "14 years", ["10:30 AM", "2:30 PM", "4:00 PM"], 38),
      Doctor(28, "Dr. Jean Laurent", "General Practitioner", 47, 401, "11 years", ["9:30 AM", "11:30 AM", "2:00 PM", "4:00 PM", "5:00 PM"], 17)
    ],
    "Madrid, Spain" := [
      Doctor(29, "Dr. Carlos Fernandez", "Cardiologist", 48, 489, "15 years", ["9:00 AM", "1:00 PM", "4:00 PM"], 22),
      Doctor(30, "Dr. Isabel Garcia", "Dermatologist", 46, 302, "9 years", ["10:00 AM", "2:00 PM", "4:00 PM"], 31),
      Doctor(31, "Dr. Miguel Rodriguez", "Neurologist", 47, 356, "12 years", ["9:30 AM", "12:30 PM"], 29)
    ],
    "Mumbai, India" := [
      Doctor(32, "Dr. Rajesh Sharma", "Cardiologist", 48, 567, "16 years", ["10:00 AM", "2:00 PM", "4:30 PM"], 24),
      Doctor(33, "Dr. Priya Patel", "General Practitioner", 49, 623, "13 years", ["9:00 AM", "11:00 AM", "1:00 PM", "3:00 PM", "5:00 PM"], 18),
      Doctor(34, "Dr. Vikram Singh", "Neurologist", 47, 412, "11 years", ["10:30 AM", "3:00 PM"], 35)
    ],
    "Delhi, India" := [
      Doctor(35, "Dr. Amit Desai", "Cardiologist", 47, 489, "14 years", ["9:00 AM", "1:00 PM"], 32),
      Doctor(36, "Dr. Neha Gupta", "Dermatologist", 48, 534, "12 years", ["10:00 AM", "1:00 PM", "3:30 PM", "4:30 PM"], 21),
      Doctor(37, "Dr. Arjun Menon", "General Practitioner", 46, 378, "10 years", ["9:30 AM", "12:00 PM", "2:30 PM"], 15)
    ],
    "Tokyo, Japan" := [
      Doctor(38, "Dr. Hiroshi Tanaka", "Cardiologist", 49, 612, "17 years", ["9:30 AM", "1:00 PM", "3:00 PM"], 23),
      Doctor(39, "Dr. Yuki Suzuki", "Neurologist", 48, 501, "13 years", ["10:00 AM", "2:00 PM", "4:00 PM"], 37),
      Doctor(40, "Dr. Kenji Yamamoto", "General Practitioner", 47, 445, "11 years", ["9:00 AM", "11:00 AM", "1:00 PM", "3:30 PM"], 21)
    ],
    "Sydney, Australia" := [
      Doctor(41, "Dr. James Mitchell", "Cardiologist", 48, 534, "15 years", ["9:00 AM", "1:00 PM", "3:30 PM"], 22),
      Doctor(42, "Dr. Sarah Cooper", "Dermatologist", 47, 412, "10 years", ["10:30 AM", "2:00 PM", "4:00 PM"], 34),
      Doctor(43, "Dr. Michael Brown", "General Practitioner", 49, 578, "12 years", ["9:00 AM", "11:00 AM", "1:30 PM", "3:30 PM", "5:00 PM"], 18)
    ],
    "Singapore, Singapore" := [
      Doctor(44, "Dr. Tan Wei Ming", "Cardiologist", 49, 623, "16 years", ["9:30 AM", "1:00 PM", "3:30 PM"], 21),
      Doctor(45, "Dr. Lim Su Chen", "Neurologist", 48, 501, "13 years", ["10:00 AM", "2:00 PM", "4:00 PM"], 28),
      Doctor(46, "Dr. Ng Hui Ling", "Dermatologist", 47, 445, "11 years", ["9:00 AM", "11:30 AM", "2:30 PM", "4:30 PM"], 15)
    ],
    "S√£o Paulo, Brazil" := [
      Doctor(47, "Dr. Carlos Silva", "Cardiologist", 48, 512, "14 years", ["9:00 AM", "1:00 PM", "3:30 PM"], 25),
      Doctor(48, "Dr. Fernanda Costa", "General Practitioner", 49, 589, "12 years", ["9:30 AM", "11:00 AM", "2:00 PM", "4:00 PM", "5:00 PM"], 19),
      Doctor(49, "Dr. Roberto Santos", "Neurologist", 46, 378, "10 years", ["10:30 AM", "2:30 PM", "4:00 PM"], 32)
    ],
    "Dhaka, Bangladesh" := [
      Doctor(50, "Dr. Mohammad Hasan", "Cardiologist", 48, 534, "16 years", ["10:00 AM", "2:00 PM", "4:30 PM"], 21),
      Doctor(51, "Dr. Fatima Begum", "General Practitioner", 49, 612, "13 years", ["9:00 AM", "11:00 AM", "1:00 PM", "3:00 PM", "5:00 PM"], 15),
      Doctor(52, "Dr. Karim Rahman", "Neurologist", 47, 445, "11 years", ["10:30 AM", "2:00 PM"], 32),
      Doctor(53, "Dr. Nadia Khan", "Dermatologist", 46, 389, "10 years", ["9:30 AM", "1:00 PM", "3:30 PM", "4:30 PM"], 28)
    ]
  ]

  /** The roster of `city`, or the empty roster for a city the table lacks. */
  function CityRoster(city: string): (roster: seq<Doctor>)
    ensures city !in DoctorsByCity ==> roster == []
  {
    if city in DoctorsByCity then DoctorsByCity[city] else []
  }

  /** Every symptom offered on the page has an entry in the symptom map. */
  lemma AvailableSymptomsAreMapped()
    ensures forall s :: s in AvailableSymptoms <==> s in SymptomSpecialtyMap
  {
  }

  /** No city roster lists the same doctor record twice. */
  lemma RostersHaveNoDuplicates(city: string)
    ensures NoDuplicates(CityRoster(city))
  {
  }
}
