/**
 * The civil-registry code tables: small integer codes for religion, gender,
 * blood type, education, marital status, occupation and family role, each
 * with its label.  A forward lookup never fails: a code outside its table
 * gives the sentinel "-".  The reverse lookups (label to code) that exist
 * answer a pair of the code and an empty message, or code 0 and a
 * user-facing "not found" message.
 */
module CodeTables {
  import opened GoLib

  const Sentinel: string := "-"

  // ---------------------------------------------------------------------
  // Religion

  const ReligionCodes: set<int32> := {1, 2, 3, 4, 5, 6}

  function ConvertReligion(code: int32): (name: string)
    ensures name == Sentinel <==> code !in ReligionCodes
  {
    match code
    case 1 => "ISLAM"
    case 2 => "KRISTEN"
    case 3 => "KATHOLIK"
    case 4 => "HINDU"
    case 5 => "BUDDHA"
    case 6 => "KHONGHUCU"
    case _ => Sentinel
  }

  const ReligionByLabel: map<string, int32> := map[
    "ISLAM" := 1,
    "KRISTEN" := 2,
    "KATHOLIK" := 3,
    "HINDU" := 4,
    "BUDDHA" := 5,
    "KHONGHUCU" := 6
  ]

  const ReligionNotFound: string := "data agama ini tidak di temukan, mohon di coba lagi!"

  /** Reverse lookup: a known label gives its code, anything else code 0 and a message. */
  function ConvertReligionString(name: string): (r: (int32, string))
    ensures r.1 == "" <==> r.0 != 0
    ensures r.1 == "" ==> r.0 in ReligionCodes && ConvertReligion(r.0) == name
    ensures r.1 != "" ==> r.0 == 0 && r.1 == ReligionNotFound
  {
    if name in ReligionByLabel then (ReligionByLabel[name], "") else (0, ReligionNotFound)
  }

  lemma ReligionRoundTrip(code: int32)
    requires code in ReligionCodes
    ensures ConvertReligionString(ConvertReligion(code)) == (code, "")
  {
  }

  lemma ReligionInjective(a: int32, b: int32)
    requires a in ReligionCodes && b in ReligionCodes
    requires ConvertReligion(a) == ConvertReligion(b)
    ensures a == b
  {
    ReligionRoundTrip(a);
    ReligionRoundTrip(b);
  }

  // ---------------------------------------------------------------------
  // Gender (jenis kelamin)

  const GenderCodes: set<int32> := {1, 2}

  function ConvertJenisKelamin(code: int32): (name: string)
    ensures name == Sentinel <==> code !in GenderCodes
  {
    match code
    case 1 => "M"
    case 2 => "F"
    case _ => Sentinel
  }

  const GenderByLabel: map<string, int32> := map["PRIA" := 1, "WANITA" := 2]

  const GenderNotFound: string := "data jenis kelamin ini tidak di temukan, mohon di coba lagi!"

  /** Reverse lookup for gender: accepts the long labels PRIA and WANITA only. */
  function ConvertRJenisKelaminString(name: string): (r: (int32, string))
    ensures r.1 == "" <==> name == "PRIA" || name == "WANITA"
    ensures r.1 == "" ==> r.0 in GenderCodes && (r.0 == 1 <==> name == "PRIA")
    ensures r.1 != "" ==> r.0 == 0 && r.1 == GenderNotFound
  {
    if name in GenderByLabel then (GenderByLabel[name], "") else (0, GenderNotFound)
  }

  /**
   * The gender table does not round-trip: the forward lookup writes the
   * one-letter labels "M" and "F", which the reverse lookup rejects.
   */
  lemma GenderDoesNotRoundTrip(code: int32)
    ensures ConvertRJenisKelaminString(ConvertJenisKelamin(code)) == (0, GenderNotFound)
  {
  }

  lemma GenderInjective(a: int32, b: int32)
    requires a in GenderCodes && b in GenderCodes
    requires ConvertJenisKelamin(a) == ConvertJenisKelamin(b)
    ensures a == b
  {
  }

  // ---------------------------------------------------------------------
  // Blood type

  const BloodTypeCodes: set<int32> := {1, 2, 3, 4, 5, 6, 7, 8, 9, 10, 11, 12}

  function ConvertBloodType(code: int32): (name: string)
    ensures name == Sentinel <==> code !in BloodTypeCodes
  {
    match code
    case 1 => "A"
    case 2 => "A+"
    case 3 => "A-"
    case 4 => "AB"
    case 5 => "AB+"
    case 6 => "AB-"
    case 7 => "B"
    case 8 => "B+"
    case 9 => "B-"
    case 10 => "O"
    case 11 => "O+"
    case 12 => "O-"
    case _ => Sentinel
  }

  /** Reference inverse of the blood-type table (no reverse lookup exists in the service). */
  const BloodTypeByLabel: map<string, int32> := map[
    "A" := 1, "A+" := 2, "A-" := 3,
    "AB" := 4, "AB+" := 5, "AB-" := 6,
    "B" := 7, "B+" := 8, "B-" := 9,
    "O" := 10, "O+" := 11, "O-" := 12
  ]

  lemma BloodTypeInverse(code: int32)
    requires code in BloodTypeCodes
    ensures ConvertBloodType(code) in BloodTypeByLabel
    ensures BloodTypeByLabel[ConvertBloodType(code)] == code
  {
  }

  lemma BloodTypeInjective(a: int32, b: int32)
    requires a in BloodTypeCodes && b in BloodTypeCodes
    requires ConvertBloodType(a) == ConvertBloodType(b)
    ensures a == b
  {
    BloodTypeInverse(a);
    BloodTypeInverse(b);
  }

  // ---------------------------------------------------------------------
  // Education

  const EducationCodes: set<int32> := {1, 2, 3, 4, 5, 6, 7, 8, 9, 10}

  function ConvertEducation(code: int32): (name: string)
    ensures name == Sentinel <==> code !in EducationCodes
  {
    match code
    case 1 => "TIDAK / BELUM SEKOLAH"
    case 2 => "BELUM TAMAT SD / SEDERAJAT"
    case 3 => "TAMAT SD / SEDERAJAT"
    case 4 => "SLTP / SEDERAJAT"
    case 5 => "SLTA / SEDERAJAT"
    case 6 => "DIPLOMA I / II"
    case 7 => "AKADEMI / DIPLOMA III / SARJANA MUDA"
    case 8 => "DIPLOMA IV / STRATA I"
    case 9 => "STRATA II"
    case 10 => "STRATA III"
    case _ => Sentinel
  }

  const EducationByLabel: map<string, int32> := map[
    "TIDAK / BELUM SEKOLAH" := 1,
    "BELUM TAMAT SD / SEDERAJAT" := 2,
    "TAMAT SD / SEDERAJAT" := 3,
    "SLTP / SEDERAJAT" := 4,
    "SLTA / SEDERAJAT" := 5,
    "DIPLOMA I / II" := 6,
    "AKADEMI / DIPLOMA III / SARJANA MUDA" := 7,
    "DIPLOMA IV / STRATA I" := 8,
    "STRATA II" := 9,
    "STRATA III" := 10
  ]

  const EducationNotFound: string := "data edukasi ini tidak di temukan, mohon di coba lagi!"

  function ConvertEducationString(name: string): (r: (int32, string))
    ensures r.1 == "" <==> r.0 != 0
    ensures r.1 == "" ==> r.0 in EducationCodes && ConvertEducation(r.0) == name
    ensures r.1 != "" ==> r.0 == 0 && r.1 == EducationNotFound
  {
    if name in EducationByLabel then (EducationByLabel[name], "") else (0, EducationNotFound)
  }

  lemma EducationRoundTrip(code: int32)
    requires code in EducationCodes
    ensures ConvertEducationString(ConvertEducation(code)) == (code, "")
  {
  }

  lemma EducationInjective(a: int32, b: int32)
    requires a in EducationCodes && b in EducationCodes
    requires ConvertEducation(a) == ConvertEducation(b)
    ensures a == b
  {
    EducationRoundTrip(a);
    EducationRoundTrip(b);
  }

  // ---------------------------------------------------------------------
  // Marital status

  const MaritalStatusCodes: set<int32> := {1, 2, 3, 4}

  function ConvertMaritalStatus(code: int32): (name: string)
    ensures name == Sentinel <==> code !in MaritalStatusCodes
  {
    match code
    case 1 => "BELUM KAWIN"
    case 2 => "KAWIN"
    case 3 => "CERAI HIDUP"
    case 4 => "CERAI MATI"
    case _ => Sentinel
  }

  const MaritalStatusByLabel: map<string, int32> := map[
    "BELUM KAWIN" := 1,
    "KAWIN" := 2,
    "CERAI HIDUP" := 3,
    "CERAI MATI" := 4
  ]

  const MaritalStatusNotFound: string := "data marital status ini tidak di temukan, mohon di coba lagi!"

  function ConvertMaritalStatusString(name: string): (r: (int32, string))
    ensures r.1 == "" <==> r.0 != 0
    ensures r.1 == "" ==> r.0 in MaritalStatusCodes && ConvertMaritalStatus(r.0) == name
    ensures r.1 != "" ==> r.0 == 0 && r.1 == MaritalStatusNotFound
  {
    if name in MaritalStatusByLabel then (MaritalStatusByLabel[name], "") else (0, MaritalStatusNotFound)
  }

  lemma MaritalStatusRoundTrip(code: int32)
    requires code in MaritalStatusCodes
    ensures ConvertMaritalStatusString(ConvertMaritalStatus(code)) == (code, "")
  {
  }

  lemma MaritalStatusInjective(a: int32, b: int32)
    requires a in MaritalStatusCodes && b in MaritalStatusCodes
    requires ConvertMaritalStatus(a) == ConvertMaritalStatus(b)
    ensures a == b
  {
    MaritalStatusRoundTrip(a);
    MaritalStatusRoundTrip(b);
  }

  // ---------------------------------------------------------------------
  // Occupation (the table has gaps: 7, 8, 11-14, ... are not defined)

  const OccupationCodes: set<int32> := {
    1, 2, 3, 4, 5, 6, 9, 10, 15, 19, 20, 23, 24, 25, 26, 27,
    34, 38, 41, 44, 45, 65, 81, 84, 85, 86, 87, 88
  }

  function ConvertOccupation(code: int32): (name: string)
    ensures name == Sentinel <==> code !in OccupationCodes
  {
    match code
    case 1 => "BELUM / TIDAK BEKERJA"
    case 2 => "MENGURUS RUMAH TANGGA"
    case 3 => "PELAJAR / MAHASISWA"
    case 4 => "PENSIUNAN"
    case 5 => "PEGAWAI NEGERI SIPIL"
    case 6 => "TNI"
    case 9 => "PETANI / PEKEBUN"
    case 10 => "PETERNAK"
    case 15 => "KARYAWAN SWASTA"
    case 19 => "BURUH HARIAN LEPAS"
    case 20 => "BURUH TANI / PERKEBUNAN"
    case 23 => "PEMBANTU RUMAH TANGGA"
    case 24 => "TUKANG CUKUR"
    case 25 => "TUKANG LISTRING"
    case 26 => "TUKANG BATU"
    case 27 => "TUKANG KAYU"
    case 34 => "MEKANIK"
    case 38 => "PARAJI"
    case 41 => "IMAM MASJID"
    case 44 => "WARTAWAN"
    case 45 => "USTADZ / MUBALIGH"
    case 65 => "GURU"
    case 81 => "SOPIR"
    case 84 => "PEDAGANG"
    case 85 => "PERANGKAT DESA"
    case 86 => "KEPALA DESA"
    case 87 => "BIARAWATI"
    case 88 => "WIRASWASTA"
    case _ => Sentinel
  }

  /** Reference inverse of the occupation table (no reverse lookup exists in the service). */
  const OccupationByLabel: map<string, int32> := map[
    "BELUM / TIDAK BEKERJA" := 1,
    "MENGURUS RUMAH TANGGA" := 2,
    "PELAJAR / MAHASISWA" := 3,
    "PENSIUNAN" := 4,
    "PEGAWAI NEGERI SIPIL" := 5,
    "TNI" := 6,
    "PETANI / PEKEBUN" := 9,
    "PETERNAK" := 10,
    "KARYAWAN SWASTA" := 15,
    "BURUH HARIAN LEPAS" := 19,
    "BURUH TANI / PERKEBUNAN" := 20,
    "PEMBANTU RUMAH TANGGA" := 23,
    "TUKANG CUKUR" := 24,
    "TUKANG LISTRING" := 25,
    "TUKANG BATU" := 26,
    "TUKANG KAYU" := 27,
    "MEKANIK" := 34,
    "PARAJI" := 38,
    "IMAM MASJID" := 41,
    "WARTAWAN" := 44,
    "USTADZ / MUBALIGH" := 45,
    "GURU" := 65,
    "SOPIR" := 81,
    "PEDAGANG" := 84,
    "PERANGKAT DESA" := 85,
    "KEPALA DESA" := 86,
    "BIARAWATI" := 87,
    "WIRASWASTA" := 88
  ]

  lemma OccupationInverse(code: int32)
    requires code in OccupationCodes
    ensures ConvertOccupation(code) in OccupationByLabel
    ensures OccupationByLabel[ConvertOccupation(code)] == code
  {
  }

  lemma OccupationInjective(a: int32, b: int32)
    requires a in OccupationCodes && b in OccupationCodes
    requires ConvertOccupation(a) == ConvertOccupation(b)
    ensures a == b
  {
    OccupationInverse(a);
    OccupationInverse(b);
  }

  // ---------------------------------------------------------------------
  // Family role (status hubungan keluarga)

  const FamilyRoleCodes: set<int32> := {1, 2, 3, 4, 5, 6, 7, 8, 9, 10}

  function ConvertStatusHubunganKeluarga(code: int32): (name: string)
    ensures name == Sentinel <==> code !in FamilyRoleCodes
  {
    match code
    case 1 => "KEPALA KELUARGA"
    case 2 => "SUAMI"
    case 3 => "ISTRI"
    case 4 => "ANAK"
    case 5 => "MENANTU"
    case 6 => "CUCU"
    case 7 => "ORANGTUA"
    case 8 => "MERTUA"
    case 9 => "FAMILI LAIN"
    case 10 => "PEMBANTU"
    case _ => Sentinel
  }

  /** Reference inverse of the family-role table (no reverse lookup exists in the service). */
  const FamilyRoleByLabel: map<string, int32> := map[
    "KEPALA KELUARGA" := 1,
    "SUAMI" := 2,
    "ISTRI" := 3,
    "ANAK" := 4,
    "MENANTU" := 5,
    "CUCU" := 6,
    "ORANGTUA" := 7,
    "MERTUA" := 8,
    "FAMILI LAIN" := 9,
    "PEMBANTU" := 10
  ]

  lemma FamilyRoleInverse(code: int32)
    requires code in FamilyRoleCodes
    ensures ConvertStatusHubunganKeluarga(code) in FamilyRoleByLabel
    ensures FamilyRoleByLabel[ConvertStatusHubunganKeluarga(code)] == code
  {
  }

  lemma FamilyRoleInjective(a: int32, b: int32)
    requires a in FamilyRoleCodes && b in FamilyRoleCodes
    requires ConvertStatusHubunganKeluarga(a) == ConvertStatusHubunganKeluarga(b)
    ensures a == b
  {
    FamilyRoleInverse(a);
    FamilyRoleInverse(b);
  }

  /** Examples the tables are meant to satisfy: 999 and the gap codes 7 and 8 have no label. */
  lemma UndefinedCodesAreSentinel()
    ensures ConvertReligion(999) == Sentinel && ConvertOccupation(7) == Sentinel
    ensures ConvertOccupation(8) == Sentinel && ConvertBloodType(0) == Sentinel
    ensures ConvertOccupation(15) == "KARYAWAN SWASTA"
  {
  }
}
