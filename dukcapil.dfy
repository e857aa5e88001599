/**
 * The civil-registry ("dukcapil") normalizer: every record the store
 * returns for that collection is rebuilt as a record of exactly eighteen
 * keys, with the integer-coded demographic fields replaced by their labels
 * and an address derived from the national ID number (NIK).
 *
 * The address derivation lives in a package outside this model; it is a
 * parameter here, a pure function from the 64-bit NIK to text.
 */
module Dukcapil {
  import opened GoLib
  import opened CodeTables
  import opened Coercions

  /** A stored document: field name to dynamic value. */
  type Record = map<string, Value>

  /** Go's map index: a missing key reads as nil. */
  function Field(d: Record, key: string): (v: Value)
    ensures key !in d ==> v == Nil
    ensures key in d ==> v == d[key]
  {
    if key in d then d[key] else Nil
  }

  /** The eighteen keys of a normalized record; Name gives each key's JSON spelling. */
  datatype Key =
    | NO_KK | NIK | NAMA_LGKP | JENIS_KLMIN | TMPT_LHR | TGL_LHR
    | GOL_DRH | PDDK_AKH | STAT_KWN | JENIS_PKRJN | AGAMA | STAT_HBKEL
    | NO_KEL | ALAMAT | NIK_IBU | NAMA_LGKP_IBU | NIK_AYAH | NAMA_LGKP_AYAH
  {
    function Name(): string
    {
      match this
      case NO_KK => "NO_KK"
      case NIK => "NIK"
      case NAMA_LGKP => "NAMA_LGKP"
      case JENIS_KLMIN => "JENIS_KLMIN"
      case TMPT_LHR => "TMPT_LHR"
      case TGL_LHR => "TGL_LHR"
      case GOL_DRH => "GOL_DRH"
      case PDDK_AKH => "PDDK_AKH"
      case STAT_KWN => "STAT_KWN"
      case JENIS_PKRJN => "JENIS_PKRJN"
      case AGAMA => "AGAMA"
      case STAT_HBKEL => "STAT_HBKEL"
      case NO_KEL => "NO_KEL"
      case ALAMAT => "ALAMAT"
      case NIK_IBU => "NIK_IBU"
      case NAMA_LGKP_IBU => "NAMA_LGKP_IBU"
      case NIK_AYAH => "NIK_AYAH"
      case NAMA_LGKP_AYAH => "NAMA_LGKP_AYAH"
    }
  }

  /**
   * A normalized record: one field per key, holding the value written out
   * under that key's name.
   */
  datatype Enriched = Enriched(
    noKK: int64, nik: int64, namaLgkp: string, jenisKlmin: string,
    tmptLhr: string, tglLhr: string, golDrh: string, pddkAkh: string,
    statKwn: string, jenisPkrjn: string, agama: string, statHbkel: string,
    noKel: string, alamat: string, nikIbu: int64, namaLgkpIbu: Value,
    nikAyah: int64, namaLgkpAyah: Value)

  /** The value a slot of the pre-sized result list holds before the loop fills it. */
  const Unfilled := Enriched(0, 0, "", "", "", "", "", "", "", "", "", "", "", "", 0, Nil, 0, Nil)

  const AllKeys: set<Key> := {
    NO_KK, NIK, NAMA_LGKP, JENIS_KLMIN, TMPT_LHR, TGL_LHR,
    GOL_DRH, PDDK_AKH, STAT_KWN, JENIS_PKRJN, AGAMA, STAT_HBKEL,
    NO_KEL, ALAMAT, NIK_IBU, NAMA_LGKP_IBU, NIK_AYAH, NAMA_LGKP_AYAH
  }

  /** The stored value under a key's name. */
  function Stored(d: Record, k: Key): Value
  {
    Field(d, k.Name())
  }

  /** One record of the loop in processDukcapilData. */
  function Enrich(d: Record, nikParser: int64 -> string): (e: Enriched)
    // a coded field holds the sentinel exactly when the code read from it is not in its table
    ensures e.jenisKlmin == Sentinel <==> ConvertToInt32(Stored(d, JENIS_KLMIN)) !in GenderCodes
    ensures e.golDrh == Sentinel <==> ConvertToInt32(Stored(d, GOL_DRH)) !in BloodTypeCodes
    ensures e.pddkAkh == Sentinel <==> ConvertToInt32(Stored(d, PDDK_AKH)) !in EducationCodes
    ensures e.statKwn == Sentinel <==> ConvertToInt32(Stored(d, STAT_KWN)) !in MaritalStatusCodes
    ensures e.jenisPkrjn == Sentinel <==> ConvertToInt32(Stored(d, JENIS_PKRJN)) !in OccupationCodes
    ensures e.agama == Sentinel <==> ConvertToInt32(Stored(d, AGAMA)) !in ReligionCodes
    ensures e.statHbkel == Sentinel <==> ConvertToInt32(Stored(d, STAT_HBKEL)) !in FamilyRoleCodes
    // the other integer fields are read at 64 bits, the other text fields as text
    ensures e.noKK == ConvertToInt64(Stored(d, NO_KK))
    ensures e.nikIbu == ConvertToInt64(Stored(d, NIK_IBU)) && e.nikAyah == ConvertToInt64(Stored(d, NIK_AYAH))
    ensures e.namaLgkp == ConvertToString(Stored(d, NAMA_LGKP)) && e.noKel == ConvertToString(Stored(d, NO_KEL))
    ensures e.tmptLhr == ConvertToString(Stored(d, TMPT_LHR)) && e.tglLhr == ConvertToString(Stored(d, TGL_LHR))
    // the address is derived from the NIK the record reports
    ensures e.nik == ConvertToInt64(Stored(d, NIK)) && e.alamat == nikParser(e.nik)
    // the parents' names are copied as stored, nil when missing
    ensures e.namaLgkpIbu == Stored(d, NAMA_LGKP_IBU) && e.namaLgkpAyah == Stored(d, NAMA_LGKP_AYAH)
  {
    var nik := ConvertToInt64(Stored(d, NIK));
    Enriched(
      noKK := ConvertToInt64(Stored(d, NO_KK)),
      nik := nik,
      namaLgkp := ConvertToString(Stored(d, NAMA_LGKP)),
      jenisKlmin := ConvertJenisKelamin(ConvertToInt32(Stored(d, JENIS_KLMIN))),
      tmptLhr := ConvertToString(Stored(d, TMPT_LHR)),
      tglLhr := ConvertToString(Stored(d, TGL_LHR)),
      golDrh := ConvertBloodType(ConvertToInt32(Stored(d, GOL_DRH))),
      pddkAkh := ConvertEducation(ConvertToInt32(Stored(d, PDDK_AKH))),
      statKwn := ConvertMaritalStatus(ConvertToInt32(Stored(d, STAT_KWN))),
      jenisPkrjn := ConvertOccupation(ConvertToInt32(Stored(d, JENIS_PKRJN))),
      agama := ConvertReligion(ConvertToInt32(Stored(d, AGAMA))),
      statHbkel := ConvertStatusHubunganKeluarga(ConvertToInt32(Stored(d, STAT_HBKEL))),
      noKel := ConvertToString(Stored(d, NO_KEL)),
      alamat := nikParser(nik),
      nikIbu := ConvertToInt64(Stored(d, NIK_IBU)),
      namaLgkpIbu := Stored(d, NAMA_LGKP_IBU),
      nikAyah := ConvertToInt64(Stored(d, NIK_AYAH)),
      namaLgkpAyah := Stored(d, NAMA_LGKP_AYAH))
  }

  /**
   * processDukcapilData after the cursor has been read: no records give a
   * nil list (written out as JSON null), otherwise one normalized record per
   * stored record, in the same order, filled into a list of that size.
   */
  method ProcessDukcapilData(results: seq<Record>, nikParser: int64 -> string)
    returns (processed: Option<seq<Enriched>>)
    ensures processed.None? <==> results == []
    ensures processed.Some? ==> |processed.value| == |results|
    ensures processed.Some? ==>
      forall i :: 0 <= i < |results| ==> processed.value[i] == Enrich(results[i], nikParser)
  {
    if |results| == 0 {
      return None;
    }
    var out := seq(|results|, _ => Unfilled);
    for i := 0 to |results|
      invariant |out| == |results|
      invariant forall j :: 0 <= j < i ==> out[j] == Enrich(results[j], nikParser)
    {
      out := out[i := Enrich(results[i], nikParser)];
    }
    return Some(out);
  }

  /** A normalized record has eighteen keys, written out under eighteen different names. */
  lemma KeyCount()
    ensures |AllKeys| == 18
    ensures forall k: Key :: k in AllKeys
    ensures forall k1: Key, k2: Key :: k1.Name() == k2.Name() ==> k1 == k2
  {
    forall k: Key
      ensures k in AllKeys
    {
      match k
      case NO_KK =>
      case NIK =>
      case NAMA_LGKP =>
      case JENIS_KLMIN =>
      case TMPT_LHR =>
      case TGL_LHR =>
      case GOL_DRH =>
      case PDDK_AKH =>
      case STAT_KWN =>
      case JENIS_PKRJN =>
      case AGAMA =>
      case STAT_HBKEL =>
      case NO_KEL =>
      case ALAMAT =>
      case NIK_IBU =>
      case NAMA_LGKP_IBU =>
      case NIK_AYAH =>
      case NAMA_LGKP_AYAH =>
    }
  }

  /**
   * A label in a coded field identifies the code it was read from: for a
   * defined code the table's reverse lookup (religion, education, marital
   * status) or its inverse (the others) gives the code back, and gender is
   * "M" exactly for code 1 and "F" exactly for code 2.
   */
  lemma EnrichLabelsIdentifyCodes(d: Record, nikParser: int64 -> string)
    ensures var e := Enrich(d, nikParser);
      var c := ConvertToInt32(Stored(d, AGAMA));
      c in ReligionCodes ==> ConvertReligionString(e.agama) == (c, "")
    ensures var e := Enrich(d, nikParser);
      var c := ConvertToInt32(Stored(d, PDDK_AKH));
      c in EducationCodes ==> ConvertEducationString(e.pddkAkh) == (c, "")
    ensures var e := Enrich(d, nikParser);
      var c := ConvertToInt32(Stored(d, STAT_KWN));
      c in MaritalStatusCodes ==> ConvertMaritalStatusString(e.statKwn) == (c, "")
    ensures var e := Enrich(d, nikParser);
      var c := ConvertToInt32(Stored(d, GOL_DRH));
      c in BloodTypeCodes ==> e.golDrh in BloodTypeByLabel && BloodTypeByLabel[e.golDrh] == c
    ensures var e := Enrich(d, nikParser);
      var c := ConvertToInt32(Stored(d, JENIS_PKRJN));
      c in OccupationCodes ==> e.jenisPkrjn in OccupationByLabel && OccupationByLabel[e.jenisPkrjn] == c
    ensures var e := Enrich(d, nikParser);
      var c := ConvertToInt32(Stored(d, STAT_HBKEL));
      c in FamilyRoleCodes ==> e.statHbkel in FamilyRoleByLabel && FamilyRoleByLabel[e.statHbkel] == c
    ensures var e := Enrich(d, nikParser);
      var c := ConvertToInt32(Stored(d, JENIS_KLMIN));
      c in GenderCodes ==> (e.jenisKlmin == "M" <==> c == 1) && (e.jenisKlmin == "F" <==> c == 2)
  {
    var e := Enrich(d, nikParser);
    var c := ConvertToInt32(Stored(d, AGAMA));
    if c in ReligionCodes { ReligionRoundTrip(c); }
    c := ConvertToInt32(Stored(d, PDDK_AKH));
    if c in EducationCodes { EducationRoundTrip(c); }
    c := ConvertToInt32(Stored(d, STAT_KWN));
    if c in MaritalStatusCodes { MaritalStatusRoundTrip(c); }
    c := ConvertToInt32(Stored(d, GOL_DRH));
    if c in BloodTypeCodes { BloodTypeInverse(c); }
    c := ConvertToInt32(Stored(d, JENIS_PKRJN));
    if c in OccupationCodes { OccupationInverse(c); }
    c := ConvertToInt32(Stored(d, STAT_HBKEL));
    if c in FamilyRoleCodes { FamilyRoleInverse(c); }
  }

  /** A value the 32-bit coercion cannot read a code from, whatever its content. */
  predicate Unreadable(v: Value) { v == Nil || v == Other || v.I64? }

  /**
   * A coded field that is missing, stored as a 64-bit integer or as any
   * other non-integer type reads as code 0, which no table defines, so it
   * is labelled with the sentinel.
   */
  lemma UnreadableCodesAreSentinel(d: Record, nikParser: int64 -> string)
    ensures var e := Enrich(d, nikParser);
      && (Unreadable(Stored(d, JENIS_KLMIN)) ==> e.jenisKlmin == Sentinel)
      && (Unreadable(Stored(d, GOL_DRH)) ==> e.golDrh == Sentinel)
      && (Unreadable(Stored(d, PDDK_AKH)) ==> e.pddkAkh == Sentinel)
      && (Unreadable(Stored(d, STAT_KWN)) ==> e.statKwn == Sentinel)
      && (Unreadable(Stored(d, JENIS_PKRJN)) ==> e.jenisPkrjn == Sentinel)
      && (Unreadable(Stored(d, AGAMA)) ==> e.agama == Sentinel)
      && (Unreadable(Stored(d, STAT_HBKEL)) ==> e.statHbkel == Sentinel)
  {
    assert 0 !in GenderCodes + BloodTypeCodes + EducationCodes + MaritalStatusCodes;
    assert 0 !in OccupationCodes + ReligionCodes + FamilyRoleCodes;
  }

  /**
   * Names, places and dates stored as text come out unchanged, and the
   * family-card number and the parents' NIKs stored as 64-bit integers keep
   * their values.
   */
  lemma EnrichPassesThrough(d: Record, nikParser: int64 -> string)
    ensures var e := Enrich(d, nikParser);
      && (Stored(d, NAMA_LGKP).Str? ==> e.namaLgkp == Stored(d, NAMA_LGKP).s)
      && (Stored(d, TMPT_LHR).Str? ==> e.tmptLhr == Stored(d, TMPT_LHR).s)
      && (Stored(d, TGL_LHR).Str? ==> e.tglLhr == Stored(d, TGL_LHR).s)
      && (Stored(d, NO_KEL).Str? ==> e.noKel == Stored(d, NO_KEL).s)
      && (Stored(d, NO_KK).I64? ==> e.noKK == Stored(d, NO_KK).i64)
      && (Stored(d, NIK_IBU).I64? ==> e.nikIbu == Stored(d, NIK_IBU).i64)
      && (Stored(d, NIK_AYAH).I64? ==> e.nikAyah == Stored(d, NIK_AYAH).i64)
  {
  }

  /**
   * A name, place, date or village number that is missing, or stored as
   * null, comes out as "-", and a missing or null family-card number or
   * parent's NIK comes out as 0.
   */
  lemma EnrichMissingDefaults(d: Record, nikParser: int64 -> string)
    ensures var e := Enrich(d, nikParser);
      && ("NAMA_LGKP" !in d ==> e.namaLgkp == "-")
      && ("TMPT_LHR" !in d ==> e.tmptLhr == "-")
      && ("TGL_LHR" !in d ==> e.tglLhr == "-")
      && ("NO_KEL" !in d ==> e.noKel == "-")
      && ("NO_KK" !in d ==> e.noKK == 0)
      && ("NIK_IBU" !in d ==> e.nikIbu == 0)
      && ("NIK_AYAH" !in d ==> e.nikAyah == 0)
    ensures var e := Enrich(d, nikParser);
      && (Stored(d, NAMA_LGKP).Nil? ==> e.namaLgkp == "-")
      && (Stored(d, TMPT_LHR).Nil? ==> e.tmptLhr == "-")
      && (Stored(d, TGL_LHR).Nil? ==> e.tglLhr == "-")
      && (Stored(d, NO_KEL).Nil? ==> e.noKel == "-")
      && (Stored(d, NO_KK).Nil? ==> e.noKK == 0)
      && (Stored(d, NIK_IBU).Nil? ==> e.nikIbu == 0)
      && (Stored(d, NIK_AYAH).Nil? ==> e.nikAyah == 0)
  {
    // the written names of the keys, so that a missing key is seen to read as nil
    assert NAMA_LGKP.Name() == "NAMA_LGKP" && TMPT_LHR.Name() == "TMPT_LHR" && TGL_LHR.Name() == "TGL_LHR";
    assert NO_KEL.Name() == "NO_KEL" && NO_KK.Name() == "NO_KK" && NIK_IBU.Name() == "NIK_IBU" && NIK_AYAH.Name() == "NIK_AYAH";
  }
}
