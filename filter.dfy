/**
 * The filter translator of the detail-data endpoint: a collection name and
 * the raw text of the "filter" query parameter become the query document
 * sent to the store.  An empty filter selects a fixed default view for
 * four collections and every document elsewhere; a non-empty filter is an
 * OR of equalities over the collection's searchable fields, against the
 * filter as an integer when it is all digits and as upper-cased text
 * otherwise.
 */
module FilterTranslator {
  import opened GoLib

  /** A scalar operand of a query document: a Go int or a string. */
  datatype Scalar = IntV(i: int) | StrV(s: string)

  /** One operator applied to a field: $ne, $gt or $exists. */
  datatype Cond = Ne(operand: Scalar) | Gt(operand: Scalar) | Exists(present: bool)

  /** A field with the operators it must all satisfy. */
  datatype FieldConds = FieldConds(field: string, conds: seq<Cond>)

  /** One equality of an $or list: the field holds exactly this value. */
  datatype FieldEq = FieldEq(field: string, value: Scalar)

  /**
   * A query document: the empty document (every document matches), a
   * conjunction of per-field operators, or an $or of equalities.
   */
  datatype Filter = MatchAll | AllOf(clauses: seq<FieldConds>) | AnyOf(alternatives: seq<FieldEq>)

  /** A search result page holds at most this many documents. */
  const PageLimit := 10

  /** The collections that have a default view for an empty filter. */
  const DefaultViewCollections: set<string> :=
    {"bankraya_paylater", "bankraya_pinang_flexi", "rupa2_customer", "user_posaja"}

  /**
   * The query for an empty filter: the default view of the four collections
   * that have one, every document for any other collection.
   */
  function DefaultView(q: string): (p: Filter)
    ensures p.MatchAll? <==> q !in DefaultViewCollections
    ensures !p.AnyOf?
  {
    match q
    case "bankraya_paylater" =>
      AllOf([FieldConds("Hp", [Ne(IntV(-1))]), FieldConds("Tagihan Pokok", [Gt(IntV(10000000))])])
    case "bankraya_pinang_flexi" =>
      AllOf([FieldConds("Tagihan Pokok", [Gt(IntV(10000000))])])
    case "rupa2_customer" =>
      AllOf([FieldConds("email", [Ne(StrV("-"))])])
    case "user_posaja" =>
      AllOf([FieldConds("Noidentitas", [Exists(true), Ne(StrV("")), Ne(IntV(0))])])
    case _ => MatchAll
  }

  /**
   * What a searchable field is compared against: the converted filter
   * (an integer for all-digit text), the upper-cased filter text as it is,
   * or that text with one trailing space.
   */
  datatype Operand = Converted | Text | PaddedText

  datatype Rule = Rule(field: string, operand: Operand)

  /** The collections a non-empty filter is matched against field by field. */
  const SearchableCollections: set<string> := {
    "sample_bansos", "bankraya_paylater", "bankraya_pinang_flexi", "data_posindo",
    "dekoruma_customer", "dekoruma_transaction", "dukcapil", "fithub",
    "gojek_customer", "portfolio_bnisekuritas", "rupa2_customer",
    "sicepat_customer", "sicepat_lama", "sim_pendaftaran", "sim_produksi",
    "tokopedia_cutomer", "user_posaja", "vehicle", "phone_regis"
  }

  /** The searchable fields of a collection, in the order of its $or list. */
  function OrRules(q: string): (rules: seq<Rule>)
    ensures rules == [] <==> q !in SearchableCollections
  {
    match q
    case "sample_bansos" => [Rule("nama_lengkap", Converted), Rule("nik", Converted)]
    case "bankraya_paylater" => [Rule("Nasabah", Converted), Rule("Hp", Converted)]
    case "bankraya_pinang_flexi" => [Rule("Nama Nasabah", Converted), Rule("No Hp", Converted)]
    case "data_posindo" =>
      [Rule("nama_penerima", Converted), Rule("nama_petugas", Converted), Rule("nama_pengirim", Converted)]
    case "dekoruma_customer" => [Rule("Email", Converted)]
    case "dekoruma_transaction" => [Rule("Guest Email", Converted)]
    case "dukcapil" => [Rule("NIK", Converted), Rule("NAMA_LGKP", Converted)]
    case "fithub" => [Rule("name", Converted), Rule("email", Converted), Rule("phone", Text)]
    case "gojek_customer" => [Rule("Phone", Converted), Rule("Email", Converted)]
    case "portfolio_bnisekuritas" => [Rule("product.fundname", Converted), Rule("cls_initialcode", Converted)]
    case "rupa2_customer" =>
      [Rule("customer_name", Converted), Rule("phone", Text), Rule("email", Converted)]
    case "sicepat_customer" =>
      [Rule("Consignee Name", Converted), Rule("Consignee Phone", Converted),
       Rule("Shipper Email", Converted), Rule("Shipper Phone", Converted)]
    case "sicepat_lama" =>
      [Rule("Consignee Name", Converted), Rule("Consignee Phone", Converted),
       Rule("Shipper Email", Converted), Rule("Shipper Phone", Converted)]
    case "sim_pendaftaran" => [Rule("NAMA", Converted), Rule("NIK", Converted)]
    case "sim_produksi" => [Rule("NO SIM", Converted), Rule("NAMA", Converted)]
    case "tokopedia_cutomer" => [Rule("Full Name", Converted), Rule("Telephone", Converted)]
    case "user_posaja" =>
      [Rule("Fullname", Converted), Rule("Email", Converted), Rule("Nophone", Converted), Rule("Noidentitas", Converted)]
    case "vehicle" => [Rule("NIK", Converted), Rule("NAMA", PaddedText), Rule("NOPOL", Converted)]
    case "phone_regis" => [Rule("NAME", Converted), Rule("NIK", Converted), Rule("PHONE", Converted)]
    case _ => []
  }

  /**
   * The converted filter: all-digit text through Atoi (so leading zeros
   * are dropped and an overlong number is clamped), any other text as it is.
   */
  function FilterValue(filterData: string): (v: Scalar)
    requires filterData != []
    ensures v.IntV? <==> AllDigits(filterData)
    ensures v.IntV? ==> 0 <= v.i <= MaxInt64
    ensures v.IntV? && DigitsValue(filterData) <= MaxInt64 ==> v.i == DigitsValue(filterData)
    ensures v.IntV? && DigitsValue(filterData) > MaxInt64 ==> v.i == MaxInt64
    ensures v.StrV? ==> v.s == filterData
  {
    if AllDigits(filterData) then IntV(AtoiDigits(filterData)) else StrV(filterData)
  }

  function OperandValue(o: Operand, filterData: string, converted: Scalar): Scalar
  {
    match o
    case Converted => converted
    case Text => StrV(filterData)
    case PaddedText => StrV(filterData + " ")
  }

  /**
   * The $or document for a non-empty filter, given the filter text and its
   * converted form; an unknown collection gets the empty document.
   */
  function OrFilter(q: string, filterData: string, converted: Scalar): (p: Filter)
    ensures p.MatchAll? <==> q !in SearchableCollections
    ensures p.AnyOf? ==> |p.alternatives| == |OrRules(q)|
    ensures p.AnyOf? ==> forall i :: 0 <= i < |p.alternatives| ==>
      p.alternatives[i] == FieldEq(OrRules(q)[i].field, OperandValue(OrRules(q)[i].operand, filterData, converted))
  {
    var rules := OrRules(q);
    if rules == [] then MatchAll
    else AnyOf(seq(|rules|, i requires 0 <= i < |rules| =>
      FieldEq(rules[i].field, OperandValue(rules[i].operand, filterData, converted))))
  }

  /**
   * The query document of the detail-data endpoint for a collection and a
   * raw filter.  The filter is upper-cased before anything else.
   */
  function Translate(q: string, rawFilter: string): (p: Filter)
    ensures rawFilter == [] ==> p == DefaultView(q)
    ensures rawFilter != [] ==> (p.MatchAll? <==> q !in SearchableCollections)
    ensures rawFilter != [] && q in SearchableCollections ==> p.AnyOf?
  {
    var filterData := Upper(rawFilter);
    UpperKeepsDigits(rawFilter);
    if filterData == [] then DefaultView(q)
    else OrFilter(q, filterData, FilterValue(filterData))
  }

  /** isAllDigits: whether every character is a decimal digit (true for the empty text). */
  method IsAllDigits(s: string) returns (b: bool)
    ensures b <==> AllDigits(s)
  {
    for i := 0 to |s|
      invariant forall j :: 0 <= j < i ==> IsDigit(s[j])
    {
      if !IsDigit(s[i]) {
        return false;
      }
    }
    return true;
  }

  /** What the detail-data endpoint sends to the store for a request. */
  datatype StoreQuery = StoreQuery(collection: string, filter: Filter, limit: nat, normalize: bool)

  /**
   * The request half of the detail-data endpoint: a missing collection name
   * is rejected (status 400, None here); otherwise the store is asked for at
   * most ten documents of the collection matching the translated filter,
   * and the civil-registry collection is marked for normalization.
   */
  method DetailRequest(q: string, rawFilter: string) returns (r: Option<StoreQuery>)
    ensures r.None? <==> q == []
    ensures r.Some? ==> r.value == StoreQuery(q, Translate(q, rawFilter), PageLimit, q == "dukcapil")
  {
    var filterData := Upper(rawFilter);
    UpperKeepsDigits(rawFilter);
    if q == [] {
      return None;
    }
    var filter: Filter;
    if filterData == [] {
      filter := DefaultView(q);
    } else {
      var digits := IsAllDigits(filterData);
      var converted := if digits then IntV(AtoiDigits(filterData)) else StrV(filterData);
      filter := OrFilter(q, filterData, converted);
    }
    return Some(StoreQuery(q, filter, PageLimit, q == "dukcapil"));
  }

  // ---------------------------------------------------------------------
  // Properties of the translation

  /** Only the letter case of the filter is ignored: upper-casing it first changes nothing. */
  lemma TranslateIgnoresCase(q: string, rawFilter: string)
    ensures Translate(q, Upper(rawFilter)) == Translate(q, rawFilter)
  {
    UpperIdempotent(rawFilter);
    UpperKeepsDigits(rawFilter);
    UpperKeepsDigits(Upper(rawFilter));
  }

  /** The fields compared against the filter text rather than its converted form. */
  predicate TextField(q: string, field: string)
  {
    (q == "fithub" || q == "rupa2_customer") && field == "phone"
  }

  /** The one field compared against the filter text followed by a space. */
  predicate PaddedField(q: string, field: string)
  {
    q == "vehicle" && field == "NAMA"
  }

  /** The operand of every searchable field agrees with the two exception lists. */
  lemma OperandExceptions(q: string, i: int)
    requires 0 <= i < |OrRules(q)|
    ensures OrRules(q)[i].operand == Text <==> TextField(q, OrRules(q)[i].field)
    ensures OrRules(q)[i].operand == PaddedText <==> PaddedField(q, OrRules(q)[i].field)
  {
  }

  /**
   * An all-digit filter is compared as one integer (its Atoi value) against
   * every searchable field, except the two phone fields that get the text
   * and the vehicle owner's name that gets the text plus a space.
   */
  lemma DigitFilterIsInteger(q: string, rawFilter: string)
    requires rawFilter != [] && AllDigits(rawFilter) && q in SearchableCollections
    ensures Translate(q, rawFilter).AnyOf?
    ensures forall a :: a in Translate(q, rawFilter).alternatives ==>
      a.value == (if TextField(q, a.field) then StrV(rawFilter)
                  else if PaddedField(q, a.field) then StrV(rawFilter + " ")
                  else IntV(AtoiDigits(rawFilter)))
  {
    UpperKeepsDigits(rawFilter);
    var alts := Translate(q, rawFilter).alternatives;
    forall a | a in alts
      ensures a.value == (if TextField(q, a.field) then StrV(rawFilter)
                          else if PaddedField(q, a.field) then StrV(rawFilter + " ")
                          else IntV(AtoiDigits(rawFilter)))
    {
      var i :| 0 <= i < |alts| && alts[i] == a;
      OperandExceptions(q, i);
    }
  }

  /**
   * A filter that is not all digits is compared as upper-cased text against
   * every searchable field (plus a space for the vehicle owner's name).
   */
  lemma TextFilterIsUpperText(q: string, rawFilter: string)
    requires !AllDigits(rawFilter) && q in SearchableCollections
    ensures Translate(q, rawFilter).AnyOf?
    ensures forall a :: a in Translate(q, rawFilter).alternatives ==>
      a.value == (if PaddedField(q, a.field) then StrV(Upper(rawFilter) + " ") else StrV(Upper(rawFilter)))
  {
    UpperKeepsDigits(rawFilter);
    var alts := Translate(q, rawFilter).alternatives;
    forall a | a in alts
      ensures a.value == (if PaddedField(q, a.field) then StrV(Upper(rawFilter) + " ") else StrV(Upper(rawFilter)))
    {
      var i :| 0 <= i < |alts| && alts[i] == a;
      OperandExceptions(q, i);
    }
  }

  /** No text compared against a searchable field contains a lower-case letter. */
  lemma SearchTextIsUpperCase(q: string, rawFilter: string)
    ensures Translate(q, rawFilter).AnyOf? ==>
      forall a :: a in Translate(q, rawFilter).alternatives && a.value.StrV? ==> IsUpper(a.value.s)
  {
    UpperKeepsDigits(rawFilter);
    var f := Upper(rawFilter);
    var p := Translate(q, rawFilter);
    if p.AnyOf? {
      forall a | a in p.alternatives && a.value.StrV?
        ensures IsUpper(a.value.s)
      {
        var i :| 0 <= i < |p.alternatives| && p.alternatives[i] == a;
        assert IsUpper(f + " ");
      }
    }
  }

  /** The empty filter on a collection with and without a default view, and an unknown collection. */
  lemma DefaultExamples()
    ensures Translate("bankraya_pinang_flexi", "") == AllOf([FieldConds("Tagihan Pokok", [Gt(IntV(10000000))])])
    ensures Translate("gojek_customer", "") == MatchAll
    ensures Translate("unknown", "budi") == MatchAll
  {
  }

  /** A name is searched upper-cased, as text, in both fields of the civil registry. */
  lemma NameExample()
    ensures Translate("dukcapil", "budi") == AnyOf([FieldEq("NIK", StrV("BUDI")), FieldEq("NAMA_LGKP", StrV("BUDI"))])
  {
    assert Upper("budi") == "BUDI";
    var alts := Translate("dukcapil", "budi").alternatives;
    assert alts[0] == FieldEq("NIK", StrV("BUDI")) && alts[1] == FieldEq("NAMA_LGKP", StrV("BUDI"));
  }

  /** A number with a leading zero loses it everywhere except in the fitness club's phone field. */
  lemma PhoneExample()
    ensures Translate("fithub", "0812") ==
      AnyOf([FieldEq("name", IntV(812)), FieldEq("email", IntV(812)), FieldEq("phone", StrV("0812"))])
  {
    UpperKeepsDigits("0812");
    assert DigitsValue("0812") == 812 by {
      assert "0812"[..3] == "081" && "081"[..2] == "08" && "08"[..1] == "0";
    }
    var alts := Translate("fithub", "0812").alternatives;
    assert alts[0].value == IntV(812) && alts[2].value == StrV("0812");
  }
}
