/** The clinic directory: specialty and text filtering, the detail view's similar clinics,
    its dial string, and the card's address snippet. */
module Services {
  import opened Wrappers
  import opened Text
  import opened Seqs

  /** A clinic record as fetched, with its specialties and accepted insurance joined in. */
  datatype Clinic = Clinic(
    id: int, name: string, description: string, imageUrl: string, location: string,
    distance: string, rating: real, reviewCount: int, acceptingNew: bool, phone: string,
    address: string, website: string, hours: string, specialties: seq<string>,
    insuranceAccepted: seq<string>, createdAt: Option<string>, updatedAt: Option<string>)

  /** The sentinel specialty that disables the specialty test. */
  const AllSpecialties := "all"

  /** The value the 'All Clinics' and 'Clear filters' buttons store. */
  const AllButtonValue := "All"

  /** The specialty test: the sentinel, or one of the clinic's specialties. */
  predicate MatchesSpecialty(c: Clinic, active: string)
  {
    active == AllSpecialties || active in c.specialties
  }

  /** The text test: the lower-cased query occurs in the lower-cased name, description,
      or one of the specialties. */
  predicate MatchesSearch(c: Clinic, query: string)
  {
    var q := Lower(query);
    || Includes(Lower(c.name), q)
    || Includes(Lower(c.description), q)
    || exists s :: s in c.specialties && Includes(Lower(s), q)
  }

  /** `filteredClinics`. */
  function FilteredClinics(clinics: seq<Clinic>, active: string, query: string): (r: seq<Clinic>)
    ensures forall i :: 0 <= i < |r| ==> r[i] in clinics && MatchesSpecialty(r[i], active) && MatchesSearch(r[i], query)
    ensures forall i :: 0 <= i < |clinics| && MatchesSpecialty(clinics[i], active) && MatchesSearch(clinics[i], query)
                        ==> clinics[i] in r
  {
    Filter(clinics, c => MatchesSpecialty(c, active) && MatchesSearch(c, query))
  }

  /** The directory keeps clinics in their fetched order; with the sentinel specialty and
      an empty query it keeps them all. */
  lemma FilteredClinicsOrder(clinics: seq<Clinic>, active: string, query: string)
    ensures IsSubsequence(FilteredClinics(clinics, active, query), clinics)
    ensures active == AllSpecialties && query == "" ==> FilteredClinics(clinics, active, query) == clinics
  {
    var p := c => MatchesSpecialty(c, active) && MatchesSearch(c, query);
    FilterIsSubsequence(clinics, p);
    if active == AllSpecialties && query == "" {
      forall i | 0 <= i < |clinics| ensures p(clinics[i]) {
        IncludesEmpty(Lower(clinics[i].name));
      }
      FilterKeepsAll(clinics, p);
    }
  }

  /** After 'All Clinics' or 'Clear filters' the stored specialty is "All", which is not the
      sentinel: only a clinic listing a specialty literally named "All" passes. */
  lemma AllButtonIsNotSentinel(c: Clinic)
    ensures AllButtonValue != AllSpecialties
    ensures MatchesSpecialty(c, AllButtonValue) <==> "All" in c.specialties
  {
    assert AllButtonValue[0] != AllSpecialties[0];
  }

  /** The specialty buttons: the sentinel, then the fetched names as they came. */
  function SpecialtyOptions(fetched: seq<string>): (r: seq<string>)
    ensures |r| == |fetched| + 1 && r[0] == AllSpecialties && r[1..] == fetched
  {
    [AllSpecialties] + fetched
  }

  /** `clinic.specialties.some(s => selected.specialties.includes(s))`. */
  predicate SharesSpecialty(c: Clinic, selected: Clinic)
  {
    exists s :: s in c.specialties && s in selected.specialties
  }

  /** A clinic other than the selected one that shares a specialty with it. */
  predicate IsSimilar(c: Clinic, selected: Clinic)
  {
    c.id != selected.id && SharesSpecialty(c, selected)
  }

  /** The 'Similar Clinics' list: other clinics sharing a specialty, the first three. */
  function SimilarClinics(clinics: seq<Clinic>, selected: Clinic): (r: seq<Clinic>)
    ensures |r| <= 3
    ensures forall i :: 0 <= i < |r| ==> r[i] in clinics && IsSimilar(r[i], selected)
  {
    var others := Filter(clinics, (c: Clinic) => c.id != selected.id);
    var sharing := Filter(others, (c: Clinic) => SharesSpecialty(c, selected));
    Take(sharing, 3)
  }

  /** All clinics similar to the selected one, in directory order. */
  function AllSimilar(clinics: seq<Clinic>, selected: Clinic): seq<Clinic>
  {
    Filter(clinics, (c: Clinic) => IsSimilar(c, selected))
  }

  /** The id filter followed by the specialty filter is the similarity filter. */
  lemma SimilarIsTakeOfAllSimilar(clinics: seq<Clinic>, selected: Clinic)
    ensures SimilarClinics(clinics, selected) == Take(AllSimilar(clinics, selected), 3)
  {
    FilterTwice(clinics, (c: Clinic) => c.id != selected.id, (c: Clinic) => SharesSpecialty(c, selected),
                (c: Clinic) => IsSimilar(c, selected));
  }

  /** The similar clinics are the first at most three similar ones, in directory order. */
  lemma SimilarClinicsSpec(clinics: seq<Clinic>, selected: Clinic)
    ensures var r, all := SimilarClinics(clinics, selected), AllSimilar(clinics, selected);
      && r <= all
      && |r| == (if |all| < 3 then |all| else 3)
      && (forall i :: 0 <= i < |r| ==> IsSimilar(r[i], selected) && r[i] in clinics)
      && IsSubsequence(r, clinics)
  {
    SimilarIsTakeOfAllSimilar(clinics, selected);
    var r, all := SimilarClinics(clinics, selected), AllSimilar(clinics, selected);
    assert r <= all;
    FilterIsSubsequence(clinics, (c: Clinic) => IsSimilar(c, selected));
    PrefixIsSubsequence(r, all);
    SubsequenceTrans(r, all, clinics);
    forall i | 0 <= i < |r| ensures IsSimilar(r[i], selected) && r[i] in clinics {
      assert r[i] == all[i];
    }
  }

  predicate IsDigit(ch: char)
  {
    '0' <= ch <= '9'
  }

  /** `phone.replace(/[^0-9]/g, '')`, the number dialled by the `tel:` links. */
  function DialString(phone: string): (r: string)
    ensures forall i :: 0 <= i < |r| ==> IsDigit(r[i])
  {
    Filter(phone, IsDigit)
  }

  /** The dial string is the digits of the phone, in order; on text that is already a
      dial string it changes nothing. */
  lemma DialStringSpec(phone: string, a: string, b: string)
    ensures IsSubsequence(DialString(phone), phone)
    ensures forall i :: 0 <= i < |phone| && IsDigit(phone[i]) ==> phone[i] in DialString(phone)
    ensures DialString(a + b) == DialString(a) + DialString(b)
    ensures DialString(DialString(phone)) == DialString(phone)
  {
    FilterIsSubsequence(phone, IsDigit);
    FilterConcat(a, b, IsDigit);
    FilterIdempotent(phone, IsDigit);
  }

  /** `address.substring(0, address.indexOf(','))`, the snippet on a directory card: the text
      before the first comma, and empty when there is no comma (`substring(0, -1)`). */
  function AddressSnippet(address: string): (r: string)
    ensures ',' in address ==> r == BeforeFirst(address, ',')
    ensures ',' !in address ==> r == ""
  {
    var before := BeforeFirst(address, ',');
    assert address[..|before|] == before;
    Substring(address, 0, IndexOf(address, ','))
  }

  /** The directory panel's state. */
  class ServicesPanel {
    var activeSpecialty: string
    var searchQuery: string
    var selectedClinic: Option<Clinic>
    var showBookingModal: bool
    var loading: bool
    var clinics: seq<Clinic>
    var allSpecialties: seq<string>

    constructor ()
      ensures activeSpecialty == AllSpecialties && searchQuery == "" && selectedClinic == None
      ensures !showBookingModal && loading && clinics == [] && allSpecialties == [AllSpecialties]
    {
      activeSpecialty, searchQuery, selectedClinic := AllSpecialties, "", None;
      showBookingModal, loading, clinics, allSpecialties := false, true, [], [AllSpecialties];
    }

    /** The clinics the directory grid shows. */
    function Shown(): seq<Clinic>
      reads this
    {
      FilteredClinics(clinics, activeSpecialty, searchQuery)
    }

    /** The fetch finished: the joined clinics and the specialty names are stored
        (`fetched` is `None` when a query failed, which leaves both lists as they were). */
    method DataFetched(fetched: Option<(seq<Clinic>, seq<string>)>)
      modifies this
      ensures !loading
      ensures fetched.Some? ==> clinics == fetched.value.0 && allSpecialties == SpecialtyOptions(fetched.value.1)
      ensures fetched.None? ==> clinics == old(clinics) && allSpecialties == old(allSpecialties)
      ensures activeSpecialty == old(activeSpecialty) && searchQuery == old(searchQuery)
      ensures selectedClinic == old(selectedClinic) && showBookingModal == old(showBookingModal)
    {
      if fetched.Some? {
        clinics := fetched.value.0;
        allSpecialties := SpecialtyOptions(fetched.value.1);
      }
      loading := false;
    }

    /** Typing in the search box. */
    method SetSearchQuery(q: string)
      modifies this
      ensures searchQuery == q && activeSpecialty == old(activeSpecialty) && clinics == old(clinics)
      ensures selectedClinic == old(selectedClinic) && loading == old(loading)
      ensures showBookingModal == old(showBookingModal) && allSpecialties == old(allSpecialties)
    {
      searchQuery := q;
    }

    /** A specialty button (one per entry of `allSpecialties`). */
    method SelectSpecialty(s: string)
      modifies this
      ensures activeSpecialty == s && searchQuery == old(searchQuery) && clinics == old(clinics)
      ensures selectedClinic == old(selectedClinic) && loading == old(loading)
      ensures showBookingModal == old(showBookingModal) && allSpecialties == old(allSpecialties)
    {
      activeSpecialty := s;
    }

    /** The 'All Clinics' button. */
    method ShowAllClinics()
      modifies this
      ensures activeSpecialty == AllButtonValue && searchQuery == old(searchQuery) && clinics == old(clinics)
      ensures selectedClinic == old(selectedClinic) && loading == old(loading)
      ensures showBookingModal == old(showBookingModal) && allSpecialties == old(allSpecialties)
      ensures forall c :: MatchesSpecialty(c, activeSpecialty) <==> "All" in c.specialties
    {
      activeSpecialty := AllButtonValue;
      forall c ensures MatchesSpecialty(c, activeSpecialty) <==> "All" in c.specialties {
        AllButtonIsNotSentinel(c);
      }
    }

    /** The 'Clear filters' button under an empty grid. */
    method ClearFilters()
      modifies this
      ensures activeSpecialty == AllButtonValue && searchQuery == "" && clinics == old(clinics)
      ensures selectedClinic == old(selectedClinic) && loading == old(loading)
      ensures showBookingModal == old(showBookingModal) && allSpecialties == old(allSpecialties)
      ensures forall c :: MatchesSpecialty(c, activeSpecialty) <==> "All" in c.specialties
    {
      activeSpecialty, searchQuery := AllButtonValue, "";
      forall c ensures MatchesSpecialty(c, activeSpecialty) <==> "All" in c.specialties {
        AllButtonIsNotSentinel(c);
      }
    }

    /** Opening a clinic's detail view (from the grid or from the similar clinics). */
    method ViewClinicDetails(c: Clinic)
      modifies this
      ensures selectedClinic == Some(c) && activeSpecialty == old(activeSpecialty)
      ensures searchQuery == old(searchQuery) && clinics == old(clinics) && showBookingModal == old(showBookingModal)
      ensures loading == old(loading) && allSpecialties == old(allSpecialties)
    {
      selectedClinic := Some(c);
    }

    /** 'Back to clinics'. */
    method CloseClinicDetails()
      modifies this
      ensures selectedClinic == None && activeSpecialty == old(activeSpecialty)
      ensures searchQuery == old(searchQuery) && clinics == old(clinics) && showBookingModal == old(showBookingModal)
      ensures loading == old(loading) && allSpecialties == old(allSpecialties)
    {
      selectedClinic := None;
    }

    /** 'Book Appointment Online' and the booking modal's close button. */
    method SetBookingModal(open: bool)
      modifies this
      ensures showBookingModal == open && selectedClinic == old(selectedClinic)
      ensures activeSpecialty == old(activeSpecialty) && searchQuery == old(searchQuery) && clinics == old(clinics)
      ensures loading == old(loading) && allSpecialties == old(allSpecialties)
    {
      showBookingModal := open;
    }
  }
}
