/** The "Add New Favorite" form (src/components/StrainForm.tsx): a strain
    search with a suggestion list, a consumption type, a dispensary search
    backed by the places lookup, and a submit that hands the choice to the
    parent view.

    Each `useEffect` is a method the caller runs after the state it depends
    on changed; the 500 ms debounce timer and the loading flag are not
    modelled, and the places request's outcome is an input. */
module StrainForm {
  import opened Wrappers
  import opened Text
  import opened Seqs
  import opened Types

  const MaxSuggestions: nat := 10
  const MinDispensaryQuery: nat := 3

  /** The strain's lower-cased name includes the lower-cased search term. */
  predicate NameMatches(strain: Strain, term: string)
    ensures NameMatches(strain, term) <==> exists i :: OccursAt(Lower(strain.strainName), Lower(term), i)
  {
    ContainsIff(Lower(strain.strainName), Lower(term));
    Contains(Lower(strain.strainName), Lower(term))
  }

  /** The test `filter` applies for a given search term. */
  function MatchesTerm(term: string): Strain -> bool {
    (s: Strain) => NameMatches(s, term)
  }

  /** The suggestion list: the first ten strains whose name matches, in
      catalogue order (a prefix of the filtered catalogue). */
  function Suggestions(strains: seq<Strain>, term: string): (r: seq<Strain>)
    ensures |r| <= MaxSuggestions
    ensures forall s :: s in r ==> s in strains && NameMatches(s, term)
    ensures r <= Filter(strains, MatchesTerm(term))
    ensures var n := |Filter(strains, MatchesTerm(term))|; |r| == if n < MaxSuggestions then n else MaxSuggestions
  {
    Take(Filter(strains, MatchesTerm(term)), MaxSuggestions)
  }

  /** The suggestions keep catalogue order, and when at most ten strains
      match, every matching strain is suggested. */
  lemma SuggestionsComplete(strains: seq<Strain>, term: string)
    ensures IsSubsequence(Suggestions(strains, term), strains)
    ensures |Filter(strains, MatchesTerm(term))| <= MaxSuggestions ==>
      forall s :: s in strains && NameMatches(s, term) ==> s in Suggestions(strains, term)
  {
    FilterTakeIsSubsequence(strains, MatchesTerm(term), MaxSuggestions);
  }

  /** Matching ignores ASCII case in both the name and the term. */
  lemma MatchIgnoresCase(strain: Strain, term: string)
    ensures NameMatches(strain, term) == NameMatches(strain, Lower(term))
    ensures NameMatches(strain, term) == NameMatches(strain.(strainName := Lower(strain.strainName)), term)
  {
    LowerIdempotent(term);
    LowerIdempotent(strain.strainName);
  }

  /** An empty search term suggests the first min(10, n) strains. */
  lemma EmptyTermSuggestsFirstTen(strains: seq<Strain>)
    ensures Suggestions(strains, "") == Take(strains, MaxSuggestions)
  {
    assert forall s :: s in strains ==> NameMatches(s, "");
    FilterAll(strains, MatchesTerm(""));
  }

  /** What `handleSubmit` passes to `onAddFavorite`. */
  datatype Submission = Submission(strain: Strain, consumptionType: string, dispensary: string)

  /** What the request to the places lookup produced. */
  datatype SearchOutcome =
    | NotOk                                    // `!response.ok`
    | Threw                                    // fetch or JSON decoding failed
    | Answered(results: Option<seq<Place>>)    // `data.results`, possibly absent

  /** The component's state. */
  class StrainFormState {
    var searchTerm: string
    var filteredStrains: seq<Strain>
    var selectedStrain: Option<Strain>
    var consumptionType: string
    var dispensarySearch: string
    var dispensaryResults: seq<Place>
    var selectedDispensary: string
    var showDispensaryResults: bool

    /** The initial `useState` values. */
    constructor ()
      ensures searchTerm == "" && filteredStrains == [] && selectedStrain.None?
      ensures consumptionType == "" && dispensarySearch == "" && dispensaryResults == []
      ensures selectedDispensary == "" && !showDispensaryResults
    {
      searchTerm, filteredStrains, selectedStrain := "", [], None;
      consumptionType, dispensarySearch, dispensaryResults := "", "", [];
      selectedDispensary, showDispensaryResults := "", false;
    }

    /** The strain input's `onChange`. */
    method SetSearchTerm(term: string)
      modifies this`searchTerm
      ensures searchTerm == term
    {
      searchTerm := term;
    }

    /** The consumption type `select`'s `onChange`. */
    method SetConsumptionType(t: string)
      modifies this`consumptionType
      ensures consumptionType == t
    {
      consumptionType := t;
    }

    /** The dispensary input's `onChange`. */
    method SetDispensarySearch(text: string)
      modifies this`dispensarySearch
      ensures dispensarySearch == text
    {
      dispensarySearch := text;
    }

    /** The effect on `[searchTerm, strains]`. */
    method FilterStrainsEffect(strains: seq<Strain>)
      modifies this`filteredStrains
      ensures filteredStrains == Suggestions(strains, searchTerm)
    {
      var matching := Filter(strains, MatchesTerm(searchTerm));
      filteredStrains := Take(matching, MaxSuggestions);
    }

    /** `searchDispensaries(query)`: a blank query clears and hides the
        results without a request; otherwise the request is made and an
        ok answer shows its results (`data.results || []`). */
    method SearchDispensaries(query: string, outcome: SearchOutcome) returns (requested: bool)
      modifies this`dispensaryResults, this`showDispensaryResults
      ensures requested <==> !AllWhiteSpace(query)
      ensures !requested ==> dispensaryResults == [] && !showDispensaryResults
      ensures requested && outcome.Answered? ==>
        dispensaryResults == outcome.results.GetOr([]) && showDispensaryResults
      ensures requested && !outcome.Answered? ==>
        dispensaryResults == old(dispensaryResults) && showDispensaryResults == old(showDispensaryResults)
    {
      TrimEmptyIff(query);
      if Trim(query) == "" {
        dispensaryResults, showDispensaryResults := [], false;
        return false;
      }
      requested := true;
      if outcome.Answered? {
        dispensaryResults := outcome.results.GetOr([]);
        showDispensaryResults := true;
      }
    }

    /** The effect on `dispensarySearch`: three characters or more start a
        (debounced) search, fewer clear and hide the results. */
    method DispensarySearchEffect(outcome: SearchOutcome) returns (requested: bool)
      modifies this`dispensaryResults, this`showDispensaryResults
      ensures |dispensarySearch| < MinDispensaryQuery ==>
        !requested && dispensaryResults == [] && !showDispensaryResults
      ensures requested <==> |dispensarySearch| >= MinDispensaryQuery && !AllWhiteSpace(dispensarySearch)
      ensures !requested ==> dispensaryResults == [] && !showDispensaryResults
      ensures requested && outcome.Answered? ==>
        dispensaryResults == outcome.results.GetOr([]) && showDispensaryResults
      ensures requested && !outcome.Answered? ==>
        dispensaryResults == old(dispensaryResults) && showDispensaryResults == old(showDispensaryResults)
    {
      if |dispensarySearch| >= MinDispensaryQuery {
        requested := SearchDispensaries(dispensarySearch, outcome);
      } else {
        dispensaryResults, showDispensaryResults := [], false;
        requested := false;
      }
    }

    /** The submit button is enabled only once a strain is selected. */
    predicate SubmitEnabled()
      reads this
      ensures SubmitEnabled() <==> selectedStrain != None
    {
      selectedStrain.Some?
    }

    /** `handleSubmit`: calls `onAddFavorite` exactly when a strain is
        selected, with the current type and dispensary. */
    method HandleSubmit() returns (call: Option<Submission>)
      ensures call.Some? <==> SubmitEnabled()
      ensures call.Some? ==> call.value == Submission(selectedStrain.value, consumptionType, selectedDispensary)
    {
      if selectedStrain.Some? {
        call := Some(Submission(selectedStrain.value, consumptionType, selectedDispensary));
      } else {
        call := None;
      }
    }

    /** `handleStrainSelect` */
    method HandleStrainSelect(strain: Strain)
      modifies this`selectedStrain, this`searchTerm, this`filteredStrains
      ensures selectedStrain == Some(strain) && searchTerm == strain.strainName && filteredStrains == []
    {
      selectedStrain := Some(strain);
      searchTerm := strain.strainName;
      filteredStrains := [];
    }

    /** `handleDispensarySelect` */
    method HandleDispensarySelect(place: Place)
      modifies this`selectedDispensary, this`dispensarySearch, this`showDispensaryResults
      ensures selectedDispensary == place.name && dispensarySearch == place.name && !showDispensaryResults
    {
      selectedDispensary := place.name;
      dispensarySearch := place.name;
      showDispensaryResults := false;
    }
  }

  /** Selecting a strain and then submitting hands exactly that strain, the
      current type and the current dispensary to the parent. When the
      selection changes the search term, the suggestion effect runs before
      the submit click can happen and lists the strain again (its own name
      matches); when the term already was that name, the effect does not
      run and the suggestions stay cleared. */
  method SelectThenSubmit(form: StrainFormState, strains: seq<Strain>, strain: Strain)
    returns (call: Option<Submission>)
    modifies form
    ensures call == Some(Submission(strain, form.consumptionType, form.selectedDispensary))
    ensures form.selectedStrain == Some(strain) && form.searchTerm == strain.strainName
    ensures form.filteredStrains ==
      if strain.strainName != old(form.searchTerm) then Suggestions(strains, strain.strainName) else []
    ensures strain in strains && strain.strainName != old(form.searchTerm) ==> strain in form.filteredStrains || |form.filteredStrains| == MaxSuggestions
    ensures strain in strains && strain.strainName != old(form.searchTerm) ==> form.filteredStrains != []
    ensures form.consumptionType == old(form.consumptionType)
    ensures form.selectedDispensary == old(form.selectedDispensary)
    ensures form.dispensarySearch == old(form.dispensarySearch)
    ensures form.dispensaryResults == old(form.dispensaryResults)
    ensures form.showDispensaryResults == old(form.showDispensaryResults)
  {
    var typed := form.searchTerm;
    form.HandleStrainSelect(strain);
    if strain.strainName != typed {
      form.FilterStrainsEffect(strains);
      if strain in strains {
        SelectedStrainListedAgain(strains, strain);
      }
    }
    call := form.HandleSubmit();
  }

  /** Choosing a place writes its name into the dispensary input. When that
      changes the input, the dispensary effect runs again: for a name of
      three or more characters that is not blank, a new search is made and
      an ok answer shows the result list that the selection had just
      hidden. When the input already held the name, the effect does not
      run and the list stays hidden. */
  method SelectDispensaryThenEffect(form: StrainFormState, place: Place, outcome: SearchOutcome)
    returns (requested: bool)
    modifies form
    ensures form.selectedDispensary == place.name && form.dispensarySearch == place.name
    ensures requested <==>
      place.name != old(form.dispensarySearch) && |place.name| >= MinDispensaryQuery && !AllWhiteSpace(place.name)
    ensures requested && outcome.Answered? ==>
      form.showDispensaryResults && form.dispensaryResults == outcome.results.GetOr([])
    ensures !(requested && outcome.Answered?) ==> !form.showDispensaryResults
    ensures place.name == old(form.dispensarySearch) ==> form.dispensaryResults == old(form.dispensaryResults)
    ensures place.name != old(form.dispensarySearch) && !requested ==> form.dispensaryResults == []
    ensures requested && !outcome.Answered? ==> form.dispensaryResults == old(form.dispensaryResults)
    ensures form.selectedStrain == old(form.selectedStrain) && form.searchTerm == old(form.searchTerm)
    ensures form.filteredStrains == old(form.filteredStrains) && form.consumptionType == old(form.consumptionType)
  {
    var typed := form.dispensarySearch;
    form.HandleDispensarySelect(place);
    if place.name != typed {
      requested := form.DispensarySearchEffect(outcome);
    } else {
      requested := false;
    }
  }

  /** After a strain is selected the suggestion effect lists that strain
      again (its own name matches), which is why the view hides the list
      while a strain is selected. */
  lemma SelectedStrainMatchesItsName(strain: Strain)
    ensures NameMatches(strain, strain.strainName)
  {
    var n := Lower(strain.strainName);
    assert n[0..|n|] == n;
    assert OccursAt(n, n, 0);
    ContainsIff(n, n);
  }

  /** The suggestion effect run on a selected strain's name lists that strain,
      unless ten earlier catalogue entries already fill the list. */
  lemma SelectedStrainListedAgain(strains: seq<Strain>, strain: Strain)
    requires strain in strains
    ensures Suggestions(strains, strain.strainName) != []
    ensures strain in Suggestions(strains, strain.strainName) || |Suggestions(strains, strain.strainName)| == MaxSuggestions
  {
    SelectedStrainMatchesItsName(strain);
    var matching := Filter(strains, MatchesTerm(strain.strainName));
    assert strain in matching;
    var r := Suggestions(strains, strain.strainName);
    if |matching| <= MaxSuggestions {
      assert r == matching;
    }
  }
}
