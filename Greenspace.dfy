/** The "My Greenspace" view (src/app/greenspace/page.tsx): it keeps a local
    copy of the user's favorites and patches it after each successful call
    to the favorites endpoint, instead of reloading it.

    The fetch itself is not modelled: each handler receives the outcome of
    its request as an input. The methods change the component's state the
    way `setFavorites`, `setShowForm` and `setEditingId` do. */
module Greenspace {
  import opened Wrappers
  import opened Seqs
  import opened Types
  import FavoritesApi

  /** A favorite as the view holds it. */
  datatype Favorite = Favorite(
    id: string,
    strainId: string,
    strainName: string,
    consumptionType: Option<string>,
    dispensary: Option<string>)

  /** What the POST request to the favorites endpoint produced. */
  datatype AddOutcome = AddFailed | Added(insertedId: string)

  /** `[...favorites, entry]` */
  function Appended(favorites: seq<Favorite>, entry: Favorite): (r: seq<Favorite>)
    ensures |r| == |favorites| + 1
    ensures r[..|favorites|] == favorites && r[|favorites|] == entry
  {
    favorites + [entry]
  }

  /** `favorites.filter((fav) => fav._id !== id)` */
  function Removed(favorites: seq<Favorite>, id: string): (r: seq<Favorite>)
    ensures forall f :: f in r <==> f in favorites && f.id != id
  {
    Filter(favorites, (f: Favorite) => f.id != id)
  }

  /** The entry with the edited fields; `...fav` keeps its `_id`. */
  function Edited(f: Favorite, strain: Strain, consumptionType: string, dispensary: string): (r: Favorite)
    ensures r.id == f.id
    ensures r.strainId == strain.id && r.strainName == strain.strainName
    ensures r.consumptionType == Some(consumptionType) && r.dispensary == Some(dispensary)
  {
    f.(strainId := strain.id, strainName := strain.strainName,
       consumptionType := Some(consumptionType), dispensary := Some(dispensary))
  }

  /** `favorites.map((fav) => fav._id === id ? { ...fav, ... } : fav)` */
  function Replaced(favorites: seq<Favorite>, id: string, strain: Strain,
                    consumptionType: string, dispensary: string): (r: seq<Favorite>)
    ensures |r| == |favorites|
    ensures forall i :: 0 <= i < |favorites| ==>
      r[i] == if favorites[i].id == id then Edited(favorites[i], strain, consumptionType, dispensary) else favorites[i]
  {
    if favorites == [] then []
    else
      var head := if favorites[0].id == id then Edited(favorites[0], strain, consumptionType, dispensary) else favorites[0];
      [head] + Replaced(favorites[1..], id, strain, consumptionType, dispensary)
  }

  /** Removal keeps every entry with another id, as often as it occurred,
      in its original order. */
  lemma RemovedKeepsOrder(favorites: seq<Favorite>, id: string)
    ensures IsSubsequence(Removed(favorites, id), favorites)
    ensures forall f :: multiset(Removed(favorites, id))[f] == if f.id != id then multiset(favorites)[f] else 0
  {
    FilterIsSubsequence(favorites, (f: Favorite) => f.id != id);
    FilterMultiplicity(favorites, (f: Favorite) => f.id != id);
  }

  /** Removing the id of an entry that was just appended restores the list,
      when no earlier entry had that id. */
  lemma {:induction false} RemoveUndoesAppend(favorites: seq<Favorite>, entry: Favorite)
    requires forall f :: f in favorites ==> f.id != entry.id
    ensures Removed(Appended(favorites, entry), entry.id) == favorites
  {
    var keep := (f: Favorite) => f.id != entry.id;
    FilterAppend(favorites, entry, keep);
    FilterAll(favorites, keep);
  }

  /** Removing an id after editing it is the same as removing it at once:
      an edit touches no entry with another id. */
  lemma {:induction false} RemoveAfterReplace(favorites: seq<Favorite>, id: string, strain: Strain,
                                              consumptionType: string, dispensary: string)
    ensures Removed(Replaced(favorites, id, strain, consumptionType, dispensary), id) == Removed(favorites, id)
  {
    if favorites != [] {
      RemoveAfterReplace(favorites[1..], id, strain, consumptionType, dispensary);
      var r := Replaced(favorites, id, strain, consumptionType, dispensary);
      assert r[1..] == Replaced(favorites[1..], id, strain, consumptionType, dispensary);
      assert r[0].id == favorites[0].id;
      assert favorites[0].id != id ==> r[0] == favorites[0];
    }
  }

  /** Editing with the same values twice is the same as editing once. */
  lemma ReplaceIdempotent(favorites: seq<Favorite>, id: string, strain: Strain,
                          consumptionType: string, dispensary: string)
    ensures var once := Replaced(favorites, id, strain, consumptionType, dispensary);
      Replaced(once, id, strain, consumptionType, dispensary) == once
  {
  }

  /** The entry the view appends after a successful POST holds what the
      endpoint stored, except that an empty consumption type or dispensary
      is kept as "" by the view and stored as null by the endpoint. */
  lemma AppendedEntryMatchesStoredRecord(strain: Strain, consumptionType: string, dispensary: string,
                                         email: string, insertedId: string)
    requires strain.id != "" && strain.strainName != ""
    ensures
      var body := FavoritesApi.Body(None, Some(strain.id), Some(strain.strainName), Some(consumptionType), Some(dispensary));
      var stored := FavoritesApi.NewFavorite(email, body);
      var entry := Favorite(insertedId, strain.id, strain.strainName, Some(consumptionType), Some(dispensary));
      && stored.strainId == entry.strainId && stored.strainName == entry.strainName
      && stored.consumptionType == FavoritesApi.OrNull(entry.consumptionType)
      && stored.dispensary == FavoritesApi.OrNull(entry.dispensary)
      && (consumptionType == "" <==> stored.consumptionType != entry.consumptionType)
  {
  }

  /** The component's state. */
  class GreenspacePage {
    var favorites: seq<Favorite>
    var showForm: bool
    var editingId: Option<string>

    /** The initial `useState` values. */
    constructor ()
      ensures favorites == [] && !showForm && editingId.None?
    {
      favorites, showForm, editingId := [], false, None;
    }

    /** The effect that loads the user's favorites once signed in. */
    method Load(fetched: seq<Favorite>)
      modifies this`favorites
      ensures favorites == fetched
    {
      favorites := fetched;
    }

    /** `addFavorite`: on success, append the new entry and close the form;
        otherwise change nothing. Returns the body it posts. */
    method AddFavorite(strain: Strain, consumptionType: string, dispensary: string, outcome: AddOutcome)
      returns (request: FavoritesApi.Body)
      modifies this`favorites, this`showForm
      ensures request == FavoritesApi.Body(None, Some(strain.id), Some(strain.strainName), Some(consumptionType), Some(dispensary))
      ensures outcome.AddFailed? ==> favorites == old(favorites) && showForm == old(showForm)
      ensures outcome.Added? ==>
        && favorites == Appended(old(favorites), Favorite(outcome.insertedId, strain.id, strain.strainName, Some(consumptionType), Some(dispensary)))
        && !showForm
    {
      request := FavoritesApi.Body(None, Some(strain.id), Some(strain.strainName), Some(consumptionType), Some(dispensary));
      if outcome.Added? {
        favorites := favorites + [Favorite(outcome.insertedId, strain.id, strain.strainName, Some(consumptionType), Some(dispensary))];
        showForm := false;
      }
    }

    /** `deleteFavorite`: on success, drop every entry with this id. */
    method DeleteFavorite(id: string, ok: bool)
      modifies this`favorites
      ensures favorites == if ok then Removed(old(favorites), id) else old(favorites)
    {
      if ok {
        favorites := Removed(favorites, id);
      }
    }

    /** `updateFavorite`: on success, edit every entry with this id and
        leave editing mode. Returns the body it sends. */
    method UpdateFavorite(id: string, strain: Strain, consumptionType: string, dispensary: string, ok: bool)
      returns (request: FavoritesApi.Body)
      modifies this`favorites, this`editingId
      ensures request == FavoritesApi.Body(Some(id), Some(strain.id), Some(strain.strainName), Some(consumptionType), Some(dispensary))
      ensures !ok ==> favorites == old(favorites) && editingId == old(editingId)
      ensures ok ==> favorites == Replaced(old(favorites), id, strain, consumptionType, dispensary) && editingId.None?
    {
      request := FavoritesApi.Body(Some(id), Some(strain.id), Some(strain.strainName), Some(consumptionType), Some(dispensary));
      if ok {
        favorites := Replaced(favorites, id, strain, consumptionType, dispensary);
        editingId := None;
      }
    }

    /** The "Add New"/"Cancel" button. */
    method ToggleForm()
      modifies this`showForm
      ensures showForm == !old(showForm)
    {
      showForm := !showForm;
    }

    /** The form's own cancel callback. */
    method CloseForm()
      modifies this`showForm
      ensures !showForm
    {
      showForm := false;
    }

    /** The "Edit" button of one entry. */
    method StartEditing(id: string)
      modifies this`editingId
      ensures editingId == Some(id)
    {
      editingId := Some(id);
    }

    /** The edit form's cancel callback. */
    method CancelEditing()
      modifies this`editingId
      ensures editingId.None?
    {
      editingId := None;
    }
  }
}
