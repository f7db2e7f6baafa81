/** The client proofing page: a PIN gate in front of one album, a selection of
    favourite photos under an optional cap, and a one-time submission. */
module ClientProof {
  import opened Common

  /** The album columns the page reads; the PIN column is never fetched. */
  datatype AlbumView = AlbumView(
    id: string,
    title: string,
    coverImageUrl: Option<string>,
    clientEnabled: bool,
    selectionLimit: Option<int>,
    clientSubmittedAt: Option<string>,
    category: string)

  datatype Photo = Photo(id: string, imageUrl: string, title: Option<string>)

  /** The answer of the server-side `verify_album_pin` check for the typed PIN. */
  datatype PinCheck = PinValid | PinInvalid | PinCheckFailed

  datatype ToggleOutcome = ToggleIgnored | LimitReached | Toggled

  datatype SubmitOutcome = NothingSelected | SubmitFailed | SelectionSent

  const PinCheckErrorMessage: string := "Erro ao verificar PIN. Tente novamente."
  const WrongPinMessage: string := "PIN incorreto. Tente novamente."

  // ---------------------------------------------------------------------------
  // The selection rule
  // ---------------------------------------------------------------------------

  /** A truthy `selection_limit` caps the selection; null and 0 mean "no cap". */
  predicate HasCap(limit: Option<int>) {
    limit.Some? && limit.value != 0
  }

  /** One more photo may be added. */
  predicate MayAdd(selected: set<string>, limit: Option<int>) {
    !HasCap(limit) || |selected| < limit.value
  }

  /** What a click on a photo does to the selection: a selected photo is removed
      whatever the cap; an unselected one is added only while the cap allows it. */
  function Toggle(selected: set<string>, limit: Option<int>, photoId: string): (r: set<string>)
    ensures r - {photoId} == selected - {photoId}
    ensures photoId in r <==> photoId !in selected && MayAdd(selected, limit)
  {
    if photoId in selected then selected - {photoId}
    else if MayAdd(selected, limit) then selected + {photoId}
    else selected
  }

  /** A selection that starts within the cap stays within it. */
  lemma ToggleRespectsCap(selected: set<string>, limit: Option<int>, photoId: string)
    requires HasCap(limit) && |selected| <= limit.value
    ensures |Toggle(selected, limit, photoId)| <= limit.value
  {
    var r := Toggle(selected, limit, photoId);
    if photoId in selected {
      assert r == selected - {photoId};
    } else if MayAdd(selected, limit) {
      assert r == selected + {photoId};
    }
  }

  /** A second click on the same photo undoes the first, unless the first removed it and
      the cap no longer lets it back in. */
  lemma ToggleTwice(selected: set<string>, limit: Option<int>, photoId: string)
    requires photoId in selected ==> MayAdd(selected - {photoId}, limit)
    ensures Toggle(Toggle(selected, limit, photoId), limit, photoId) == selected
  {
  }

  /** `photos.filter(photo => !showFavoritesOnly || selectedPhotos.has(photo.id))`. */
  function FavouritesFilter(photos: seq<Photo>, selected: set<string>, favouritesOnly: bool): (r: seq<Photo>)
    ensures |r| <= |photos|
    ensures !favouritesOnly ==> r == photos
    ensures forall p :: p in r <==> p in photos && (!favouritesOnly || p.id in selected)
  {
    if photos == [] then []
    else
      (if !favouritesOnly || photos[0].id in selected then [photos[0]] else [])
      + FavouritesFilter(photos[1..], selected, favouritesOnly)
  }

  /** The favourites view keeps the photos' order: the filter distributes over
      concatenation. */
  lemma {:induction false} FavouritesFilterAppend(a: seq<Photo>, b: seq<Photo>, selected: set<string>, favouritesOnly: bool)
    ensures FavouritesFilter(a + b, selected, favouritesOnly)
         == FavouritesFilter(a, selected, favouritesOnly) + FavouritesFilter(b, selected, favouritesOnly)
  {
    if a == [] {
      assert a + b == b;
    } else {
      assert (a + b)[1..] == a[1..] + b;
      FavouritesFilterAppend(a[1..], b, selected, favouritesOnly);
    }
  }

  // ---------------------------------------------------------------------------
  // The page
  // ---------------------------------------------------------------------------

  /** The page's state. `storedSubmittedAt` is the album's `client_submitted_at` column
      in the store, which the submission writes. */
  class ProofPage {
    const albumId: Option<string>
    var loading: bool
    var notFound: bool
    var album: Option<AlbumView>
    var isUnlocked: bool
    var pin: string
    var pinError: string
    var photos: seq<Photo>
    var selected: set<string>
    var isSubmitting: bool
    var isSubmitted: bool
    var showFavoritesOnly: bool
    var storedSubmittedAt: Option<string>

    /** The gate only opens for a loaded album of a page that has an album id. */
    ghost predicate Valid()
      reads this
    {
      isUnlocked ==> album.Some? && albumId.Some?
    }

    constructor(albumId: Option<string>, storedSubmittedAt: Option<string>)
      ensures Valid()
      ensures this.albumId == albumId && this.storedSubmittedAt == storedSubmittedAt
      ensures loading && !notFound && album == None && !isUnlocked && pin == "" && pinError == ""
      ensures photos == [] && selected == {} && !isSubmitting && !isSubmitted && !showFavoritesOnly
    {
      this.albumId := albumId;
      this.storedSubmittedAt := storedSubmittedAt;
      loading := true;
      notFound := false;
      album := None;
      isUnlocked := false;
      pin := "";
      pinError := "";
      photos := [];
      selected := {};
      isSubmitting := false;
      isSubmitted := false;
      showFavoritesOnly := false;
    }

    /** The limit in force: `album?.selection_limit`. */
    function Limit(): (r: Option<int>)
      reads this
      ensures album.None? ==> r.None?
      ensures album.Some? ==> r == album.value.selectionLimit
    {
      if album.Some? then album.value.selectionLimit else None
    }

    /** The first effect: `row` is the album row with the page's id (`None` when the
        query failed or found nothing). Only a client-enabled album is shown; an album
        that was already submitted opens in the submitted state. */
    method FetchAlbum(row: Option<AlbumView>)
      requires Valid()
      modifies this`album, this`isSubmitted, this`loading, this`notFound
      ensures Valid()
      ensures albumId.None? ==> album == old(album) && isSubmitted == old(isSubmitted)
                                && loading == old(loading) && notFound == old(notFound)
      ensures albumId.Some? && (row.None? || !row.value.clientEnabled) ==>
                notFound && album == old(album) && isSubmitted == old(isSubmitted) && loading == old(loading)
      ensures albumId.Some? && row.Some? && row.value.clientEnabled ==>
                album == row && !loading && notFound == old(notFound)
                && (isSubmitted <==> TruthyOpt(row.value.clientSubmittedAt))
    {
      if albumId.None? {
        return;
      }
      if row.None? || !row.value.clientEnabled {
        notFound := true;
        return;
      }
      album := row;
      isSubmitted := TruthyOpt(row.value.clientSubmittedAt);
      loading := false;
    }

    /** Typing in the PIN field. */
    method EnterPin(text: string)
      modifies this`pin
      ensures pin == text
    {
      pin := text;
    }

    /** `handlePinSubmit`: `check` is the server's verdict on the typed PIN. A valid PIN
        unlocks the album; an invalid one, or a failed check, keeps it locked, shows a
        message and clears the field. */
    method HandlePinSubmit(check: PinCheck)
      requires Valid()
      modifies this`isUnlocked, this`pin, this`pinError
      ensures Valid()
      ensures album.None? || albumId.None? ==>
                isUnlocked == old(isUnlocked) && pin == old(pin) && pinError == ""
      ensures album.Some? && albumId.Some? ==>
                && (isUnlocked <==> old(isUnlocked) || check == PinValid)
                && (check == PinValid ==> pin == old(pin) && pinError == "")
                && (check == PinInvalid ==> pin == "" && pinError == WrongPinMessage)
                && (check == PinCheckFailed ==> pin == "" && pinError == PinCheckErrorMessage)
    {
      pinError := "";
      if album.None? || albumId.None? {
        return;
      }
      match check
      case PinCheckFailed =>
        pinError := PinCheckErrorMessage;
        pin := "";
      case PinValid =>
        isUnlocked := true;
      case PinInvalid =>
        pinError := WrongPinMessage;
        pin := "";
    }

    /** The second effect, which loads the photos (`None` when the query returned no
        data) and the stored selections (`None` when it failed): it does nothing while
        the album is locked. */
    method FetchAfterUnlock(photoRows: Option<seq<Photo>>, selectionRows: Option<seq<string>>)
      requires Valid()
      modifies this`photos, this`selected
      ensures Valid()
      ensures !isUnlocked || albumId.None? ==> photos == old(photos) && selected == old(selected)
      ensures isUnlocked && albumId.Some? ==>
                && photos == (if photoRows.Some? then photoRows.value else [])
                && selected == (if selectionRows.Some? then set id | id in selectionRows.value else old(selected))
    {
      if !isUnlocked || albumId.None? {
        return;
      }
      photos := if photoRows.Some? then photoRows.value else [];
      if selectionRows.Some? {
        selected := set id | id in selectionRows.value;
      }
    }

    /** `togglePhotoSelection`: ignored once submitted; refused, leaving the selection as
        it is, when adding would go past the cap; otherwise the selection changes in
        `photoId` only. (The write to the store that follows is awaited, but its errors are
        ignored.) */
    method TogglePhotoSelection(photoId: string) returns (outcome: ToggleOutcome)
      requires Valid()
      modifies this`selected
      ensures Valid()
      ensures outcome == ToggleIgnored <==> isSubmitted || albumId.None?
      ensures outcome == LimitReached <==>
                !isSubmitted && albumId.Some? && photoId !in old(selected) && !MayAdd(old(selected), Limit())
      ensures outcome == ToggleIgnored ==> selected == old(selected)
      ensures outcome != ToggleIgnored ==> selected == Toggle(old(selected), Limit(), photoId)
      ensures HasCap(Limit()) && |old(selected)| <= Limit().value ==> |selected| <= Limit().value
    {
      if isSubmitted || albumId.None? {
        return ToggleIgnored;
      }
      var isSelected := photoId in selected;
      var limit := Limit();
      if !isSelected && HasCap(limit) && |selected| >= limit.value {
        return LimitReached;
      }
      if HasCap(limit) && |selected| <= limit.value {
        ToggleRespectsCap(selected, limit, photoId);
      }
      selected := Toggle(selected, limit, photoId);
      outcome := Toggled;
    }

    /** `handleSubmit`: an empty selection is refused; otherwise the album's
        `client_submitted_at` is set to `now` (`writeOk` says whether the store accepted
        the update) and, on success only, the page becomes submitted. */
    method HandleSubmit(writeOk: bool, now: string) returns (outcome: SubmitOutcome)
      requires Valid()
      modifies this`isSubmitting, this`isSubmitted, this`storedSubmittedAt
      ensures Valid()
      ensures outcome == NothingSelected <==> albumId.None? || selected == {}
      ensures outcome == NothingSelected ==>
                isSubmitted == old(isSubmitted) && storedSubmittedAt == old(storedSubmittedAt)
                && isSubmitting == old(isSubmitting)
      ensures outcome != NothingSelected ==>
                && !isSubmitting
                && (outcome == SelectionSent <==> writeOk)
                && (isSubmitted <==> old(isSubmitted) || writeOk)
                && storedSubmittedAt == (if writeOk then Some(now) else old(storedSubmittedAt))
    {
      if albumId.None? || |selected| == 0 {
        return NothingSelected;
      }
      isSubmitting := true;
      if !writeOk {
        isSubmitting := false;
        return SubmitFailed;
      }
      storedSubmittedAt := Some(now);
      isSubmitted := true;
      isSubmitting := false;
      outcome := SelectionSent;
    }

    /** The "favourites" button. */
    method ToggleFavouritesView()
      modifies this`showFavoritesOnly
      ensures showFavoritesOnly == !old(showFavoritesOnly)
    {
      showFavoritesOnly := !showFavoritesOnly;
    }

    /** The photos the grid shows. */
    function VisiblePhotos(): (r: seq<Photo>)
      reads this
      ensures !showFavoritesOnly ==> r == photos
      ensures forall p :: p in r <==> p in photos && (!showFavoritesOnly || p.id in selected)
    {
      FavouritesFilter(photos, selected, showFavoritesOnly)
    }
  }

  /** Under a cap of two, clicking three photos selects the first two only. */
  lemma CapOfTwoClicks()
    ensures Toggle({}, Some(2), "P1") == {"P1"}
    ensures Toggle({"P1"}, Some(2), "P2") == {"P1", "P2"}
    ensures Toggle({"P1", "P2"}, Some(2), "P3") == {"P1", "P2"}
  {
    assert |{"P1", "P2"}| == 2;
  }

  /** Opening an album with a cap of two: the right PIN unlocks it and the three
      photos load with nothing selected yet. */
  method OpenCapOfTwoAlbum() returns (page: ProofPage)
    ensures fresh(page) && page.Valid()
    ensures page.albumId == Some("a1") && page.isUnlocked && !page.isSubmitted
    ensures page.selected == {} && page.Limit() == Some(2)
  {
    page := new ProofPage(Some("a1"), None);
    page.FetchAlbum(Some(AlbumView("a1", "Casamento", None, true, Some(2), None, "casamentos")));
    page.EnterPin("4821");
    page.HandlePinSubmit(PinValid);
    // no selection rows are stored yet
    page.FetchAfterUnlock(Some([Photo("P1", "u1", None), Photo("P2", "u2", None), Photo("P3", "u3", None)]), None);
  }

  /** An album with a cap of two: the third photo is refused, the submission goes
      through, and afterwards clicks are ignored. */
  method CapOfTwoScenario()
  {
    var page := OpenCapOfTwoAlbum();
    CapOfTwoClicks();
    var first := page.TogglePhotoSelection("P1");
    var second := page.TogglePhotoSelection("P2");
    assert page.selected == {"P1", "P2"};
    var third := page.TogglePhotoSelection("P3");
    assert third == LimitReached && page.selected == {"P1", "P2"};
    var sent := page.HandleSubmit(true, "2026-01-01T12:00:00Z");
    assert sent == SelectionSent && page.isSubmitted && page.storedSubmittedAt == Some("2026-01-01T12:00:00Z");
    var late := page.TogglePhotoSelection("P1");
    assert late == ToggleIgnored && page.selected == {"P1", "P2"};
  }

  /** A wrong PIN keeps the album locked, and the photos are then never loaded. */
  method WrongPinScenario()
  {
    var page := new ProofPage(Some("a1"), None);
    page.FetchAlbum(Some(AlbumView("a1", "Gestante", None, true, None, None, "gestantes")));
    page.EnterPin("0000");
    page.HandlePinSubmit(PinInvalid);
    assert !page.isUnlocked && page.pin == "" && page.pinError == WrongPinMessage;
    page.FetchAfterUnlock(Some([Photo("P1", "u1", None)]), Some(["P1"]));
    assert page.photos == [] && page.selected == {};
  }
}
