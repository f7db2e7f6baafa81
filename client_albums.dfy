/** The admin screen that shares albums with clients: the access form (enabled flag,
    PIN, selection cap), its validation and conversion to a row update, reopening a
    submitted selection, the summary counters and the share link. */
module ClientAlbums {
  import opened Common
  import opened Portfolio

  /** The dialog's form, all text as the inputs hold it. */
  datatype ConfigForm = ConfigForm(clientEnabled: bool, clientPin: string, selectionLimit: string)

  /** The columns `handleSaveConfig` writes. */
  datatype ConfigPatch = ConfigPatch(clientEnabled: bool, clientPin: Option<string>, selectionLimit: Option<int>)

  datatype SaveOutcome = NoAlbumSelected | PinRequired | SaveFailed | ConfigSaved

  datatype ResetOutcome = ResetCancelled | ResetFailed | SubmissionReopened

  /** An album shared with clients must have a PIN that is not blank. */
  predicate PinInvariant(a: Album) {
    a.clientEnabled ==> a.clientPin.Some? && !Blank(a.clientPin.value)
  }

  /** Every album of a store satisfies the PIN invariant. */
  predicate AllPinsValid(store: map<string, Album>) {
    forall id :: id in store ==> PinInvariant(store[id])
  }

  /** `openConfigDialog`: the form shows the album's settings, a null PIN or a null
      limit as an empty field. */
  function ConfigFormFor(album: Album): (f: ConfigForm)
    ensures f.clientEnabled == album.clientEnabled
    ensures album.clientPin.None? ==> f.clientPin == ""
    ensures album.clientPin.Some? ==> f.clientPin == album.clientPin.value
    ensures f.selectionLimit == "" <==> album.selectionLimit.None?
    ensures album.selectionLimit.Some? ==> ParseInt(f.selectionLimit) == album.selectionLimit
  {
    var limitField := if album.selectionLimit.Some? then IntToString(album.selectionLimit.value) else "";
    assert album.selectionLimit.Some? ==> ParseInt(limitField) == album.selectionLimit by {
      if album.selectionLimit.Some? {
        ParseIntOfIntToString(album.selectionLimit.value);
      }
    }
    ConfigForm(album.clientEnabled, if album.clientPin.Some? then album.clientPin.value else "", limitField)
  }

  /** `handleSaveConfig`'s validation and conversion: enabling access with a blank PIN is
      refused; otherwise the PIN is stored trimmed, or null when blank, and the limit is
      stored as `parseInt` of the field, or null when the field is empty (a field that
      does not parse gives NaN, which the update sends as null). */
  function ConfigPatchFor(form: ConfigForm): (r: Option<ConfigPatch>)
    ensures r.None? <==> form.clientEnabled && Blank(form.clientPin)
    ensures r.Some? ==> r.value.clientEnabled == form.clientEnabled
    ensures r.Some? ==> (r.value.clientPin.None? <==> Blank(form.clientPin))
    ensures r.Some? && r.value.clientPin.Some? ==>
              r.value.clientPin.value == Trim(form.clientPin) && Trimmed(r.value.clientPin.value)
    ensures r.Some? && form.selectionLimit == "" ==> r.value.selectionLimit.None?
    ensures r.Some? && form.selectionLimit != "" ==> r.value.selectionLimit == ParseInt(form.selectionLimit)
  {
    var pin := Trim(form.clientPin);
    if form.clientEnabled && !Truthy(pin) then None
    else
      Some(ConfigPatch(
        form.clientEnabled,
        if Truthy(pin) then Some(pin) else None,
        if Truthy(form.selectionLimit) then ParseInt(form.selectionLimit) else None))
  }

  /** The album row after the update. */
  function ApplyPatch(album: Album, patch: ConfigPatch): Album {
    album.(clientEnabled := patch.clientEnabled, clientPin := patch.clientPin, selectionLimit := patch.selectionLimit)
  }

  /** Whatever the form holds, a configuration that is accepted leaves the album
      satisfying the PIN invariant. */
  lemma AcceptedConfigKeepsPinInvariant(album: Album, form: ConfigForm)
    requires ConfigPatchFor(form).Some?
    ensures PinInvariant(ApplyPatch(album, ConfigPatchFor(form).value))
  {
    var patch := ConfigPatchFor(form).value;
    if patch.clientEnabled {
      assert patch.clientPin.Some?;
      assert Trim(form.clientPin) != "";
      assert !Blank(patch.clientPin.value);
    }
  }

  /** Opening the dialog on a stored album and saving without touching the form writes
      back exactly the stored settings, provided the stored PIN is trimmed and not empty
      and the album satisfies the PIN invariant. */
  lemma SaveOfUntouchedForm(album: Album)
    requires PinInvariant(album)
    requires album.clientPin.Some? ==> album.clientPin.value != "" && Trimmed(album.clientPin.value)
    ensures ConfigPatchFor(ConfigFormFor(album)) == Some(ConfigPatch(album.clientEnabled, album.clientPin, album.selectionLimit))
  {
    var form := ConfigFormFor(album);
    if album.clientPin.Some? {
      TrimOfTrimmed(album.clientPin.value);
    }
    if album.clientPin.None? {
      assert Blank(form.clientPin);
    }
  }

  /** The store after `update(patch).eq('id', id)` on the `albums` table: a missing id
      matches no row. */
  function Configured(store: map<string, Album>, id: string, patch: ConfigPatch): map<string, Album>
  {
    if id in store then store[id := ApplyPatch(store[id], patch)] else store
  }

  /** The update changes the access columns of album `id` and no other row. */
  lemma ConfiguredTouchesOnlyThatRow(store: map<string, Album>, id: string, patch: ConfigPatch)
    ensures Configured(store, id, patch).Keys == store.Keys
    ensures forall k :: k in store && k != id ==> Configured(store, id, patch)[k] == store[k]
    ensures id in store ==> Configured(store, id, patch)[id] == ApplyPatch(store[id], patch)
  {
  }

  /** The store after `client_submitted_at` is set to null on album `id`. */
  function WithSubmissionCleared(store: map<string, Album>, id: string): (r: map<string, Album>)
    ensures r.Keys == store.Keys
    ensures forall k :: k in r && k != id ==> r[k] == store[k]
    ensures id in store ==> r[id] == store[id].(clientSubmittedAt := None)
  {
    if id in store then store[id := store[id].(clientSubmittedAt := None)] else store
  }

  /** Saving an accepted configuration into a store whose albums all satisfy the PIN
      invariant keeps it so. */
  lemma ConfiguredKeepsPinInvariant(store: map<string, Album>, id: string, form: ConfigForm)
    requires AllPinsValid(store)
    requires ConfigPatchFor(form).Some?
    ensures AllPinsValid(Configured(store, id, ConfigPatchFor(form).value))
  {
    if id in store {
      AcceptedConfigKeepsPinInvariant(store[id], form);
    }
  }

  /** `getClientEnabledAlbums`. */
  function ClientEnabledAlbums(albums: seq<Album>): (r: seq<Album>)
    ensures |r| <= |albums|
    ensures forall a :: a in r <==> a in albums && a.clientEnabled
  {
    if albums == [] then []
    else (if albums[0].clientEnabled then [albums[0]] else []) + ClientEnabledAlbums(albums[1..])
  }

  /** The shared albums keep their list order: the filter distributes over concatenation. */
  lemma {:induction false} ClientEnabledAlbumsAppend(a: seq<Album>, b: seq<Album>)
    ensures ClientEnabledAlbums(a + b) == ClientEnabledAlbums(a) + ClientEnabledAlbums(b)
  {
    if a == [] {
      assert a + b == b;
    } else {
      assert (a + b)[1..] == a[1..] + b;
      ClientEnabledAlbumsAppend(a[1..], b);
    }
  }

  /** `getSubmittedCount`: albums whose `client_submitted_at` is set. */
  function SubmittedCount(albums: seq<Album>): (n: nat)
    ensures n <= |albums|
    ensures n == 0 <==> forall k :: 0 <= k < |albums| ==> !TruthyOpt(albums[k].clientSubmittedAt)
  {
    if albums == [] then 0
    else
      var rest := SubmittedCount(albums[1..]);
      assert (forall k :: 0 <= k < |albums| ==> !TruthyOpt(albums[k].clientSubmittedAt))
         <==> !TruthyOpt(albums[0].clientSubmittedAt)
              && forall k :: 0 <= k < |albums| - 1 ==> !TruthyOpt(albums[1..][k].clientSubmittedAt) by {
        forall k | 0 < k < |albums| ensures albums[k] == albums[1..][k - 1] { }
      }
      (if TruthyOpt(albums[0].clientSubmittedAt) then 1 else 0) + rest
  }

  /** Each submitted album counts once wherever it stands in the list: the count of a
      concatenation is the sum of the parts' counts. */
  lemma {:induction false} SubmittedCountAppend(a: seq<Album>, b: seq<Album>)
    ensures SubmittedCount(a + b) == SubmittedCount(a) + SubmittedCount(b)
  {
    if a == [] {
      assert a + b == b;
    } else {
      assert (a + b)[1..] == a[1..] + b;
      SubmittedCountAppend(a[1..], b);
    }
  }

  /** The link given to the client: the site's origin, `/cliente/` and the album id. */
  function ShareLink(origin: string, albumId: string): (url: string)
    ensures |url| == |origin| + 9 + |albumId|
    ensures url[..|origin|] == origin && url[|url| - |albumId|..] == albumId
    ensures url[|origin|..|origin| + 9] == "/cliente/"
  {
    origin + "/cliente/" + albumId
  }

  /** Two albums of one site never share a link. */
  lemma ShareLinkIdentifiesAlbum(origin: string, a: string, b: string)
    requires ShareLink(origin, a) == ShareLink(origin, b)
    ensures a == b
  {
    var prefix := origin + "/cliente/";
    assert ShareLink(origin, a)[|prefix|..] == a;
    assert ShareLink(origin, b)[|prefix|..] == b;
  }

  /** The screen's state and the part of the store it writes: the `albums` rows by id
      and the `client_selections` rows (image ids by album id), which it never touches. */
  class ClientAlbumsAdmin {
    var selectedAlbum: Option<Album>
    var form: ConfigForm
    var configDialogOpen: bool
    var copiedId: Option<string>
    var store: map<string, Album>
    var selections: map<string, set<string>>


    constructor(store: map<string, Album>, selections: map<string, set<string>>)
      ensures this.store == store && this.selections == selections
      ensures selectedAlbum == None && form == ConfigForm(false, "", "") && !configDialogOpen && copiedId == None
    {
      this.store := store;
      this.selections := selections;
      selectedAlbum := None;
      form := ConfigForm(false, "", "");
      configDialogOpen := false;
      copiedId := None;
    }

    method OpenConfigDialog(album: Album)
      modifies this`selectedAlbum, this`form, this`configDialogOpen
      ensures selectedAlbum == Some(album) && form == ConfigFormFor(album) && configDialogOpen
    {
      selectedAlbum := Some(album);
      form := ConfigFormFor(album);
      configDialogOpen := true;
    }

    /** Editing the form's fields. */
    method EditForm(newForm: ConfigForm)
      modifies this`form
      ensures form == newForm
    {
      form := newForm;
    }

    /** `handleSaveConfig`: `writeOk` says whether the store accepted the update. A
        refused form writes nothing; a successful save closes the dialog. */
    method HandleSaveConfig(writeOk: bool) returns (outcome: SaveOutcome)
      modifies this`store, this`configDialogOpen
      ensures old(AllPinsValid(store)) ==> AllPinsValid(store)
      ensures selections == old(selections)
      ensures selectedAlbum.None? ==>
                outcome == NoAlbumSelected && store == old(store) && configDialogOpen == old(configDialogOpen)
      ensures selectedAlbum.Some? && ConfigPatchFor(form).None? ==>
                outcome == PinRequired && store == old(store) && configDialogOpen == old(configDialogOpen)
      ensures selectedAlbum.Some? && ConfigPatchFor(form).Some? ==>
                && (outcome == ConfigSaved <==> writeOk)
                && (outcome == SaveFailed <==> !writeOk)
                && store == (if writeOk
                             then Configured(old(store), selectedAlbum.value.id, ConfigPatchFor(form).value)
                             else old(store))
                && configDialogOpen == (old(configDialogOpen) && !writeOk)
    {
      if selectedAlbum.None? {
        return NoAlbumSelected;
      }
      var patch := ConfigPatchFor(form);
      if patch.None? {
        return PinRequired;
      }
      if !writeOk {
        return SaveFailed;
      }
      var id := selectedAlbum.value.id;
      ghost var before := store;
      store := Configured(store, id, patch.value);
      if AllPinsValid(before) {
        ConfiguredKeepsPinInvariant(before, id, form);
      }
      configDialogOpen := false;
      outcome := ConfigSaved;
    }

    /** `handleResetSubmission`: after confirmation, clears the album's
        `client_submitted_at` and nothing else; the client's selections stay. */
    method HandleResetSubmission(albumId: string, confirmed: bool, writeOk: bool) returns (outcome: ResetOutcome)
      modifies this`store
      ensures old(AllPinsValid(store)) ==> AllPinsValid(store)
      ensures selections == old(selections)
      ensures !confirmed ==> outcome == ResetCancelled && store == old(store)
      ensures confirmed ==> (outcome == SubmissionReopened <==> writeOk) && (outcome == ResetFailed <==> !writeOk)
      ensures store.Keys == old(store).Keys
      ensures forall id :: id in store && (id != albumId || outcome != SubmissionReopened) ==> store[id] == old(store)[id]
      ensures outcome == SubmissionReopened && albumId in store ==>
                store[albumId] == old(store)[albumId].(clientSubmittedAt := None)
    {
      if !confirmed {
        return ResetCancelled;
      }
      if !writeOk {
        return ResetFailed;
      }
      store := WithSubmissionCleared(store, albumId);
      outcome := SubmissionReopened;
    }

    /** `copyLink`: returns the text handed to the clipboard; the album is marked as
        copied only when the clipboard accepted it (`clipboardOk`), since a rejected
        write ends the handler before the mark is set. */
    method CopyLink(origin: string, albumId: string, clipboardOk: bool) returns (clipboard: string)
      modifies this`copiedId
      ensures clipboard == ShareLink(origin, albumId)
      ensures clipboardOk ==> copiedId == Some(albumId)
      ensures !clipboardOk ==> copiedId == old(copiedId)
    {
      clipboard := ShareLink(origin, albumId);
      if clipboardOk {
        copiedId := Some(albumId);
      }
    }
  }
}
