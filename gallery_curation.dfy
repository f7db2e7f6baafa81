/** The admin portfolio curation screen: a three-level navigation (categories, albums,
    photos), drag-and-drop reordering of an album's photos, a sequential upload queue,
    and the per-album photo counts and per-category cards. */
module GalleryCuration {
  import opened Common
  import opened Portfolio

  // ---------------------------------------------------------------------------
  // Category cards
  // ---------------------------------------------------------------------------

  /** The albums of one category, in list order. */
  function AlbumsIn(albums: seq<Album>, category: string): (r: seq<Album>)
    ensures |r| <= |albums|
    ensures forall a :: a in r <==> a in albums && a.category == category
  {
    if albums == [] then []
    else (if albums[0].category == category then [albums[0]] else []) + AlbumsIn(albums[1..], category)
  }

  /** Listing the albums of a category keeps their order: it distributes over
      concatenation, so a list's albums of that category are those of its parts, in turn. */
  lemma {:induction false} AlbumsInAppend(a: seq<Album>, b: seq<Album>, category: string)
    ensures AlbumsIn(a + b, category) == AlbumsIn(a, category) + AlbumsIn(b, category)
  {
    if a == [] {
      assert a + b == b;
    } else {
      assert (a + b)[1..] == a[1..] + b;
      AlbumsInAppend(a[1..], b, category);
    }
  }

  /** The number shown on a category card (`getAlbumCount`). */
  function GetAlbumCount(albums: seq<Album>, category: string): (n: nat)
    ensures n <= |albums|
    ensures n == 0 <==> forall k :: 0 <= k < |albums| ==> albums[k].category != category
  {
    var r := AlbumsIn(albums, category);
    assert (exists k :: 0 <= k < |albums| && albums[k].category == category) ==> r != [] by {
      if k :| 0 <= k < |albums| && albums[k].category == category {
        assert albums[k] in r;
      }
    }
    assert r != [] ==> r[0] in albums && r[0].category == category by {
      if r != [] { assert r[0] in r; }
    }
    |r|
  }

  /** The card counts one for each album of its category, wherever it stands in the list:
      the count of a concatenation is the sum of the parts' counts. */
  lemma GetAlbumCountAppend(a: seq<Album>, b: seq<Album>, category: string)
    ensures GetAlbumCount(a + b, category) == GetAlbumCount(a, category) + GetAlbumCount(b, category)
  {
    AlbumsInAppend(a, b, category);
  }

  /** Total of the card counts over a list of categories. */
  function SumAlbumCounts(albums: seq<Album>, categories: seq<string>): nat {
    if categories == [] then 0
    else GetAlbumCount(albums, categories[0]) + SumAlbumCounts(albums, categories[1..])
  }

  predicate DistinctStrings(s: seq<string>) {
    forall i, j :: 0 <= i < j < |s| ==> s[i] != s[j]
  }

  lemma {:induction false} SumAlbumCountsCons(a: Album, rest: seq<Album>, categories: seq<string>)
    requires DistinctStrings(categories)
    ensures SumAlbumCounts([a] + rest, categories)
         == SumAlbumCounts(rest, categories) + (if a.category in categories then 1 else 0)
  {
    if categories != [] {
      assert ([a] + rest)[1..] == rest;
      SumAlbumCountsCons(a, rest, categories[1..]);
      assert a.category in categories <==> a.category == categories[0] || a.category in categories[1..];
    }
  }

  /** The category cards partition the albums: when every album belongs to one of the
      listed (distinct) categories, the counts on the cards add up to the number of albums. */
  lemma {:induction false} AlbumCountsPartition(albums: seq<Album>, categories: seq<string>)
    requires DistinctStrings(categories)
    requires forall k :: 0 <= k < |albums| ==> albums[k].category in categories
    ensures SumAlbumCounts(albums, categories) == |albums|
  {
    if albums == [] {
      SumOfNoAlbums(categories);
    } else {
      assert albums == [albums[0]] + albums[1..];
      SumAlbumCountsCons(albums[0], albums[1..], categories);
      AlbumCountsPartition(albums[1..], categories);
    }
  }

  lemma {:induction false} SumOfNoAlbums(categories: seq<string>)
    ensures SumAlbumCounts([], categories) == 0
  {
    if categories != [] { SumOfNoAlbums(categories[1..]); }
  }

  /** An album of the category whose cover URL is truthy. */
  predicate IsCoverOf(a: Album, category: string) {
    a.category == category && TruthyOpt(a.coverImageUrl)
  }

  /** The image shown on a category card: the cover of the first album of that
      category that has one, or null. */
  function GetCategoryCover(albums: seq<Album>, category: string): (r: Option<string>)
    ensures r.None? <==> forall k :: 0 <= k < |albums| ==> !IsCoverOf(albums[k], category)
    ensures r.Some? ==> exists k :: 0 <= k < |albums| && IsCoverOf(albums[k], category)
                          && r == albums[k].coverImageUrl
                          && forall j :: 0 <= j < k ==> !IsCoverOf(albums[j], category)
  {
    if albums == [] then None
    else if IsCoverOf(albums[0], category) then albums[0].coverImageUrl
    else
      var r := GetCategoryCover(albums[1..], category);
      assert r.Some? ==> exists k :: 0 <= k < |albums| && IsCoverOf(albums[k], category)
                          && r == albums[k].coverImageUrl
                          && forall j :: 0 <= j < k ==> !IsCoverOf(albums[j], category) by {
        if r.Some? {
          var k :| 0 <= k < |albums| - 1 && IsCoverOf(albums[1..][k], category)
                   && r == albums[1..][k].coverImageUrl
                   && forall j :: 0 <= j < k ==> !IsCoverOf(albums[1..][j], category);
          assert forall j :: 0 <= j < k + 1 ==> !IsCoverOf(albums[j], category) by {
            forall j | 0 <= j < k + 1 ensures !IsCoverOf(albums[j], category) {
              if j > 0 { assert albums[j] == albums[1..][j - 1]; }
            }
          }
        }
      }
      assert r.None? ==> forall k :: 0 <= k < |albums| ==> !IsCoverOf(albums[k], category) by {
        if r.None? {
          forall k | 0 <= k < |albums| ensures !IsCoverOf(albums[k], category) {
            if k > 0 { assert albums[k] == albums[1..][k - 1]; }
          }
        }
      }
      r
  }

  // ---------------------------------------------------------------------------
  // Photo counts per album
  // ---------------------------------------------------------------------------

  /** How many of the `album_id` values equal `id`. */
  function Occurrences(albumIds: seq<Option<string>>, id: string): nat {
    if albumIds == [] then 0
    else Occurrences(albumIds[..|albumIds| - 1], id) + (if albumIds[|albumIds| - 1] == Some(id) then 1 else 0)
  }

  /** The number shown on an album card: the dictionary entry, or 0 when absent. */
  function GetPhotoCount(counts: map<string, int>, albumId: string): (n: int)
    ensures albumId in counts ==> n == counts[albumId]
    ensures albumId !in counts ==> n == 0
  {
    if albumId in counts && counts[albumId] != 0 then counts[albumId] else 0
  }

  /** Builds the photo-count dictionary from the `album_id` column of every image,
      skipping images whose album is null (or empty). */
  method CountPhotos(albumIds: seq<Option<string>>) returns (counts: map<string, int>)
    ensures forall id :: id in counts <==> id != "" && Occurrences(albumIds, id) > 0
    ensures forall id :: GetPhotoCount(counts, id) == if id == "" then 0 else Occurrences(albumIds, id)
  {
    counts := map[];
    var i := 0;
    while i < |albumIds|
      invariant 0 <= i <= |albumIds|
      invariant forall id :: id in counts <==> id != "" && Occurrences(albumIds[..i], id) > 0
      invariant forall id :: id in counts ==> counts[id] == Occurrences(albumIds[..i], id)
    {
      assert albumIds[..i + 1][..i] == albumIds[..i];
      var albumId := albumIds[i];
      if albumId.Some? && albumId.value != "" {
        var previous := if albumId.value in counts then counts[albumId.value] else 0;
        counts := counts[albumId.value := previous + 1];
      }
      i := i + 1;
    }
    assert albumIds[..|albumIds|] == albumIds;
  }

  // ---------------------------------------------------------------------------
  // Drag-and-drop reorder
  // ---------------------------------------------------------------------------

  /** `images.findIndex(img => img.id === id)`: the first position holding `id`, or -1. */
  function FindIndex(images: seq<Image>, id: string): (r: int)
    ensures -1 <= r < |images|
    ensures r == -1 <==> !HasId(images, id)
    ensures r >= 0 ==> images[r].id == id && forall k :: 0 <= k < r ==> images[k].id != id
  {
    if images == [] then -1
    else if images[0].id == id then 0
    else
      var r := FindIndex(images[1..], id);
      assert HasId(images, id) <==> HasId(images[1..], id) by {
        if HasId(images, id) {
          var k :| 0 <= k < |images| && images[k].id == id;
          assert images[1..][k - 1].id == id;
        }
        if HasId(images[1..], id) {
          var k :| 0 <= k < |images| - 1 && images[1..][k].id == id;
          assert images[k + 1].id == id;
        }
      }
      if r == -1 then -1 else r + 1
  }

  /** `arrayMove` of the sortable list library: take out the element at `from` and
      insert it again so that it lands at position `to`. */
  function ArrayMove<T>(s: seq<T>, from: nat, to: nat): (r: seq<T>)
    requires from < |s| && to < |s|
    ensures |r| == |s| && r[to] == s[from]
    ensures multiset(r) == multiset(s)
  {
    var rest := s[..from] + s[from + 1..];
    var r := rest[..to] + [s[from]] + rest[to..];
    assert s == s[..from] + [s[from]] + s[from + 1..];
    assert rest == rest[..to] + rest[to..];
    calc {
      multiset(r);
      multiset(rest[..to]) + multiset{s[from]} + multiset(rest[to..]);
      multiset(rest) + multiset{s[from]};
      multiset(s[..from]) + multiset(s[from + 1..]) + multiset{s[from]};
      multiset(s);
    }
    r
  }

  /** Which position of the input lands at position `i` of `ArrayMove(_, from, to)`. */
  function MoveSource(from: nat, to: nat, i: nat): nat {
    if i == to then from
    else if from < to && from <= i < to then i + 1
    else if to < from && to < i <= from then i - 1
    else i
  }

  lemma ArrayMoveAt<T>(s: seq<T>, from: nat, to: nat, i: nat)
    requires from < |s| && to < |s| && i < |s|
    ensures MoveSource(from, to, i) < |s|
    ensures ArrayMove(s, from, to)[i] == s[MoveSource(from, to, i)]
  {
  }

  lemma MoveSourceInverse(from: nat, to: nat, i: nat)
    ensures MoveSource(from, to, MoveSource(to, from, i)) == i
  {
  }

  /** Dragging an item back to where it came from restores the list. */
  lemma ArrayMoveInverse<T>(s: seq<T>, from: nat, to: nat)
    requires from < |s| && to < |s|
    ensures ArrayMove(ArrayMove(s, from, to), to, from) == s
  {
    var r := ArrayMove(s, from, to);
    var q := ArrayMove(r, to, from);
    forall i | 0 <= i < |s| ensures q[i] == s[i] {
      ArrayMoveAt(r, to, from, i);
      ArrayMoveAt(s, from, to, MoveSource(to, from, i));
      MoveSourceInverse(from, to, i);
    }
  }

  /** Reordering never makes two photos share an id. */
  lemma ArrayMoveKeepsDistinctIds(images: seq<Image>, from: nat, to: nat)
    requires from < |images| && to < |images|
    requires DistinctIds(images)
    ensures DistinctIds(ArrayMove(images, from, to))
  {
    var r := ArrayMove(images, from, to);
    forall i, j | 0 <= i < j < |r| ensures r[i].id != r[j].id {
      ArrayMoveAt(images, from, to, i);
      ArrayMoveAt(images, from, to, j);
      MoveSourceInverse(to, from, i);
      MoveSourceInverse(to, from, j);
    }
  }

  /** The stored `display_order` after writing position `k` for the `k`-th image of
      `images`, for every `k < n`, in order, over the store `m`. */
  function WithPositions(m: map<string, int>, images: seq<Image>, n: nat): map<string, int>
    requires n <= |images|
  {
    if n == 0 then m else WithPositions(m, images, n - 1)[images[n - 1].id := n - 1]
  }

  /** After the reorder writes, every image's stored `display_order` is its position,
      and every other row keeps its old value. */
  lemma {:induction false} WithPositionsAt(m: map<string, int>, images: seq<Image>, n: nat)
    requires n <= |images| && DistinctIds(images)
    ensures forall k :: 0 <= k < n ==>
              (images[k].id in WithPositions(m, images, n) && WithPositions(m, images, n)[images[k].id] == k)
    ensures forall id :: id in WithPositions(m, images, n) <==> id in m || HasId(images[..n], id)
    ensures forall id :: id in m && !HasId(images[..n], id) ==> WithPositions(m, images, n)[id] == m[id]
  {
    if n > 0 {
      WithPositionsAt(m, images, n - 1);
      HasIdOfLonger(images, n);
    }
  }

  /** The ids among the first `n` photos are those among the first `n - 1` and the `n`-th's. */
  lemma HasIdOfLonger(images: seq<Image>, n: nat)
    requires 0 < n <= |images|
    ensures forall id :: HasId(images[..n], id) <==> HasId(images[..n - 1], id) || images[n - 1].id == id
  {
    assert images[..n] == images[..n - 1] + [images[n - 1]];
    forall id ensures HasId(images[..n], id) <==> HasId(images[..n - 1], id) || images[n - 1].id == id {
      if HasId(images[..n], id) && images[n - 1].id != id {
        var k :| 0 <= k < n && images[..n][k].id == id;
        assert images[..n - 1][k].id == id;
      }
      if HasId(images[..n - 1], id) {
        var k :| 0 <= k < n - 1 && images[..n - 1][k].id == id;
        assert images[..n][k].id == id;
      }
      if images[n - 1].id == id {
        assert images[..n][n - 1].id == id;
      }
    }
  }

  /** Persisting the same order twice leaves the store as persisting it once. */
  lemma ReorderIdempotent(m: map<string, int>, images: seq<Image>)
    requires DistinctIds(images)
    ensures WithPositions(WithPositions(m, images, |images|), images, |images|)
         == WithPositions(m, images, |images|)
  {
    var once := WithPositions(m, images, |images|);
    var twice := WithPositions(once, images, |images|);
    WithPositionsAt(m, images, |images|);
    WithPositionsAt(once, images, |images|);
    assert images[..|images|] == images;
    forall id | id in twice ensures id in once && twice[id] == once[id] {
      if HasId(images, id) {
        var k :| 0 <= k < |images| && images[k].id == id;
      }
    }
  }

  // ---------------------------------------------------------------------------
  // Upload queue
  // ---------------------------------------------------------------------------

  /** A file picked by the operator; `handle` stands for the identity of the browser's
      File object, which is how the queue entries are matched. */
  datatype File = File(handle: nat, name: string)

  datatype UploadStatus = Pending | Uploading | Complete | Failed

  /** An entry of the upload queue (its progress bar and preview are left out). */
  datatype QueuedUpload = QueuedUpload(file: File, status: UploadStatus)

  /** A row inserted into `site_images` for an uploaded file. */
  datatype NewPhoto = NewPhoto(
    section: string, category: string, albumId: string, title: string,
    description: string, imageUrl: string, displayOrder: int)

  /** Position `d` of `name` starts a final extension: a '.' followed by at least one
      character, none of them a '.' or a '/'. */
  predicate FinalExtensionAt(name: string, d: nat) {
    && d + 1 < |name| && name[d] == '.'
    && forall i :: d < i < |name| ==> name[i] != '.' && name[i] != '/'
  }

  /** The photo title made from a file name: a final extension, when the name has one,
      is dropped, and nothing else is. */
  function StripExtension(name: string): (r: string)
    ensures |r| <= |name| && r == name[..|r|]
    ensures |r| < |name| ==> FinalExtensionAt(name, |r|)
    ensures forall d: nat :: FinalExtensionAt(name, d) ==> r == name[..d]
  {
    StripFrom(name, |name|)
  }

  /** Scans leftwards from position `n` (everything from `n` on is neither '.' nor '/'). */
  function StripFrom(name: string, n: nat): (r: string)
    requires n <= |name|
    requires forall i :: n <= i < |name| ==> name[i] != '.' && name[i] != '/'
    ensures |r| <= |name| && r == name[..|r|]
    ensures |r| < |name| ==> FinalExtensionAt(name, |r|)
    ensures forall d: nat :: FinalExtensionAt(name, d) ==> r == name[..d]
    decreases n
  {
    if n == 0 then name
    else if name[n - 1] == '.' then (if n < |name| then name[..n - 1] else name)
    else if name[n - 1] == '/' then name
    else StripFrom(name, n - 1)
  }

  /** The upload succeeded when the store returned a (truthy) public URL. */
  predicate Uploaded(url: Option<string>) {
    TruthyOpt(url)
  }

  /** The row inserted for the `j`-th file of a batch uploaded into `album`. */
  function RowFor(album: Album, file: File, url: string, displayOrder: int): NewPhoto {
    NewPhoto("gallery", album.category, album.id, StripExtension(file.name), "", url, displayOrder)
  }

  /** File `j`'s photo row lands in the store: its upload returned a URL and the
      insert that follows (`inserts[j]`, whose error the screen never reads) went through. */
  predicate RowLands(urls: seq<Option<string>>, inserts: seq<bool>, j: nat)
    requires j < |urls| == |inserts|
  {
    Uploaded(urls[j]) && inserts[j]
  }

  /** The rows stored for the first `n` files of a batch: one per successful upload
      whose insert went through, the `j`-th file getting `display_order = base + j`. */
  function BatchRows(album: Album, files: seq<File>, urls: seq<Option<string>>, inserts: seq<bool>, base: int, n: nat): seq<NewPhoto>
    requires n <= |files| == |urls| == |inserts|
  {
    if n == 0 then []
    else
      BatchRows(album, files, urls, inserts, base, n - 1)
      + (if RowLands(urls, inserts, n - 1) then [RowFor(album, files[n - 1], urls[n - 1].value, base + n - 1)] else [])
  }

  /** Every row a batch stores belongs to a file `j` whose upload succeeded and whose
      insert went through, and that row carries `display_order = base + j`: no row
      exists for a failed upload. */
  lemma {:induction false} BatchRowsOnlySuccesses(album: Album, files: seq<File>, urls: seq<Option<string>>, inserts: seq<bool>, base: int, n: nat)
    requires n <= |files| == |urls| == |inserts|
    ensures forall row :: row in BatchRows(album, files, urls, inserts, base, n) ==>
              0 <= row.displayOrder - base < n && RowLands(urls, inserts, row.displayOrder - base)
              && row == RowFor(album, files[row.displayOrder - base], urls[row.displayOrder - base].value, row.displayOrder)
  {
    if n > 0 {
      BatchRowsOnlySuccesses(album, files, urls, inserts, base, n - 1);
      var prev := BatchRows(album, files, urls, inserts, base, n - 1);
      var last := if RowLands(urls, inserts, n - 1) then [RowFor(album, files[n - 1], urls[n - 1].value, base + n - 1)] else [];
      assert BatchRows(album, files, urls, inserts, base, n) == prev + last;
      forall row: NewPhoto | row in prev + last
        ensures 0 <= row.displayOrder - base < n && RowLands(urls, inserts, row.displayOrder - base)
      {
        if row !in prev {
          assert row in last;
        }
      }
    }
  }

  /** Every successful upload `j` of a batch whose insert went through has its row, with
      `display_order = base + j`. */
  lemma {:induction false} BatchRowsEverySuccess(album: Album, files: seq<File>, urls: seq<Option<string>>, inserts: seq<bool>, base: int, n: nat)
    requires n <= |files| == |urls| == |inserts|
    ensures forall j :: 0 <= j < n && RowLands(urls, inserts, j) ==>
              RowFor(album, files[j], urls[j].value, base + j) in BatchRows(album, files, urls, inserts, base, n)
  {
    if n > 0 {
      BatchRowsEverySuccess(album, files, urls, inserts, base, n - 1);
      var prev := BatchRows(album, files, urls, inserts, base, n - 1);
      var last := if RowLands(urls, inserts, n - 1) then [RowFor(album, files[n - 1], urls[n - 1].value, base + n - 1)] else [];
      assert BatchRows(album, files, urls, inserts, base, n) == prev + last;
    }
  }

  /** The number of files among the first `n` whose row lands. */
  function SuccessCount(urls: seq<Option<string>>, inserts: seq<bool>, n: nat): nat
    requires n <= |urls| == |inserts|
  {
    if n == 0 then 0 else SuccessCount(urls, inserts, n - 1) + (if RowLands(urls, inserts, n - 1) then 1 else 0)
  }

  /** The number of rows a batch stores is the number of files whose row lands. */
  lemma {:induction false} BatchRowsCount(album: Album, files: seq<File>, urls: seq<Option<string>>, inserts: seq<bool>, base: int, n: nat)
    requires n <= |files| == |urls| == |inserts|
    ensures |BatchRows(album, files, urls, inserts, base, n)| == SuccessCount(urls, inserts, n) <= n
  {
    if n > 0 { BatchRowsCount(album, files, urls, inserts, base, n - 1); }
  }

  /** The queue entries a finished batch leaves behind: complete or failed, per file. */
  function Outcomes(files: seq<File>, urls: seq<Option<string>>): (r: seq<QueuedUpload>)
    requires |files| == |urls|
  {
    seq(|files|, j requires 0 <= j < |files| =>
      QueuedUpload(files[j], if Uploaded(urls[j]) then Complete else Failed))
  }

  /** Every queue entry holding `file` takes the new status; the others are kept. */
  function SetStatus(queue: seq<QueuedUpload>, file: File, status: UploadStatus): (r: seq<QueuedUpload>)
    ensures |r| == |queue|
  {
    seq(|queue|, k requires 0 <= k < |queue| =>
      if queue[k].file == file then QueuedUpload(queue[k].file, status) else queue[k])
  }

  /** `prev.filter(u => u.status !== 'complete')`, run once the batch has finished. */
  function DropCompleted(queue: seq<QueuedUpload>): (r: seq<QueuedUpload>)
    ensures |r| <= |queue|
  {
    if queue == [] then []
    else DropCompleted(queue[..|queue| - 1])
         + (if queue[|queue| - 1].status == Complete then [] else [queue[|queue| - 1]])
  }

  /** After the cleanup no completed entry is left, every other entry (a failed one in
      particular) is still there, and the cleanup is idempotent. */
  lemma {:induction false} DropCompletedKeepsTheRest(queue: seq<QueuedUpload>)
    ensures forall u :: u in DropCompleted(queue) <==> u in queue && u.status != Complete
    ensures DropCompleted(DropCompleted(queue)) == DropCompleted(queue)
  {
    if queue != [] {
      var init := queue[..|queue| - 1];
      DropCompletedKeepsTheRest(init);
      assert queue == init + [queue[|queue| - 1]];
      DropCompletedOfKept(DropCompleted(init), queue[|queue| - 1]);
    }
  }

  /** The cleanup keeps the order of the entries it leaves: it distributes over
      concatenation. */
  lemma {:induction false} DropCompletedAppend(a: seq<QueuedUpload>, b: seq<QueuedUpload>)
    ensures DropCompleted(a + b) == DropCompleted(a) + DropCompleted(b)
  {
    if b == [] {
      assert a + b == a;
    } else {
      var init := b[..|b| - 1];
      assert (a + b)[..|a + b| - 1] == a + init;
      assert (a + b)[|a + b| - 1] == b[|b| - 1];
      DropCompletedAppend(a, init);
    }
  }

  lemma {:induction false} DropCompletedOfKept(kept: seq<QueuedUpload>, last: QueuedUpload)
    requires DropCompleted(kept) == kept
    ensures DropCompleted(kept + (if last.status == Complete then [] else [last]))
         == kept + (if last.status == Complete then [] else [last])
  {
    if last.status != Complete {
      assert (kept + [last])[..|kept|] == kept;
    } else {
      assert kept + [] == kept;
    }
  }

  // ---------------------------------------------------------------------------
  // Album creation guard
  // ---------------------------------------------------------------------------

  /** The album form of the dialog. */
  datatype AlbumForm = AlbumForm(title: string, eventDate: string, status: Status)

  /** A row inserted into `albums`. */
  datatype NewAlbum = NewAlbum(category: string, title: string, eventDate: Option<string>, status: Status)

  /** `handleCreateAlbum`'s guard and row: nothing is inserted without a selected
      category or with a blank title; the title is stored as typed (untrimmed) and an
      empty date becomes null. */
  function CreateAlbumRow(selectedCategory: Option<string>, form: AlbumForm): (r: Option<NewAlbum>)
    ensures r.Some? <==> TruthyOpt(selectedCategory) && !Blank(form.title)
    ensures r.Some? ==> r.value.category == selectedCategory.value && r.value.title == form.title
                        && r.value.status == form.status
                        && (r.value.eventDate.None? <==> form.eventDate == "")
                        && (r.value.eventDate.Some? ==> r.value.eventDate.value == form.eventDate)
  {
    if !TruthyOpt(selectedCategory) || !Truthy(Trim(form.title)) then None
    else Some(NewAlbum(selectedCategory.value, form.title,
                       if Truthy(form.eventDate) then Some(form.eventDate) else None, form.status))
  }

  // ---------------------------------------------------------------------------
  // The screen's state
  // ---------------------------------------------------------------------------

  datatype Level = CategoriesLevel | AlbumsLevel | PhotosLevel

  /** The curation screen. Besides the component's own state it holds the part of the
      store its handlers write: the `display_order` column of `site_images` by id, and
      the photo rows the uploads insert. */
  class Curation {
    var level: Level
    var selectedCategory: Option<string>
    var selectedAlbum: Option<Album>
    var albums: seq<Album>
    var images: seq<Image>
    var photoCounts: map<string, int>
    var uploads: seq<QueuedUpload>
    var storedOrder: map<string, int>
    var insertedPhotos: seq<NewPhoto>

    /** The photos level always has an album, the categories level never has a
        category, and the photos of the open album have distinct ids. */
    ghost predicate Valid()
      reads this
    {
      && (level == PhotosLevel ==> selectedAlbum.Some?)
      && (level == CategoriesLevel ==> selectedCategory.None?)
      && DistinctIds(images)
    }

    constructor(storedOrder: map<string, int>)
      ensures Valid()
      ensures level == CategoriesLevel && selectedCategory == None && selectedAlbum == None
      ensures albums == [] && images == [] && photoCounts == map[] && uploads == []
      ensures this.storedOrder == storedOrder && insertedPhotos == []
    {
      level := CategoriesLevel;
      selectedCategory := None;
      selectedAlbum := None;
      albums := [];
      images := [];
      photoCounts := map[];
      uploads := [];
      this.storedOrder := storedOrder;
      insertedPhotos := [];
    }

    /** `fetchAlbums`: `data` is the query result, `None` when it failed (the list is kept). */
    method FetchAlbums(data: Option<seq<Album>>)
      requires Valid()
      modifies this`albums
      ensures Valid()
      ensures albums == if data.Some? then data.value else old(albums)
    {
      if data.Some? {
        albums := data.value;
      }
    }

    /** `fetchPhotos`: the open album's photos ordered by `display_order`, as the store
        returns them; `None` when the query failed. */
    method FetchPhotos(data: Option<seq<Image>>)
      requires Valid()
      requires data.Some? ==> DistinctIds(data.value)
      modifies this`images
      ensures Valid()
      ensures images == if data.Some? then data.value else old(images)
    {
      if data.Some? {
        images := data.value;
      }
    }

    /** The photo-count effect: `data` is the `album_id` column of every image, `None`
        when the query failed (the dictionary is kept). */
    method FetchAllPhotoCounts(data: Option<seq<Option<string>>>)
      requires Valid()
      modifies this`photoCounts
      ensures Valid()
      ensures data.None? ==> photoCounts == old(photoCounts)
      ensures data.Some? ==> forall id :: GetPhotoCount(photoCounts, id) == if id == "" then 0 else Occurrences(data.value, id)
    {
      if data.Some? {
        photoCounts := CountPhotos(data.value);
      }
    }

    method NavigateToCategory(categoryId: string)
      requires Valid()
      modifies this`selectedCategory, this`level
      ensures Valid()
      ensures level == AlbumsLevel && selectedCategory == Some(categoryId)
    {
      selectedCategory := Some(categoryId);
      level := AlbumsLevel;
    }

    method NavigateToAlbum(album: Album)
      requires Valid()
      modifies this`selectedAlbum, this`level
      ensures Valid()
      ensures level == PhotosLevel && selectedAlbum == Some(album)
    {
      selectedAlbum := Some(album);
      level := PhotosLevel;
    }

    /** One level up: photos to albums (forgetting the album and its photos), albums to
        categories (forgetting the category); nothing happens at the top. */
    method NavigateBack()
      requires Valid()
      modifies this`selectedAlbum, this`selectedCategory, this`level, this`images
      ensures Valid()
      ensures old(level) == PhotosLevel ==>
                level == AlbumsLevel && selectedAlbum == None && images == []
                && selectedCategory == old(selectedCategory)
      ensures old(level) == AlbumsLevel ==>
                level == CategoriesLevel && selectedCategory == None
                && selectedAlbum == old(selectedAlbum) && images == old(images)
      ensures old(level) == CategoriesLevel ==>
                level == CategoriesLevel && selectedCategory == old(selectedCategory)
                && selectedAlbum == old(selectedAlbum) && images == old(images)
    {
      if level == PhotosLevel {
        selectedAlbum := None;
        level := AlbumsLevel;
        images := [];
      } else if level == AlbumsLevel {
        selectedCategory := None;
        level := CategoriesLevel;
      }
    }

    /** The breadcrumb's root link: back to the category cards from any level. */
    method BreadcrumbToCategories()
      requires Valid()
      modifies this`selectedAlbum, this`selectedCategory, this`level
      ensures Valid()
      ensures level == CategoriesLevel && selectedCategory == None && selectedAlbum == None
    {
      level := CategoriesLevel;
      selectedCategory := None;
      selectedAlbum := None;
    }

    /** The breadcrumb's category link, shown on the photos level. */
    method BreadcrumbToAlbums()
      requires Valid()
      modifies this`selectedAlbum, this`level
      ensures Valid()
      ensures level == AlbumsLevel && selectedAlbum == None
    {
      level := AlbumsLevel;
      selectedAlbum := None;
    }

    /** `handleDragEnd`: the sortable grid reports the dragged photo and the photo it was
        dropped on (both ids of `images`). Without a target, or on itself, nothing
        happens; otherwise the dragged photo moves to the target's position and every
        photo's `display_order` is rewritten to its new position. */
    method HandleDragEnd(activeId: string, overId: Option<string>)
      requires Valid()
      requires HasId(images, activeId)
      requires overId.Some? ==> HasId(images, overId.value)
      modifies this`images, this`storedOrder
      ensures Valid()
      ensures overId.None? || overId.value == activeId ==>
                images == old(images) && storedOrder == old(storedOrder)
      ensures overId.Some? && overId.value != activeId ==>
                && images == ArrayMove(old(images), FindIndex(old(images), activeId), FindIndex(old(images), overId.value))
                && multiset(images) == multiset(old(images))
                && images[FindIndex(old(images), overId.value)].id == activeId
                && storedOrder == WithPositions(old(storedOrder), images, |images|)
                && (forall k :: 0 <= k < |images| ==> images[k].id in storedOrder && storedOrder[images[k].id] == k)
    {
      if overId.Some? && activeId != overId.value {
        var oldIndex := FindIndex(images, activeId);
        var newIndex := FindIndex(images, overId.value);
        MovePhoto(oldIndex, newIndex);
        WithPositionsAt(old(storedOrder), images, |images|);
      }
    }

    /** The reorder proper: the photo at `from` moves to `to`, the new list is shown and
        its positions are written. */
    method MovePhoto(from: nat, to: nat)
      requires Valid()
      requires from < |images| && to < |images|
      modifies this`images, this`storedOrder
      ensures Valid()
      ensures images == ArrayMove(old(images), from, to)
      ensures storedOrder == WithPositions(old(storedOrder), images, |images|)
    {
      var newImages := ArrayMove(images, from, to);
      ArrayMoveKeepsDistinctIds(images, from, to);
      images := newImages;
      WritePositions(newImages);
    }

    /** The write loop of `handleDragEnd`: position `i` is written as the
        `display_order` of the `i`-th photo, in order. */
    method WritePositions(newImages: seq<Image>)
      modifies this`storedOrder
      ensures storedOrder == WithPositions(old(storedOrder), newImages, |newImages|)
    {
      var i := 0;
      while i < |newImages|
        invariant 0 <= i <= |newImages|
        invariant storedOrder == WithPositions(old(storedOrder), newImages, i)
      {
        storedOrder := storedOrder[newImages[i].id := i];
        i := i + 1;
      }
    }

    /** `handleFilesSelected`: the batch is queued as pending, then each file in turn is
        marked uploading, uploaded (`urls[j]` is the public URL the store returned for
        file `j`, `None` on failure) and marked complete, after inserting its photo row
        with `display_order = images.length + j`, or marked as an error, inserting
        nothing. `inserts[j]` is whether that insert went through: its error is never
        read, so the entry is complete either way. The browser hands over fresh,
        distinct File objects. */
    method HandleFilesSelected(files: seq<File>, urls: seq<Option<string>>, inserts: seq<bool>)
      requires Valid()
      requires |urls| == |files| == |inserts|
      requires forall i, j :: 0 <= i < j < |files| ==> files[i] != files[j]
      requires forall k :: 0 <= k < |uploads| ==> uploads[k].file !in files
      modifies this`uploads, this`insertedPhotos
      ensures Valid()
      ensures selectedAlbum.None? ==> uploads == old(uploads) && insertedPhotos == old(insertedPhotos)
      ensures selectedAlbum.Some? ==>
                && uploads == old(uploads) + Outcomes(files, urls)
                && insertedPhotos == old(insertedPhotos) + BatchRows(selectedAlbum.value, files, urls, inserts, |images|, |files|)
    {
      if selectedAlbum.None? {
        return;
      }
      var album := selectedAlbum.value;
      ghost var before := uploads;
      uploads := uploads + BatchQueue(files, urls, 0);
      var i := 0;
      while i < |files|
        invariant 0 <= i <= |files|
        invariant uploads == before + BatchQueue(files, urls, i)
        invariant insertedPhotos == old(insertedPhotos) + BatchRows(album, files, urls, inserts, |images|, i)
      {
        BatchStep(before, files, urls, i);
        UploadOne(album, files[i], urls[i], inserts[i], |images| + i, |before| + i);
        i := i + 1;
      }
      BatchQueueComplete(files, urls);
    }

    /** One turn of the batch loop: the file's entry (the only one holding it) is marked
        uploading, then complete after the insert of its photo row when the upload
        returned a URL (the row is stored only when `insertOk`), or failed otherwise. */
    method UploadOne(album: Album, file: File, url: Option<string>, insertOk: bool, displayOrder: int, ghost pos: nat)
      requires pos < |uploads| && uploads[pos].file == file
      requires forall k :: 0 <= k < |uploads| && k != pos ==> uploads[k].file != file
      modifies this`uploads, this`insertedPhotos
      ensures uploads == old(uploads)[pos := QueuedUpload(file, if Uploaded(url) then Complete else Failed)]
      ensures insertedPhotos
              == old(insertedPhotos) + (if Uploaded(url) && insertOk then [RowFor(album, file, url.value, displayOrder)] else [])
    {
      SetStatusOfOnlyEntry(uploads, pos, Uploading);
      uploads := SetStatus(uploads, file, Uploading);
      SetStatusOfOnlyEntry(uploads, pos, if Uploaded(url) then Complete else Failed);
      if Uploaded(url) {
        if insertOk {
          insertedPhotos := insertedPhotos + [RowFor(album, file, url.value, displayOrder)];
        }
        uploads := SetStatus(uploads, file, Complete);
      } else {
        uploads := SetStatus(uploads, file, Failed);
      }
    }

    /** The delayed step after a batch: completed entries leave the queue. */
    method ClearCompletedUploads()
      requires Valid()
      modifies this`uploads
      ensures Valid()
      ensures uploads == DropCompleted(old(uploads))
    {
      uploads := DropCompleted(uploads);
    }
  }

  /** The batch's queue entries after its first `i` files were processed: those are
      complete or failed, the rest still pending. */
  function BatchQueue(files: seq<File>, urls: seq<Option<string>>, i: nat): (r: seq<QueuedUpload>)
    requires |files| == |urls|
    ensures |r| == |files|
    ensures forall j :: 0 <= j < |files| ==> r[j].file == files[j]
  {
    seq(|files|, j requires 0 <= j < |files| =>
      QueuedUpload(files[j], if j >= i then Pending else if Uploaded(urls[j]) then Complete else Failed))
  }

  lemma BatchQueueComplete(files: seq<File>, urls: seq<Option<string>>)
    requires |files| == |urls|
    ensures BatchQueue(files, urls, |files|) == Outcomes(files, urls)
  {
  }

  /** One turn of the batch loop on a queue whose old part holds none of the batch's
      files: file `i` is held by its own entry alone, and settling that entry moves the
      batch on by one file. */
  lemma BatchStep(before: seq<QueuedUpload>, files: seq<File>, urls: seq<Option<string>>, i: nat)
    requires i < |files| == |urls|
    requires forall i, j :: 0 <= i < j < |files| ==> files[i] != files[j]
    requires forall k :: 0 <= k < |before| ==> before[k].file !in files
    ensures var queue := before + BatchQueue(files, urls, i);
            && queue[|before| + i].file == files[i]
            && (forall k :: 0 <= k < |queue| && k != |before| + i ==> queue[k].file != files[i])
            && queue[|before| + i := QueuedUpload(files[i], if Uploaded(urls[i]) then Complete else Failed)]
               == before + BatchQueue(files, urls, i + 1)
  {
    var queue := before + BatchQueue(files, urls, i);
    var base := |before|;
    forall k | 0 <= k < |queue| && k != base + i
      ensures queue[k].file != files[i]
    {
      if k < base {
        assert queue[k] == before[k];
      } else if k - base < i {
        assert files[k - base] != files[i];
      } else {
        assert files[i] != files[k - base];
      }
    }
  }

  /** Updating the queue by File identity touches only the entry holding that file
      when no other entry holds it. */
  lemma SetStatusOfOnlyEntry(queue: seq<QueuedUpload>, pos: nat, st: UploadStatus)
    requires pos < |queue|
    requires forall k :: 0 <= k < |queue| && k != pos ==> queue[k].file != queue[pos].file
    ensures SetStatus(queue, queue[pos].file, st) == queue[pos := QueuedUpload(queue[pos].file, st)]
  {
  }

  /** A batch of three files whose second upload fails, into an album with no photos
      yet: the first and the third file get a photo row, at positions 0 and 2, and once
      the queue is cleaned only the failed entry is left. */
  lemma MiddleUploadFails(album: Album, files: seq<File>)
    requires |files| == 3
    ensures BatchRows(album, files, [Some("u1"), None, Some("u3")], [true, true, true], 0, 3)
            == [RowFor(album, files[0], "u1", 0), RowFor(album, files[2], "u3", 2)]
    ensures DropCompleted(Outcomes(files, [Some("u1"), None, Some("u3")])) == [QueuedUpload(files[1], Failed)]
  {
    var urls := [Some("u1"), None, Some("u3")];
    var inserts := [true, true, true];
    assert BatchRows(album, files, urls, inserts, 0, 1) == [RowFor(album, files[0], "u1", 0)];
    assert BatchRows(album, files, urls, inserts, 0, 2) == [RowFor(album, files[0], "u1", 0)];
    var queue := Outcomes(files, urls);
    assert queue == [QueuedUpload(files[0], Complete), QueuedUpload(files[1], Failed), QueuedUpload(files[2], Complete)];
    assert queue[..2][..1] == queue[..1];
    assert DropCompleted(queue[..1]) == [];
    assert DropCompleted(queue[..2]) == [QueuedUpload(files[1], Failed)];
  }

  /** The screen never reads the insert's error: a file whose upload returned a URL but
      whose row was refused still shows as complete, and the cleanup drops it, though no
      photo row exists for it. */
  lemma InsertErrorIgnored(album: Album, file: File, url: string, base: int)
    requires url != ""
    ensures Outcomes([file], [Some(url)]) == [QueuedUpload(file, Complete)]
    ensures BatchRows(album, [file], [Some(url)], [false], base, 1) == []
    ensures DropCompleted(Outcomes([file], [Some(url)])) == []
  {
    assert Outcomes([file], [Some(url)])[..0] == [];
  }

  /** Opening an album that has no photos yet, with nothing queued. */
  method OpenEmptyAlbum(album: Album) returns (c: Curation)
    ensures fresh(c) && c.Valid()
    ensures c.selectedAlbum == Some(album) && c.images == [] && c.uploads == [] && c.insertedPhotos == []
  {
    c := new Curation(map[]);
    c.NavigateToCategory(album.category);
    c.NavigateToAlbum(album);
    c.FetchPhotos(Some([]));
  }

  /** The same batch run through the screen. */
  method MiddleUploadFailsScenario()
  {
    var album := Album("a1", "casamentos", "Ana e Rui", None, Draft, None, false, None, None, None, "2026-01-01");
    var c := OpenEmptyAlbum(album);
    var files := [File(1, "igreja.jpg"), File(2, "festa.jpg"), File(3, "bolo.png")];
    var urls := [Some("u1"), None, Some("u3")];
    MiddleUploadFails(album, files);
    c.HandleFilesSelected(files, urls, [true, true, true]);
    assert c.uploads == Outcomes(files, urls);
    assert c.insertedPhotos == [RowFor(album, files[0], "u1", 0), RowFor(album, files[2], "u3", 2)];
    c.ClearCompletedUploads();
    assert c.uploads == [QueuedUpload(files[1], Failed)];
  }
}
