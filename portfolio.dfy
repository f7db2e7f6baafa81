/** The rows of the portfolio store as the admin components read them with `select('*')`. */
module Portfolio {
  import opened Common

  /** `albums.status`: draft albums are hidden from public browsing. */
  datatype Status = Draft | Published

  /** A row of the `albums` table. */
  datatype Album = Album(
    id: string,
    category: string,
    title: string,
    eventDate: Option<string>,
    status: Status,
    coverImageUrl: Option<string>,
    clientEnabled: bool,
    clientPin: Option<string>,
    selectionLimit: Option<int>,
    clientSubmittedAt: Option<string>,
    createdAt: string)

  /** A row of the `site_images` table. */
  datatype Image = Image(
    id: string,
    section: string,
    category: string,
    title: string,
    description: string,
    imageUrl: string,
    displayOrder: int,
    isFeatured: bool,
    albumId: Option<string>)

  /** The fixed category identifiers that partition the albums. */
  const CategoryIds: seq<string> := ["casamentos", "gestantes", "15-anos", "pre-wedding", "externo", "eventos"]

  /** No two images share an id (`id` is the table's primary key). */
  predicate DistinctIds(images: seq<Image>) {
    forall i, j :: 0 <= i < j < |images| ==> images[i].id != images[j].id
  }

  /** Some image in the list has the given id. */
  predicate HasId(images: seq<Image>, id: string) {
    exists k :: 0 <= k < |images| && images[k].id == id
  }
}
