/** The records the copier reads from the VK API and the ones it produces.
    The two API endpoints it calls, `photos.getAlbums` and `photos.get`, are
    given as functions from the request parameters to the decoded response. */
module VkTypes {

  /** One resolution variant of a photo, as listed in its `sizes` array. */
  datatype Size = Size(kind: string, url: string, width: int, height: int)

  /** One item of a `photos.get` response (`likes` is `likes.count`). */
  datatype PhotoItem = PhotoItem(id: int, albumId: int, date: int, likes: nat, sizes: seq<Size>)

  /** One item of a `photos.getAlbums` response. */
  datatype AlbumItem = AlbumItem(id: int, title: string)

  /** The `response` object of `photos.getAlbums`. */
  datatype AlbumsResponse = AlbumsResponse(count: int, items: seq<AlbumItem>)

  /** The `album_id` request parameter: the default `'profile'`, or the id of
      an album found by the album search. */
  datatype AlbumKey = Profile | AlbumId(id: int)

  /** The parameters of `photos.getAlbums` that the model keeps: the owner and
      the encoded `count`. */
  datatype AlbumsQuery = AlbumsQuery(ownerId: string, count: string)

  /** The parameters of `photos.get` that the model keeps: the owner, the
      album and the `count`, which is sent as given. */
  datatype PhotosQuery = PhotosQuery(ownerId: string, albumId: AlbumKey, count: int)

  /** The VK API as seen by the copier: what each request returns. */
  datatype VkApi = VkApi(getAlbums: AlbumsQuery -> AlbumsResponse, getPhotos: PhotosQuery -> seq<PhotoItem>)

  /** A photo with its largest variant chosen (`info_photo`). */
  datatype PhotoInfo = PhotoInfo(
    id: int, albumId: int, date: int, likes: nat,
    url: string, sizes: string, height: int, width: int)

  /** An album found by the album search. */
  datatype AlbumSummary = AlbumSummary(albumId: int, title: string)

  /** One manifest entry: the uploaded file name and the chosen size code. */
  datatype FileEntry = FileEntry(fileName: string, size: string)

  /** The faults the copier can raise: `max_size[0]` on an empty list when a
      photo has no variant of a known size code. */
  datatype Fault = NoKnownSize(photoId: int)

  datatype Option<T> = None | Some(value: T)

  datatype Result<T> = Ok(value: T) | Err(fault: Fault)
}
