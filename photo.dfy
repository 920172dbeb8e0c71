// The photo record stored by the album: a (albumId, photoId) identity, an
// immutable title and capture moment, and a url that may be rewritten in place.
module PhotoModel {

  /** Nanoseconds in one calendar day: capture moments are integer nanoseconds,
      calendar dates are integer day numbers on the same epoch. */
  const DAY: int := 86_400_000_000_000

  class Photo {
    const albumId: int
    const photoId: int
    const title: string
    var url: string
    /** The capture moment, in nanoseconds since the epoch. */
    const date: int

    constructor (albumId: int, photoId: int, title: string, url: string, date: int)
      ensures this.albumId == albumId && this.photoId == photoId
      ensures this.title == title && this.url == url && this.date == date
    {
      this.albumId := albumId;
      this.photoId := photoId;
      this.title := title;
      this.url := url;
      this.date := date;
    }
  }

  /** Identity test: photos are equal exactly when albumId and photoId agree. */
  predicate HasId(p: Photo, photoId: int, albumId: int)
  {
    p.albumId == albumId && p.photoId == photoId
  }

  predicate SameIdentity(p: Photo, q: Photo)
  {
    HasId(q, p.photoId, p.albumId)
  }
}
