// The album store: a fixed-capacity array of photos whose first `size`
// slots hold the stored photos in insertion order and whose other slots are
// null.
module AlbumDao {
  import opened PhotoModel
  import opened AlbumSpec

  /** System.arraycopy(a, src, a, dst, len) for a copy towards lower indices
      (dst <= src), where copying forwards reads each source slot before it
      is overwritten. */
  method ArrayCopyLeft<T>(a: array<T>, src: nat, dst: nat, len: nat)
    requires dst <= src && src + len <= a.Length
    modifies a
    ensures forall m :: 0 <= m < a.Length ==>
      a[m] == if dst <= m < dst + len then old(a[m - dst + src]) else old(a[m])
  {
    var k := 0;
    while k < len
      invariant 0 <= k <= len
      invariant forall m :: 0 <= m < a.Length ==>
        a[m] == if dst <= m < dst + k then old(a[m - dst + src]) else old(a[m])
    {
      a[dst + k] := a[src + k];
      k := k + 1;
    }
  }

  /** Arrays.copyOf(a, n) for n no larger than the array: a fresh array
      holding the first n elements. */
  method CopyOf<T(0)>(a: array<T>, n: nat) returns (r: array<T>)
    requires n <= a.Length
    ensures fresh(r) && r[..] == a[..n]
  {
    r := new T[n];
    var k := 0;
    while k < n
      invariant 0 <= k <= n
      invariant r[..k] == a[..k]
    {
      r[k] := a[k];
      k := k + 1;
    }
  }

  class AlbumImpl {
    var photos: array<Photo?>
    var size: nat
    /** The stored photos, in store order. */
    ghost var elems: seq<Photo>

    ghost predicate Valid()
      reads this, photos
    {
      size <= photos.Length && |elems| == size &&
      (forall i :: 0 <= i < size ==> photos[i] == elems[i]) &&
      (forall i :: size <= i < photos.Length ==> photos[i] == null) &&
      UniqueIds(elems)
    }

    constructor (capacity: int)
      requires capacity >= 0
      ensures Valid() && fresh(photos)
      ensures photos.Length == capacity && size == 0 && elems == []
    {
      photos := new Photo?[capacity](_ => null);
      size := 0;
      elems := [];
    }

    method AddPhoto(photo: Photo?) returns (added: bool)
      requires Valid()
      modifies this, photos
      ensures Valid() && photos == old(photos)
      ensures added <==> photo != null && old(size) < photos.Length
                         && Find(old(elems), photo.photoId, photo.albumId).None?
      ensures added ==> elems == old(elems) + [photo] && photos[old(size)] == photo
      ensures !added ==> elems == old(elems) && photos[..] == old(photos[..])
    {
      if photo == null || photos.Length == size {
        return false;
      }
      var existing := GetPhotoFromAlbum(photo.photoId, photo.albumId);
      if existing != null {
        return false;
      }
      AppendKeepsUnique(elems, photo);
      photos[size] := photo;
      size := size + 1;
      elems := elems + [photo];
      return true;
    }

    method RemovePhoto(photoId: int, albumId: int) returns (removed: bool)
      requires Valid()
      modifies this, photos
      ensures Valid() && photos == old(photos)
      ensures removed <==> Find(old(elems), photoId, albumId).Some?
      ensures removed ==> elems == RemoveAt(old(elems), Find(old(elems), photoId, albumId).value)
                          && photos[size] == null
      ensures !removed ==> elems == old(elems) && photos[..] == old(photos[..])
      ensures Find(elems, photoId, albumId).None?
    {
      var i := 0;
      while i < size
        invariant 0 <= i <= size
        invariant unchanged(this) && unchanged(photos)
        invariant forall k :: 0 <= k < i ==> !HasId(elems[k], photoId, albumId)
      {
        if photos[i].albumId == albumId && photos[i].photoId == photoId {
          ghost var s := elems;
          ArrayCopyLeft(photos, i + 1, i, size - i - 1);
          size := size - 1;
          photos[size] := null;
          elems := RemoveAt(s, i);
          RemoveKeepsUnique(s, i);
          RemovedIsGone(s, i);
          return true;
        }
        i := i + 1;
      }
      return false;
    }

    method UpdatePhoto(photoId: int, albumId: int, url: string) returns (updated: bool)
      requires Valid()
      modifies elems
      ensures Valid()
      ensures updated <==> Find(elems, photoId, albumId).Some?
      ensures updated ==> elems[Find(elems, photoId, albumId).value].url == url
      ensures forall q :: q in elems && !HasId(q, photoId, albumId) ==> q.url == old(q.url)
      ensures !updated ==> forall q :: q in elems ==> q.url == old(q.url)
    {
      var photo := GetPhotoFromAlbum(photoId, albumId);
      if photo == null {
        return false;
      }
      photo.url := url;
      return true;
    }

    method GetPhotoFromAlbum(photoId: int, albumId: int) returns (r: Photo?)
      requires Valid()
      ensures r == match Find(elems, photoId, albumId)
                   case Some(k) => elems[k]
                   case None => null
      ensures r != null ==> r in elems && HasId(r, photoId, albumId)
      ensures r == null <==> forall q :: q in elems ==> !HasId(q, photoId, albumId)
    {
      var i := 0;
      while i < size
        invariant 0 <= i <= size
        invariant forall k :: 0 <= k < i ==> !HasId(elems[k], photoId, albumId)
      {
        if photos[i].albumId == albumId && photos[i].photoId == photoId {
          return photos[i];
        }
        i := i + 1;
      }
      return null;
    }

    method GetAllPhotoFromAlbum(albumId: int) returns (r: array<Photo?>)
      requires Valid()
      ensures fresh(r) && r[..] == Filter(elems, InAlbum(albumId))
      ensures forall p: Photo :: p in r[..] <==> p in elems && p.albumId == albumId
    {
      r := FindPicturesByPredicate(InAlbum(albumId));
      forall p: Photo ensures p in r[..] <==> p in elems && p.albumId == albumId {
        FilterMembership(elems, InAlbum(albumId), p);
      }
    }

    method GetPhotoBetweenDate(dateFrom: int, dateTo: int) returns (r: array<Photo?>)
      requires Valid()
      ensures fresh(r) && r[..] == Filter(elems, BetweenDates(dateFrom, dateTo))
      ensures forall p: Photo :: p in r[..] <==>
        p in elems && dateFrom * DAY <= p.date <= dateTo * DAY + DAY - 1
    {
      r := FindPicturesByPredicate(BetweenDates(dateFrom, dateTo));
      forall p: Photo ensures p in r[..] <==>
        p in elems && dateFrom * DAY <= p.date <= dateTo * DAY + DAY - 1
      {
        FilterMembership(elems, BetweenDates(dateFrom, dateTo), p);
      }
    }

    method Size() returns (n: nat)
      requires Valid()
      ensures n == |elems|
    {
      return size;
    }

    method FindPicturesByPredicate(keep: Photo -> bool) returns (r: array<Photo?>)
      requires Valid()
      ensures fresh(r) && r[..] == Filter(elems, keep)
    {
      var temporary := new Photo?[size];
      var j := 0;
      var i := 0;
      while i < size
        invariant 0 <= j <= i <= size
        invariant temporary[..j] == Filter(elems[..i], keep)
      {
        var p := photos[i];
        assert p == elems[i];
        FilterStep(elems, i, keep);
        if keep(p) {
          temporary[j] := p;
          assert temporary[..j + 1] == temporary[..j] + [p];
          j := j + 1;
        }
        i := i + 1;
      }
      assert elems[..size] == elems;
      assert temporary[..j] == Filter(elems, keep);
      r := CopyOf(temporary, j);
    }
  }
}
