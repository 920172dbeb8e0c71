// Value-level specification of the album store: the stored photos as a
// sequence, identity lookup, uniqueness of identities, the order-keeping
// filter behind both queries, and the two query predicates.
module AlbumSpec {
  import opened PhotoModel

  datatype Option<T> = None | Some(value: T)

  /** No two stored photos share an (albumId, photoId) identity. */
  ghost predicate UniqueIds(s: seq<Photo>)
  {
    forall i, j :: 0 <= i < j < |s| ==> !SameIdentity(s[i], s[j])
  }

  /** Index of the first photo in `s` with the given identity, if any. */
  function Find(s: seq<Photo>, photoId: int, albumId: int): (r: Option<nat>)
    ensures r.Some? ==> r.value < |s| && HasId(s[r.value], photoId, albumId)
    ensures r.Some? ==> forall k :: 0 <= k < r.value ==> !HasId(s[k], photoId, albumId)
    ensures r.None? <==> forall k :: 0 <= k < |s| ==> !HasId(s[k], photoId, albumId)
  {
    if s == [] then None
    else if HasId(s[0], photoId, albumId) then Some(0)
    else match Find(s[1..], photoId, albumId)
      case None => None
      case Some(k) => Some(k + 1)
  }

  /** `s` with the element at index `i` deleted and the others kept in order. */
  function RemoveAt(s: seq<Photo>, i: nat): (r: seq<Photo>)
    requires i < |s|
    ensures |r| == |s| - 1
    ensures forall k :: 0 <= k < |r| ==> r[k] == if k < i then s[k] else s[k + 1]
  {
    s[..i] + s[i + 1..]
  }

  /** The photos of `s` that satisfy `keep`, in the order of `s`. */
  function Filter(s: seq<Photo>, keep: Photo -> bool): (r: seq<Photo>)
    ensures |r| <= |s|
  {
    if s == [] then []
    else
      var init := Filter(s[..|s| - 1], keep);
      if keep(s[|s| - 1]) then init + [s[|s| - 1]] else init
  }

  /** The query predicate of getAllPhotoFromAlbum. */
  function InAlbum(albumId: int): Photo -> bool
  {
    (p: Photo) => p.albumId == albumId
  }

  /** First nanosecond of day `d` (LocalDate.atStartOfDay). */
  function StartOfDay(d: int): int
  {
    d * DAY
  }

  /** Last nanosecond of day `d` (LocalDate.atTime(LocalTime.MAX)). */
  function EndOfDay(d: int): int
  {
    d * DAY + DAY - 1
  }

  /** The query predicate of getPhotoBetweenDate: inclusive at both ends. */
  function BetweenDates(dateFrom: int, dateTo: int): Photo -> bool
  {
    (p: Photo) => StartOfDay(dateFrom) <= p.date <= EndOfDay(dateTo)
  }

  // ---------------------------------------------------------------------------
  // Lemmas

  /** With unique identities, the lookup of a stored photo's identity finds
      exactly that photo: the "first match" is the only match. */
  lemma FindUnique(s: seq<Photo>, k: nat)
    requires UniqueIds(s) && k < |s|
    ensures Find(s, s[k].photoId, s[k].albumId) == Some(k)
  {
  }

  /** In a sequence of unique identities, no photo's identity occurs before it:
      adding the photos one by one in order never meets a duplicate. */
  lemma AbsentBeforeIndex(s: seq<Photo>, i: nat)
    requires UniqueIds(s) && i < |s|
    ensures Find(s[..i], s[i].photoId, s[i].albumId).None?
  {
  }

  /** Appending a photo whose identity is absent keeps identities unique. */
  lemma AppendKeepsUnique(s: seq<Photo>, p: Photo)
    requires UniqueIds(s)
    requires Find(s, p.photoId, p.albumId).None?
    ensures UniqueIds(s + [p])
  {
  }

  /** Deleting an element keeps identities unique. */
  lemma RemoveKeepsUnique(s: seq<Photo>, i: nat)
    requires UniqueIds(s) && i < |s|
    ensures UniqueIds(RemoveAt(s, i))
  {
  }

  /** Once the photo at `i` is deleted, its identity is no longer found. */
  lemma RemovedIsGone(s: seq<Photo>, i: nat)
    requires UniqueIds(s) && i < |s|
    ensures Find(RemoveAt(s, i), s[i].photoId, s[i].albumId).None?
  {
  }

  /** A photo is in the filter's result exactly when it is in `s` and
      satisfies `keep`. */
  lemma {:induction false} FilterMembership(s: seq<Photo>, keep: Photo -> bool, x: Photo)
    ensures x in Filter(s, keep) <==> x in s && keep(x)
  {
    if s != [] {
      var init := s[..|s| - 1];
      var last := s[|s| - 1];
      assert s == init + [last];
      FilterMembership(init, keep, x);
    }
  }

  /** Filtering a concatenation filters each part and keeps their order. */
  lemma {:induction false} FilterAppend(s: seq<Photo>, t: seq<Photo>, keep: Photo -> bool)
    ensures Filter(s + t, keep) == Filter(s, keep) + Filter(t, keep)
    decreases |t|
  {
    if t == [] {
      assert s + t == s;
    } else {
      var u := s + t;
      assert u[..|u| - 1] == s + t[..|t| - 1];
      assert u[|u| - 1] == t[|t| - 1];
      FilterAppend(s, t[..|t| - 1], keep);
    }
  }

  /** Extending the scanned prefix by one element: the step of the filter loop. */
  lemma FilterStep(s: seq<Photo>, i: nat, keep: Photo -> bool)
    requires i < |s|
    ensures Filter(s[..i + 1], keep)
         == Filter(s[..i], keep) + (if keep(s[i]) then [s[i]] else [])
  {
    assert s[..i + 1][..i] == s[..i];
  }

  /** Day boundaries of the date query: a photo taken at the first instant of
      `dateFrom` or the last instant of `dateTo` is selected, one taken a
      nanosecond before the start, or at the first instant of the day after
      `dateTo`, is not. */
  lemma BetweenDatesInclusive(dateFrom: int, dateTo: int, p: Photo)
    ensures p.date == dateFrom * DAY && dateFrom <= dateTo ==> BetweenDates(dateFrom, dateTo)(p)
    ensures p.date == dateTo * DAY + DAY - 1 && dateFrom <= dateTo ==> BetweenDates(dateFrom, dateTo)(p)
    ensures p.date == dateFrom * DAY - 1 ==> !BetweenDates(dateFrom, dateTo)(p)
    ensures p.date == (dateTo + 1) * DAY ==> !BetweenDates(dateFrom, dateTo)(p)
  {
  }

  /** A photo taken on day `d` (at any time of that day) is selected exactly
      when `d` lies between the two dates. */
  lemma BetweenDatesByDay(dateFrom: int, dateTo: int, p: Photo, d: int)
    requires d * DAY <= p.date < d * DAY + DAY
    ensures BetweenDates(dateFrom, dateTo)(p) <==> dateFrom <= d <= dateTo
  {
  }
}
