// The album's unit-test scenario as client methods: every outcome the tests
// check is derived from the store's contracts alone. The wall-clock "now" of
// the tests is a parameter: day number `today` and `t` nanoseconds into it.
module AlbumScenario {
  import opened PhotoModel
  import opened AlbumSpec
  import opened AlbumDao

  /** A store of capacity 6 holding the first five of six photos, taken
      7, 6, 5, 4, 3 and 2 days before `now`. */
  method SetUp(now: int) returns (album: AlbumImpl, p0: Photo, p1: Photo, p2: Photo, p3: Photo, p4: Photo, p5: Photo)
    ensures album.Valid() && fresh(album) && fresh(album.photos)
    ensures fresh(p0) && fresh(p1) && fresh(p2) && fresh(p3) && fresh(p4) && fresh(p5)
    ensures album.photos.Length == 6 && album.elems == [p0, p1, p2, p3, p4]
    ensures p0.albumId == 1 && p0.photoId == 1 && p0.date == now - 7 * DAY
    ensures p1.albumId == 1 && p1.photoId == 2 && p1.date == now - 6 * DAY
    ensures p2.albumId == 1 && p2.photoId == 3 && p2.date == now - 5 * DAY
    ensures p3.albumId == 2 && p3.photoId == 1 && p3.date == now - 4 * DAY
    ensures p4.albumId == 2 && p4.photoId == 4 && p4.date == now - 3 * DAY
    ensures p5.albumId == 1 && p5.photoId == 4 && p5.date == now - 2 * DAY
  {
    album := new AlbumImpl(6);
    p0 := new Photo(1, 1, "Title1", "url1", now - 7 * DAY);
    p1 := new Photo(1, 2, "Title2", "url2", now - 6 * DAY);
    p2 := new Photo(1, 3, "Title3", "url3", now - 5 * DAY);
    p3 := new Photo(2, 1, "Title1", "url1", now - 4 * DAY);
    p4 := new Photo(2, 4, "Title4", "url4", now - 3 * DAY);
    p5 := new Photo(1, 4, "Title4", "url4", now - 2 * DAY);
    var photos := [p0, p1, p2, p3, p4, p5];
    assert UniqueIds(photos[..5]) by {
      assert photos[..5] == [p0, p1, p2, p3, p4];
    }
    var i := 0;
    while i < |photos| - 1
      invariant 0 <= i <= |photos| - 1
      invariant album.Valid() && fresh(album) && fresh(album.photos)
      invariant album.photos.Length == 6 && album.elems == photos[..i]
    {
      AbsentBeforeIndex(photos[..5], i);
      assert photos[..5][..i] == photos[..i];
      var ok := album.AddPhoto(photos[i]);
      assert photos[..i + 1] == photos[..i] + [photos[i]];
      i := i + 1;
    }
    assert photos[..5] == [p0, p1, p2, p3, p4];
  }

  /** The one-element contribution of `x` to a filter's result. */
  function Pick(keep: Photo -> bool, x: Photo): seq<Photo>
  {
    if keep(x) then [x] else []
  }

  /** Unfolds Filter over a five-photo sequence, one element at a time. */
  lemma FilterOfFive(s: seq<Photo>, keep: Photo -> bool)
    requires |s| == 5
    ensures Filter(s, keep)
         == Pick(keep, s[0]) + Pick(keep, s[1]) + Pick(keep, s[2]) + Pick(keep, s[3]) + Pick(keep, s[4])
  {
    assert Filter(s[..1], keep) == Pick(keep, s[0]) by {
      assert s[..0] == [];
      FilterStep(s, 0, keep);
    }
    assert Filter(s[..2], keep) == Pick(keep, s[0]) + Pick(keep, s[1]) by {
      FilterStep(s, 1, keep);
    }
    assert Filter(s[..3], keep) == Pick(keep, s[0]) + Pick(keep, s[1]) + Pick(keep, s[2]) by {
      FilterStep(s, 2, keep);
    }
    assert Filter(s[..4], keep)
        == Pick(keep, s[0]) + Pick(keep, s[1]) + Pick(keep, s[2]) + Pick(keep, s[3]) by {
      FilterStep(s, 3, keep);
    }
    assert s[..5] == s;
    FilterStep(s, 4, keep);
  }

  method TestAddPhoto(now: int)
  {
    var album, p0, p1, p2, p3, p4, p5 := SetUp(now);
    var ok := album.AddPhoto(null);
    assert !ok;
    ok := album.AddPhoto(p2);
    assert album.elems[2] == p2;
    assert !ok;
    ok := album.AddPhoto(p5);
    assert ok;
    var n := album.Size();
    assert n == 6;
    var extra := new Photo(10, 4, "Title4", "url4", now - 2 * DAY);
    ok := album.AddPhoto(extra);
    assert !ok;
  }

  method TestRemovePhoto(now: int)
  {
    var album, p0, p1, p2, p3, p4, p5 := SetUp(now);
    var ok := album.RemovePhoto(4, 1);
    assert !ok;
    assert album.elems[0] == p0;
    ok := album.RemovePhoto(1, 1);
    assert ok;
    var n := album.Size();
    assert n == 4;
    var gone := album.GetPhotoFromAlbum(1, 1);
    assert gone == null;
  }

  method TestUpdatePhoto(now: int)
  {
    var album, p0, p1, p2, p3, p4, p5 := SetUp(now);
    assert album.elems[1] == p1;
    var ok := album.UpdatePhoto(2, 1, "newUrl");
    assert ok;
    var p := album.GetPhotoFromAlbum(2, 1);
    assert p != null && p.url == "newUrl";
  }

  method TestGetPhotoFromAlbum(now: int)
  {
    var album, p0, p1, p2, p3, p4, p5 := SetUp(now);
    assert album.elems[0] == p0;
    var p := album.GetPhotoFromAlbum(1, 1);
    assert p == p0;
    p := album.GetPhotoFromAlbum(4, 1);
    assert p == null;
  }

  method TestGetAllPhotoFromAlbum(now: int)
  {
    var album, p0, p1, p2, p3, p4, p5 := SetUp(now);
    var r := album.GetAllPhotoFromAlbum(2);
    FilterOfFive(album.elems, InAlbum(2));
    assert r[..] == [p3, p4];
  }

  method TestGetPhotoBetweenDate(today: int, t: int)
    requires 0 <= t < DAY
  {
    var now := today * DAY + t;
    var album, p0, p1, p2, p3, p4, p5 := SetUp(now);
    var r := album.GetPhotoBetweenDate(today - 6, today - 3);
    var keep := BetweenDates(today - 6, today - 3);
    assert Pick(keep, p0) == [] by { assert p0.date < StartOfDay(today - 6); }
    assert keep(p1) && keep(p2) && keep(p3) && keep(p4);
    FilterOfFive(album.elems, keep);
    assert r[..] == [p1, p2, p3, p4];
  }

  method TestSize(now: int)
  {
    var album, p0, p1, p2, p3, p4, p5 := SetUp(now);
    var n := album.Size();
    assert n == 5;
  }
}
