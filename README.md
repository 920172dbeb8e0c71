# Photo album store — a verified Dafny model

The modelled program is a photo album: a bounded, in-memory store of photo
records in a fixed-length array `photos` plus a count `size`. It supports
insertion, removal by identity, a url update, a lookup by identity, and two
filter queries (all photos of an album, all photos taken between two dates).
A photo's identity is its `(albumId, photoId)` pair. The store rejects a null
photo, a full store and a duplicate identity. It keeps the photos in insertion
order, and a removal shifts the later photos left.

Files:

- `photo.dfy`, module `PhotoModel`: the `Photo` record as a class with
  immutable `albumId`, `photoId`, `title` and `date` and a mutable `url`. It
  also holds the identity test `HasId` / `SameIdentity` and the day length
  `DAY`.
- `album_spec.dfy`, module `AlbumSpec`: value-level functions that specify the
  store. These are `Find` (first index with an identity), `RemoveAt`, `Filter`
  (order-keeping selection), `UniqueIds`, and the two query predicates
  `InAlbum` and `BetweenDates`. The module also holds lemmas about them.
- `album_impl.dfy`, module `AlbumDao`: the class `AlbumImpl`. It has the array
  `photos`, the count `size` and a ghost sequence `elems` of the stored
  photos. `Valid()` ties them together. `elems` is `photos[0..size)`, the
  slots from `size` on are null, and identities are unique. Every method is
  proved against the functions of `AlbumSpec`. `System.arraycopy` and
  `Arrays.copyOf` are written out as loops (`ArrayCopyLeft`, `CopyOf`).
- `album_scenario.dfy`, module `AlbumScenario`: the unit tests' scenario as
  client methods. Every result the tests check (and the stronger, unsorted
  order of the query results) is derived from the contracts alone.

Time is modelled with integers. A capture moment is a count of nanoseconds,
and a calendar date is a day number on the same epoch. The start of day `d`
(`atStartOfDay`) is `d * DAY`, and its end (`atTime(LocalTime.MAX)`, which is
23:59:59.999999999) is `d * DAY + DAY - 1`.

Where the prose and the code disagree, the model follows the code:

- The date query is inclusive at both ends, as the comparisons `>= 0` and
  `<= 0` at src/telran/album/dao/AlbumImpl.java:68-69 say. The explanatory
  comment at src/telran/album/dao/AlbumImpl.java:561-571 describes an older,
  exclusive version.
- The constructor accepts capacity 0, because `new Photo[0]` is legal. A
  negative capacity makes Java throw, so the model requires
  `capacity >= 0`. Capacity 0 is not rejected as a configuration error.
- Query results hold references to the stored photos themselves, not copies.
  Only the result array is fresh.

## Model

| member | source | states |
|---|---|---|
| `PhotoModel.Photo.constructor` | src/telran/album/test/AlbumTest.java:28-33 | A photo is built from albumId, photoId, title, url and capture moment, and holds exactly those values. |
| `AlbumSpec.Find` | src/telran/album/dao/AlbumImpl.java:52-59 | The result is the index of the first photo whose albumId and photoId both match, and no earlier photo matches. It is None exactly when no photo in the sequence matches. |
| `AlbumSpec.RemoveAt` | src/telran/album/dao/AlbumImpl.java:33-34 | Deleting index i gives one element fewer. Elements before i stay put and later ones move one place left. |
| `AlbumSpec.Filter` | src/telran/album/dao/AlbumImpl.java:78-87 | The filtered sequence is never longer than the input. |
| `AlbumSpec.FilterMembership` | src/telran/album/dao/AlbumImpl.java:81-84 | A photo is in the filter result if and only if it is in the input and satisfies the predicate. |
| `AlbumSpec.FilterAppend` | src/telran/album/dao/AlbumImpl.java:81-85 | Filtering a concatenation gives the concatenation of the filtered parts, so the filter keeps store order. |
| `AlbumSpec.FilterStep` | src/telran/album/dao/AlbumImpl.java:82-84 | Scanning one more element appends it to the result exactly when the predicate holds. This is the step of the copying loop. |
| `AlbumSpec.FindUnique` | src/telran/album/dao/AlbumImpl.java:52-59 | When identities are unique, looking up a stored photo's identity finds that photo's own index, so the first match is the only match. |
| `AlbumSpec.AbsentBeforeIndex` | src/telran/album/test/AlbumTest.java:34-36 | In a sequence of unique identities, no photo's identity occurs earlier in the sequence. Adding such photos in order never hits a duplicate. |
| `AlbumSpec.AppendKeepsUnique` | src/telran/album/dao/AlbumImpl.java:20-24 | Appending a photo whose identity is not yet stored keeps all identities unique. |
| `AlbumSpec.RemoveKeepsUnique` | src/telran/album/dao/AlbumImpl.java:31-35 | Deleting a photo keeps the remaining identities unique. |
| `AlbumSpec.RemovedIsGone` | src/telran/album/dao/AlbumImpl.java:29-38 | After the photo at i is deleted from a store with unique identities, its identity is no longer found. |
| `AlbumSpec.BetweenDatesInclusive` | src/telran/album/dao/AlbumImpl.java:68-69 | These photos are selected: one taken at the first nanosecond of the start date, and one taken at the last nanosecond of the end date. These are not: one taken a nanosecond before the start, and one taken at the first nanosecond of the day after the end date. |
| `AlbumSpec.BetweenDatesByDay` | src/telran/album/dao/AlbumImpl.java:68-69 | A photo taken at any time on day d is selected exactly when dateFrom <= d <= dateTo. |
| `AlbumDao.ArrayCopyLeft` | src/telran/album/dao/AlbumImpl.java:33 | This models `System.arraycopy` within one array towards lower indices. Slots `[dst, dst+len)` get the old values of `[src, src+len)`, and every other slot keeps its old value. |
| `AlbumDao.CopyOf` | src/telran/album/dao/AlbumImpl.java:86 | This models `Arrays.copyOf(a, n)` for n up to the length. The result is a fresh array equal to the first n elements. |
| `AlbumDao.AlbumImpl.constructor` | src/telran/album/dao/AlbumImpl.java:14-16 | A new store has an array of length capacity that is all null, size 0 and no photos, and the invariant holds. |
| `AlbumDao.AlbumImpl.AddPhoto` | src/telran/album/dao/AlbumImpl.java:19-26 | The add succeeds exactly when the photo is non-null, the store is not full and the identity is absent. On success the photo goes at index old size and the contents become old contents plus the photo. On failure the contents and the array are unchanged. The invariant, including unique identities, is preserved. |
| `AlbumDao.AlbumImpl.RemovePhoto` | src/telran/album/dao/AlbumImpl.java:29-39 | The remove succeeds exactly when the identity is stored. On success the contents are the old contents with the matching photo deleted, the others keep their order, and the vacated slot is null. On failure nothing changes. Afterwards the identity is absent either way, and the invariant is preserved. |
| `AlbumDao.AlbumImpl.UpdatePhoto` | src/telran/album/dao/AlbumImpl.java:42-49 | The update succeeds exactly when the identity is stored, and then that photo's url is the argument. No other stored photo's url changes. A failed update changes no url. Contents, order, size and the invariant are unchanged, and identity, title and date are immutable. |
| `AlbumDao.AlbumImpl.GetPhotoFromAlbum` | src/telran/album/dao/AlbumImpl.java:52-59 | The result is the stored photo (the reference itself) at the first index whose albumId and photoId match. It is null exactly when no stored photo has that identity. |
| `AlbumDao.AlbumImpl.GetAllPhotoFromAlbum` | src/telran/album/dao/AlbumImpl.java:62-64 | The result is a fresh array holding, in store order, exactly the stored photos whose albumId matches. |
| `AlbumDao.AlbumImpl.GetPhotoBetweenDate` | src/telran/album/dao/AlbumImpl.java:67-70 | The result is a fresh array holding, in store order, exactly the stored photos taken between the start of dateFrom and the end of dateTo, both inclusive. |
| `AlbumDao.AlbumImpl.Size` | src/telran/album/dao/AlbumImpl.java:73-75 | The result is the number of stored photos. |
| `AlbumDao.AlbumImpl.FindPicturesByPredicate` | src/telran/album/dao/AlbumImpl.java:78-87 | The result is a fresh array whose contents are the order-keeping filter of the stored photos by the predicate. The store is not modified. |
| `AlbumScenario.SetUp` | src/telran/album/test/AlbumTest.java:25-37 | Adding five photos with distinct identities one by one to a store of capacity 6 succeeds each time. The store then holds them in insertion order. |

The client methods `TestAddPhoto`, `TestRemovePhoto`, `TestUpdatePhoto`,
`TestGetPhotoFromAlbum`, `TestGetAllPhotoFromAlbum`, `TestGetPhotoBetweenDate`
and `TestSize` in `AlbumScenario` assert the outcomes of
src/telran/album/test/AlbumTest.java:39-88 from the contracts above.

## Left out

- `java.time`: `LocalDate`, `LocalDateTime`, `atStartOfDay` and `LocalTime.MAX` are replaced by integer day numbers and nanosecond timestamps. Calendar arithmetic, time zones and the `compareTo` implementation are not modelled.
- `Photo.java` is not part of this model. The model assumes that `equals` compares exactly `(albumId, photoId)` and that `setUrl` is a plain field write. In `removePhoto`, the probe photo built with null fields and compared through `equals` is folded into a direct identity test.
- Null `title` and `url` strings: both are `string`, which cannot be null.
- `AlbumDao.CopyOf`: models `Arrays.copyOf` only for a length up to the array's, the only use the store makes of it. Padding a longer copy with nulls is not modelled.
- Java `int` width: ids are only compared, and `size` stays between 0 and the array length, so no 32-bit wrap-around arises. Ids are unbounded `int` and `size` is a `nat`.
- The `Album` interface is a declaration only. Concurrency and persistence do not occur in the program.
- The tests' wall-clock `LocalDateTime.now()` is a parameter (`now`, or `today` and `t`). The tests sort query results with a comparator. Instead, the model proves the unsorted results, which come out in insertion order.
- The explanatory comment blocks after the class (src/telran/album/dao/AlbumImpl.java:91-627) are prose, not behaviour.
