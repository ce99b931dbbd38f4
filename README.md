# VK photo copier — a verified model of its decision core

The program copies the public photos of a VK profile, and optionally its
public albums, to Yandex.Disk, and writes a JSON manifest of what it sent.
This project models, in Dafny, the parts of `main.py` that decide something:

- **Largest-size selection** (`vk_get_info_photo`). A VK photo lists several
  resolution variants, each tagged with a size code. The copier walks the
  fixed priority list `w z y x r q p o m s`. It keeps the variants whose
  type contains the current code and stops at the first code that keeps any.
  It then takes the first variant kept. When no variant has a known code,
  `max_size[0]` raises; the model returns the fault `NoKnownSize`.
- **Collision-aware naming** (`vk_uploader`). Each photo is named after its
  like count. If that bare name was already issued in the batch, a space and
  the photo's formatted upload time are appended. Then `.jpg` is added and
  one upload request is sent to `path/name` with the photo's URL.
- **Album search** (`vk_album_search`). A requested count of 0 is sent as the
  empty string, which the VK API reads as "no limit"; any other count is
  sent in decimal. The response items are projected to id and title, and
  only when the response's `count` is positive.
- **The backup run** (`vk_backup_photo`). A nonzero album count switches
  album copying on. The run creates the root folder, copies the profile
  photos under the key `profile`, and then copies each album into its own
  sub-folder under the album's title. Assigning a title that is already a
  key (a repeated title, or an album called `profile`) overwrites it.

Modules:

| file | module | contents |
|---|---|---|
| vk_types.dfy | `VkTypes` | the API records, the VK API as two functions from request to response, `Result` and `Fault` |
| decimal.dfy | `Decimal` | Python's `str()` on integers, a decimal reader that inverts it, the count encoding |
| ordered_dict.dfy | `OrderedDict` | a Python `dict` with string keys, in insertion order |
| size_selection.dfy | `SizeSelection` | the priority list, the filter, the `for … break` loop as `SelectLargest` |
| naming.dfy | `Naming` | the name, entry and upload sequences of a batch, as functions over growing prefixes |
| disk.dfy | `Disk` | class `Uploader`, which records the requests it sends |
| photo_copier.dfy | `PhotoCopier` | class `VkPhotoCopier`, the album loop, the manifest, and `Backup`, the whole run as a function |

The methods of `VkPhotoCopier` follow the source's loops. Each one is proved
equal to a specification function: `VkGetInfoPhoto` to `InfoPhotos`,
`VkUploader` to `Entries` and `Uploads`, `VkBackupPhoto` to `Backup`.
The lemmas then state what the source promises about those functions.

The VK API is a parameter of the copier: `api.getAlbums` and
`api.getPhotos` give the decoded response for each request. The disk side
is the list of requests the `Uploader` has sent, in order. The machine's
local-time formatter (`fromtimestamp(...).strftime(...)`) is the function
`localTime`, and the run's timestamp is the string parameter `now`.

Behaviour of the code worth knowing:

- A run that meets a photo without a known size code raises. It writes no
  manifest at all, not even for the collections already copied. All disk
  requests sent before the fault stay sent (`Backup`, `VkBackupPhoto`).
- The photo count is sent to `photos.get` as given. A count of 0 is not
  turned into "no limit"; only the album count is (`EncodeCount`, `PhotosQuery`).
- Size selection depends on the order of the `sizes` array when two variants
  share the winning code: the first one listed is kept (`OrderMatters`).
- File names in one batch are not always unique. Take two photos that share
  a like count with an earlier photo and were uploaded in the same second.
  Both get the same suffixed name, because nothing checks a suffixed name
  again (`NamesCanRepeat`).

## Model

| member | source | states |
|---|---|---|
| `Decimal.NatToString` | main.py:93 | `str(n)` of a natural number is a non-empty string of digits, with no leading zero unless n is 0 |
| `Decimal.IntToString` | main.py:93 | `str(n)` starts with `-` exactly when n is negative, the rest is all digits, and a nonzero n has no leading zero; `ParseIntToString` states which number it reads back as |
| `Decimal.ParseNatToString` | main.py:93 | reading the decimal string of n back gives n |
| `Decimal.NatToStringInjective` | main.py:183 | two like counts have the same decimal name exactly when they are equal |
| `Decimal.ParseIntToString` | main.py:93 | reading `str(n)` back gives n, for negative n too |
| `Decimal.EncodeCount` | main.py:90-93 | the count parameter is empty exactly when the requested count is 0; otherwise it is written in decimal, with a sign when negative |
| `Decimal.CountRoundTrip` | main.py:90-95 | the count parameter is well formed, and reads back as "no limit" for 0 and as the requested count otherwise |
| `SizeSelection.Filter` | main.py:142 | the filter keeps at most the variants it is given |
| `SizeSelection.FilterEmpty` | main.py:142-143 | the filter keeps nothing exactly when no variant's type contains the code |
| `SizeSelection.FilterMembers` | main.py:142 | the filter keeps exactly the variants whose type contains the code |
| `SizeSelection.FilterHead` | main.py:142-145 | the first variant kept is the first variant, in array order, that matches |
| `SizeSelection.Largest` | main.py:140-145 | the variant taken, found by walking the codes with `LargestFrom`, is one of the photo's variants, and a photo with no variants has none to take; `LargestIs` and `LargestNone` say which one |
| `SizeSelection.LargestFromIn` | main.py:141-145 | a variant found from a code onwards is one of the photo's variants and matches that code or a later one |
| `SizeSelection.LargestFromNone` | main.py:141-144 | the loop from a code onwards finds nothing exactly when every later code keeps nothing |
| `SizeSelection.LargestFromIs` | main.py:141-145 | the loop stops at the first code that keeps something and takes that code's first variant |
| `SizeSelection.LargestNone` | main.py:141-145 | there is no variant to take, and `max_size[0]` fails, exactly when no variant's type contains any of the ten codes |
| `SizeSelection.LargestIs` | main.py:140-145 | the variant taken is the first, in array order, that matches the earliest code any variant matches |
| `SizeSelection.OrderMatters` | main.py:142-145 | of two variants with the same code, the one listed first is taken, so reordering `sizes` changes the result |
| `SizeSelection.SelectLargest` | main.py:137-144 | `max_size` after the loop is empty exactly when no code matches; otherwise it is the filter for the first code that matches anything, and its head is the variant `Largest` names |
| `OrderedDict.GetSome` | main.py:248 | a key has a value exactly when it is one of the dict's keys |
| `OrderedDict.Set` | main.py:239-248 | `d[k] = v` grows the dict by at most one entry and keeps its first key; `SetKeys`, `SetGet` and `SetDistinct` state the rest |
| `OrderedDict.KeyInSet` | main.py:239-248 | after `d[k] = v` the keys are the old keys and `k` |
| `OrderedDict.SetKeys` | main.py:248 | assigning to a present key keeps the key order; a new key is appended |
| `OrderedDict.SetGet` | main.py:248 | after `d[k] = v`, `k` maps to `v` and every other key keeps its value |
| `OrderedDict.SetDistinct` | main.py:248 | assignment never makes a key appear twice |
| `Disk.Uploader.constructor` | main.py:16-18 | the uploader keeps its token and the disk API's resource URL, and has sent nothing yet |
| `Disk.Uploader.YaCreateFolder` | main.py:20-33 | one folder-creation request for `path` is sent, after all earlier ones |
| `Disk.Uploader.YaUpload` | main.py:35-48 | one upload request for `path` from `downloadable_url` is sent, after all earlier ones |
| `Naming.Stem` | main.py:183-186 | a photo's name starts with its decimal like count, and is exactly that bare count when that name has not been issued yet in the batch |
| `Naming.Stems` | main.py:180-187 | `names_photo` holds one name per photo |
| `Naming.Entries` | main.py:181-192 | the returned list holds one entry per photo |
| `Naming.Uploads` | main.py:182-191 | one upload is sent per photo |
| `Naming.StemsPrefix` | main.py:182-187 | the names issued for the first i photos do not depend on the photos after them |
| `Naming.StemAt` | main.py:183-187 | photo i's name is decided by the names issued before it |
| `Naming.EntriesAt` | main.py:187-192 | entry i is photo i's issued name plus `.jpg` with photo i's size code, and upload i goes to `path/` plus that name from photo i's URL |
| `Naming.SuffixedNotBare` | main.py:183-186 | a suffixed name holds a space, so it never equals a bare decimal name |
| `Naming.BareIssued` | main.py:183-187 | the bare name for a like count has been issued exactly when some photo of the batch has that like count |
| `Naming.NameRule` | main.py:183-188 | photo i is named `<likes>.jpg` when no earlier photo has its like count, and `<likes> <upload time>.jpg` otherwise |
| `Naming.NameSuffixed` | main.py:184-188 | a photo whose like count an earlier photo has gets its upload time appended |
| `Naming.DistinctLikesNames` | main.py:183-188 | when no two photos share a like count, every name is `<likes>.jpg` and all names differ |
| `Naming.RepeatedLikes` | main.py:175-177 | of two photos with equal like counts, the first is named `<likes>.jpg` and the second `<likes> <upload time>.jpg` |
| `Naming.NamesCanRepeat` | main.py:184-187 | two later photos sharing an earlier photo's like count and the same upload second get the same name |
| `PhotoCopier.ProjectAlbums` | main.py:98-102 | the album list holds at most one entry per item, and is empty exactly when the response's count is not positive or it has no items |
| `PhotoCopier.InfoPhotos` | main.py:136-147 | a successful search, each record built by `PhotoInfoOf`, holds one record per item; `InfoPhotosOk`, `InfoPhotosValue` and `InfoPhotosErr` say which |
| `PhotoCopier.InfoPhotosOk` | main.py:136-147 | the photo search succeeds exactly when every item has a variant of a known size code |
| `PhotoCopier.InfoPhotosValue` | main.py:136-147 | a successful search gives one record per item, in order, built from the item's fields and its largest variant |
| `PhotoCopier.InfoPhotosErr` | main.py:141-145 | a failed search names the first item with no variant of a known code |
| `PhotoCopier.InfoPhotosStops` | main.py:136-145 | once the search has failed on an item, later items change nothing |
| `PhotoCopier.ManifestOf` | main.py:239-248 | the manifest has `profile` as its first key and at most one more key per album |
| `PhotoCopier.ManifestOfNext` | main.py:248 | storing one more album assigns its entries under its title in the manifest built so far |
| `PhotoCopier.ManifestKeys` | main.py:233-248 | the manifest's first key is `profile`, and no key appears twice |
| `PhotoCopier.ManifestKeyIn` | main.py:238-248 | the manifest's keys are `profile` and the album titles, and nothing else |
| `PhotoCopier.ManifestLast` | main.py:243-248 | an album title maps to the entries of the last album with that title |
| `PhotoCopier.ManifestProfile` | main.py:238-248 | unless an album is titled `profile`, the profile entries stay under `profile` |
| `PhotoCopier.TitleSnoc` | main.py:243-248 | an album title occurs among the albums exactly when it occurs among all but the last or is the last one's |
| `PhotoCopier.AlbumStep` | main.py:245-248 | one album first asks for the folder `root/title`; on success it then sends one more request per entry, and on a fault nothing more |
| `PhotoCopier.AlbumStepUpload` | main.py:245-248 | once an album's photo search succeeds, its entries are those `vk_uploader` gives for its photos, each keeping its photo's size code, and its request 1 + i (after the folder) is the upload of photo i to `root/title/<name of entry i>` from that photo's URL |
| `PhotoCopier.AlbumsLoop` | main.py:243-248 | the loop stores at most one collection per album, and one per album when no fault stopped it |
| `PhotoCopier.AlbumsLoopNext` | main.py:243-248 | one more album sends its requests, and then either stops the loop on its fault or stores its entries under its title |
| `PhotoCopier.AlbumsLoopStops` | main.py:243-248 | once the album loop has stopped on a fault, later albums send nothing and store nothing |
| `PhotoCopier.AlbumsLoopGrows` | main.py:243-248 | the requests sent for the first albums stay, unchanged, at the front of what the whole loop sends |
| `PhotoCopier.AlbumsLoopSends` | main.py:243-248 | an album the loop reaches has all its requests sent right after those of the albums before it |
| `PhotoCopier.AlbumsLoopOk` | main.py:243-248 | a loop without a fault stored one pair per album, in order: the album's title with its entries |
| `PhotoCopier.Backup` | main.py:231-255 | every run first asks for the root folder `RootFolder(now)`; a successful run writes its manifest to `ManifestPath(now)`, with `profile` as its first key; `BackupStart`, `BackupProfileUpload` and `BackupAlbumRequests` say where its uploads go |
| `PhotoCopier.CountForcesAlbums` | main.py:232-233 | a nonzero album count gives the same run whether or not album copying was asked for |
| `PhotoCopier.BackupProfileKey` | main.py:233-255 | a successful run's manifest goes to `result/result vk_backup_photo <now>.json`; its first key is `profile` and no key repeats; `profile` is its only key when albums are not copied or the album search reports none |
| `PhotoCopier.BackupAlbumEntry` | main.py:240-248 | in a successful run that copies albums, an album whose title no later album repeats has its photos' entries under its title |
| `PhotoCopier.BackupStart` | main.py:235-239 | once the profile photos are found, the run's requests begin with the root folder and then the profile uploads, in order |
| `PhotoCopier.BackupProfileUpload` | main.py:236-239 | once the profile photos are found, the run's request numbered 1 + i is the upload of profile photo i to `<root folder>/<name of profile entry i>` from its URL |
| `PhotoCopier.BackupRequests` | main.py:236-248 | a run that copies albums sends the root folder, then the profile uploads, then what the album loop sends |
| `PhotoCopier.BackupAlbumRequests` | main.py:241-248 | in a run that copies albums, an album the loop reaches has, right after the root folder, the profile uploads and the earlier albums' requests, its folder `<root folder>/<title>` created and, when its photo search succeeds, one upload per photo into that folder, in order |
| `PhotoCopier.BackupOutcome` | main.py:231-255 | once the profile photos are found, a run that copies albums fails with the album loop's fault, or returns the manifest of the profile entries and the stored albums |
| `PhotoCopier.TripEntries` | main.py:183-192 | two profile photos with 10 likes are named `10.jpg` and `10 <time>.jpg`; an album photo with 5 likes is named `5.jpg` |
| `PhotoCopier.TripScenario` | main.py:231-255 | two profile photos with 10 likes and one album "Trip" with a 5-like photo give the manifest `{profile: [10.jpg, 10 <time>.jpg], Trip: [5.jpg]}` |
| `PhotoCopier.VkPhotoCopier.constructor` | main.py:68-73 | the copier keeps its id, token and API version, uses the VK method URL, and owns a fresh uploader that has sent nothing |
| `PhotoCopier.VkPhotoCopier.VkAlbumSearch` | main.py:90-104 | the count is sent encoded; the result is empty when the response's count is not positive, and otherwise holds each item's id and title, in order |
| `PhotoCopier.VkPhotoCopier.VkGetInfoPhoto` | main.py:130-149 | the loop returns the records `InfoPhotos` describes, or the fault of the first item with no known size code |
| `PhotoCopier.VkPhotoCopier.VkUploader` | main.py:180-194 | the loop returns the entries `Entries` describes and sends exactly the uploads `Uploads` describes, after the earlier requests |
| `PhotoCopier.VkPhotoCopier.CopyAlbum` | main.py:245-248 | one album creates `path/title`, searches its photos and uploads them there, as `AlbumStep` describes |
| `PhotoCopier.VkPhotoCopier.CopyAlbums` | main.py:243-248 | the album loop stores and sends what `AlbumsLoop` describes, and stops at the first fault |
| `PhotoCopier.VkPhotoCopier.VkBackupPhoto` | main.py:231-255 | the run returns the outcome `Backup` describes and sends exactly its disk requests |

## Left out

- HTTP: the `requests.get/put/post` calls, their headers, tokens, `v`, `extended` and `photo_sizes` parameters, and the `.json()` decoding are I/O. The VK answers are the `api` parameter; the disk side is the list of requests sent.
- Malformed responses: a missing JSON key or field raises `KeyError` in the source. The model's response records always have every field.
- `google_create_folder` is an empty stub and is not modelled.
- The tqdm progress bars are display only. So `VkUploader`'s `albumName` parameter, which only labels the bar, is accepted and not used.
- The local file system and JSON output (`os.path.exists`, `os.mkdir`, `open`, `json.dump`) are I/O. The model returns the manifest's path and contents instead.
- `datetime.now()` and `strftime` depend on the clock and the time zone. They become the `now` parameter and the `localTime` function.
- The `__main__` block only holds configuration constants.
- ManifestPath: joins `result` and the file name with `/`, which is what `os.path.join` does on POSIX systems; the Windows separator is not modelled.
- Inheritance: `VkPhotoCopier` derives from `Uploader` in the source. Here it holds its `Uploader` in the field `disk`, which it alone modifies.
- `other_albums is True` only passes for the boolean `True`. The model types the flag as `bool`, where this is plain truth.
- `versionApi` is a Dafny `real` standing for Python's `float`; it is only stored and sent.
- `album_id` is a string `'profile'` or an album's integer id in the source; the model uses the datatype `AlbumKey`.
- Like counts are natural numbers, as VK reports them.
