/** The copier itself (class `VkPhotoCopier`, main.py lines 54-255): the
    album search, the photo search with its size selection, the upload of a
    batch under collision-aware names, and the backup run that ties them
    together and assembles the manifest.

    The source's `VkPhotoCopier` inherits from `Uploader`; here it holds its
    `Uploader` in the field `disk`, and `self.ya_upload(...)` becomes
    `disk.YaUpload(...)`. The VK API, the machine's local-time formatter and
    the run's timestamp are inputs of the model. */
module PhotoCopier {
  import opened VkTypes
  import opened Decimal
  import opened SizeSelection
  import opened Naming
  import opened Disk
  import OrderedDict

  /** `result` in `vk_backup_photo`: collection label to manifest entries. */
  type Manifest = OrderedDict.Dict<seq<FileEntry>>

  /** What a successful run leaves behind: the JSON file's path and the
      manifest it holds. */
  datatype Report = Report(file: string, manifest: Manifest)

  // ---------------------------------------------------------------------
  // Album search (`vk_album_search`, main.py lines 90-104)

  /** The `albums` list built from a `photos.getAlbums` response. */
  function ProjectAlbums(resp: AlbumsResponse): (r: seq<AlbumSummary>)
    ensures |r| <= |resp.items|
    ensures r == [] <==> resp.count <= 0 || resp.items == []
  {
    if resp.count > 0
    then seq(|resp.items|, i requires 0 <= i < |resp.items| => AlbumSummary(resp.items[i].id, resp.items[i].title))
    else []
  }

  // ---------------------------------------------------------------------
  // Photo search (`vk_get_info_photo`, main.py lines 130-149)

  /** The `info_photo` record for item `p` with chosen variant `v`. */
  function PhotoInfoOf(p: PhotoItem, v: Size): PhotoInfo {
    PhotoInfo(p.id, p.albumId, p.date, p.likes, v.url, v.kind, v.height, v.width)
  }

  /** What `vk_get_info_photo` returns for the items of a response: the
      records in order, or the fault of the first item with no variant of a
      known size code. */
  function InfoPhotos(items: seq<PhotoItem>): (r: Result<seq<PhotoInfo>>)
    ensures r.Ok? ==> |r.value| == |items|
  {
    if items == [] then Ok([])
    else
      match InfoPhotos(items[..|items| - 1])
      case Err(f) => Err(f)
      case Ok(infos) =>
        var p := items[|items| - 1];
        match Largest(p.sizes)
        case None => Err(NoKnownSize(p.id))
        case Some(v) => Ok(infos + [PhotoInfoOf(p, v)])
  }

  /** The photo search succeeds exactly when every item has a variant of a
      known size code, and then gives one record per item, in order, built
      from that item's largest variant. */
  lemma {:induction false} InfoPhotosOk(items: seq<PhotoItem>)
    ensures InfoPhotos(items).Ok? <==> forall i :: 0 <= i < |items| ==> Largest(items[i].sizes).Some?
  {
    if items != [] {
      var n := |items| - 1;
      var init := items[..n];
      InfoPhotosOk(init);
      if InfoPhotos(items).Ok? {
        forall i | 0 <= i < |items|
          ensures Largest(items[i].sizes).Some?
        {
          if i < n {
            assert init[i] == items[i];
          }
        }
      }
      if forall i :: 0 <= i < |items| ==> Largest(items[i].sizes).Some? {
        forall i | 0 <= i < n
          ensures Largest(init[i].sizes).Some?
        {
          assert init[i] == items[i];
        }
      }
    }
  }

  lemma {:induction false} InfoPhotosValue(items: seq<PhotoItem>)
    requires InfoPhotos(items).Ok?
    ensures |InfoPhotos(items).value| == |items|
    ensures forall i :: 0 <= i < |items| ==>
      Largest(items[i].sizes).Some? && InfoPhotos(items).value[i] == PhotoInfoOf(items[i], Largest(items[i].sizes).value)
  {
    if items != [] {
      var n := |items| - 1;
      var init := items[..n];
      assert InfoPhotos(init).Ok?;
      InfoPhotosValue(init);
      assert forall i :: 0 <= i < n ==> init[i] == items[i];
    }
  }

  /** A failed photo search names the first item without a known size code. */
  lemma {:induction false} InfoPhotosErr(items: seq<PhotoItem>)
    requires InfoPhotos(items).Err?
    ensures exists i :: 0 <= i < |items| && Largest(items[i].sizes).None? &&
                        InfoPhotos(items).fault == NoKnownSize(items[i].id) &&
                        (forall j :: 0 <= j < i ==> Largest(items[j].sizes).Some?)
  {
    var n := |items| - 1;
    assert forall i :: 0 <= i < n ==> items[..n][i] == items[i];
    if InfoPhotos(items[..n]).Err? {
      InfoPhotosErr(items[..n]);
    } else {
      InfoPhotosOk(items[..n]);
      assert Largest(items[n].sizes).None?;
    }
  }

  /** Once the photo search has failed on an item, later items change
      nothing. */
  lemma {:induction false} InfoPhotosStops(items: seq<PhotoItem>, i: nat)
    requires i <= |items| && InfoPhotos(items[..i]).Err?
    ensures InfoPhotos(items) == InfoPhotos(items[..i])
    decreases |items|
  {
    if i < |items| {
      var n := |items| - 1;
      assert items[..n][..i] == items[..i];
      InfoPhotosStops(items[..n], i);
    } else {
      assert items[..i] == items;
    }
  }

  // ---------------------------------------------------------------------
  // Manifest assembly (`vk_backup_photo`, main.py lines 234-248)

  /** The manifest after `result['profile'] = profile` and then
      `result[title] = entries` for each album's `(title, entries)`, in
      order. */
  function ManifestOf(profile: seq<FileEntry>, albums: seq<(string, seq<FileEntry>)>): (r: Manifest)
    ensures 1 <= |r| <= |albums| + 1
    ensures r[0].0 == "profile"
  {
    if albums == [] then OrderedDict.Set([], "profile", profile)
    else
      var last := albums[|albums| - 1];
      OrderedDict.Set(ManifestOf(profile, albums[..|albums| - 1]), last.0, last.1)
  }

  /** Storing one more album's entries. */
  lemma {:induction false} ManifestOfNext(profile: seq<FileEntry>, albums: seq<(string, seq<FileEntry>)>, title: string, entries: seq<FileEntry>)
    ensures ManifestOf(profile, albums + [(title, entries)]) == OrderedDict.Set(ManifestOf(profile, albums), title, entries)
  {
    assert (albums + [(title, entries)])[..|albums|] == albums;
  }

  /** The manifest's first key is always `profile`, and no key appears
      twice. */
  lemma {:induction false} ManifestKeys(profile: seq<FileEntry>, albums: seq<(string, seq<FileEntry>)>)
    ensures var keys := OrderedDict.Keys(ManifestOf(profile, albums));
      |keys| >= 1 && keys[0] == "profile" && OrderedDict.Distinct(keys)
  {
    if albums != [] {
      var n := |albums| - 1;
      ManifestKeys(profile, albums[..n]);
      OrderedDict.SetDistinct(ManifestOf(profile, albums[..n]), albums[n].0, albums[n].1);
    }
  }

  /** The manifest's keys are `profile` and the album titles. */
  lemma {:induction false} ManifestKeyIn(profile: seq<FileEntry>, albums: seq<(string, seq<FileEntry>)>, t: string)
    ensures t in OrderedDict.Keys(ManifestOf(profile, albums)) <==>
            t == "profile" || exists j :: 0 <= j < |albums| && albums[j].0 == t
  {
    if albums == [] {
      OrderedDict.KeyInSet([], "profile", profile, t);
    } else {
      var n := |albums| - 1;
      var init := albums[..n];
      var before := ManifestOf(profile, init);
      assert ManifestOf(profile, albums) == OrderedDict.Set(before, albums[n].0, albums[n].1);
      OrderedDict.KeyInSet(before, albums[n].0, albums[n].1, t);
      ManifestKeyIn(profile, init, t);
      TitleSnoc(albums, init, t);
    }
  }

  /** An album titled `t` is among the first albums or is the last one. */
  lemma {:induction false} TitleSnoc(albums: seq<(string, seq<FileEntry>)>, init: seq<(string, seq<FileEntry>)>, t: string)
    requires |albums| == |init| + 1 && init == albums[..|init|]
    ensures (exists j :: 0 <= j < |albums| && albums[j].0 == t) <==>
            (exists j :: 0 <= j < |init| && init[j].0 == t) || albums[|init|].0 == t
  {
    if exists j :: 0 <= j < |albums| && albums[j].0 == t {
      var j :| 0 <= j < |albums| && albums[j].0 == t;
      if j < |init| {
        assert init[j].0 == t;
      }
    }
    if exists j :: 0 <= j < |init| && init[j].0 == t {
      var j :| 0 <= j < |init| && init[j].0 == t;
      assert albums[j].0 == t;
    }
  }

  /** An album title maps to the entries of the LAST album with that title:
      a later album with the same title, or one titled `profile`, overwrites
      the earlier entry. */
  lemma {:induction false} ManifestLast(profile: seq<FileEntry>, albums: seq<(string, seq<FileEntry>)>, j: nat)
    requires j < |albums|
    requires forall j' :: j < j' < |albums| ==> albums[j'].0 != albums[j].0
    ensures OrderedDict.Get(ManifestOf(profile, albums), albums[j].0) == Some(albums[j].1)
  {
    var n := |albums| - 1;
    var init := albums[..n];
    assert ManifestOf(profile, albums) == OrderedDict.Set(ManifestOf(profile, init), albums[n].0, albums[n].1);
    OrderedDict.SetGet(ManifestOf(profile, init), albums[n].0, albums[n].1, albums[j].0);
    if j < n {
      assert init[j] == albums[j];
      assert forall j' :: j < j' < n ==> init[j'] == albums[j'];
      ManifestLast(profile, init, j);
    }
  }

  /** Unless an album is titled `profile`, the profile photos' entries stay
      under `profile`. */
  lemma {:induction false} ManifestProfile(profile: seq<FileEntry>, albums: seq<(string, seq<FileEntry>)>)
    requires forall j :: 0 <= j < |albums| ==> albums[j].0 != "profile"
    ensures OrderedDict.Get(ManifestOf(profile, albums), "profile") == Some(profile)
  {
    if albums == [] {
      OrderedDict.SetGet([], "profile", profile, "profile");
    } else {
      var n := |albums| - 1;
      ManifestProfile(profile, albums[..n]);
      OrderedDict.SetGet(ManifestOf(profile, albums[..n]), albums[n].0, albums[n].1, "profile");
    }
  }

  // ---------------------------------------------------------------------
  // The backup run (`vk_backup_photo`, main.py lines 232-255)

  /** `'VK backup photo ' + date_time`: the run's root folder. */
  function RootFolder(now: string): string {
    "VK backup photo " + now
  }

  /** `os.path.join('result', 'result vk_backup_photo ' + date_time + '.json')`. */
  function ManifestPath(now: string): string {
    "result/result vk_backup_photo " + now + ".json"
  }

  /** The state of the album loop: the fault it stopped on, if any, the
      `(title, entries)` pairs it stored and the disk requests it sent. */
  datatype Progress = Progress(fault: Option<Fault>, collections: seq<(string, seq<FileEntry>)>, requests: seq<DiskRequest>)

  /** The photo request for album `a`. */
  function AlbumQuery(ownerId: string, a: AlbumSummary, numberPhotos: int): PhotosQuery {
    PhotosQuery(ownerId, AlbumId(a.albumId), numberPhotos)
  }

  /** One album of the loop: its entries, or the fault its photo search
      ends on, and the disk requests it sends (create `root/title`, then one
      upload per photo). */
  datatype AlbumOutcome = AlbumOutcome(entries: Result<seq<FileEntry>>, requests: seq<DiskRequest>)

  function AlbumStep(api: VkApi, ownerId: string, localTime: int -> string, root: string,
                     numberPhotos: int, a: AlbumSummary): (r: AlbumOutcome)
    ensures |r.requests| >= 1 && r.requests[0] == CreateFolder(root + "/" + a.title)
    ensures r.entries.Ok? ==> |r.requests| == |r.entries.value| + 1
    ensures r.entries.Err? ==> |r.requests| == 1
  {
    var folder := root + "/" + a.title;
    match InfoPhotos(api.getPhotos(AlbumQuery(ownerId, a, numberPhotos)))
    case Err(f) => AlbumOutcome(Err(f), [CreateFolder(folder)])
    case Ok(photos) => AlbumOutcome(Ok(Entries(photos, localTime)), [CreateFolder(folder)] + Uploads(folder, photos, localTime))
  }

  /** Each album's title with what processing it alone would give. */
  function AlbumSteps(api: VkApi, ownerId: string, localTime: int -> string, root: string,
                      numberPhotos: int, albums: seq<AlbumSummary>): seq<(string, AlbumOutcome)>
  {
    seq(|albums|, j requires 0 <= j < |albums| => (albums[j].title, AlbumStep(api, ownerId, localTime, root, numberPhotos, albums[j])))
  }

  /** The album loop over the albums' steps, in order, stopping at the first
      fault. */
  function AlbumsLoop(steps: seq<(string, AlbumOutcome)>): (r: Progress)
    ensures |r.collections| <= |steps|
    ensures r.fault.None? ==> |r.collections| == |steps|
  {
    if steps == [] then Progress(None, [], [])
    else
      var p := AlbumsLoop(steps[..|steps| - 1]);
      if p.fault.Some? then p
      else
        var (title, step) := steps[|steps| - 1];
        match step.entries
        case Err(f) => Progress(Some(f), p.collections, p.requests + step.requests)
        case Ok(entries) => Progress(None, p.collections + [(title, entries)], p.requests + step.requests)
  }

  /** One more album: a fault stops the loop, a success stores its
      entries under its title; its requests are sent either way. */
  lemma {:induction false} AlbumsLoopNext(steps: seq<(string, AlbumOutcome)>, i: nat)
    requires i < |steps| && AlbumsLoop(steps[..i]).fault.None?
    ensures var p := AlbumsLoop(steps[..i]);
      var step := steps[i].1;
      AlbumsLoop(steps[..i + 1]) ==
        if step.entries.Err? then Progress(Some(step.entries.fault), p.collections, p.requests + step.requests)
        else Progress(None, p.collections + [(steps[i].0, step.entries.value)], p.requests + step.requests)
  {
    assert steps[..i + 1][..i] == steps[..i];
  }

  /** Once the album loop has stopped on a fault, later albums change
      nothing: no folder, no upload, no manifest entry. */
  lemma {:induction false} AlbumsLoopStops(steps: seq<(string, AlbumOutcome)>, i: nat)
    requires i <= |steps| && AlbumsLoop(steps[..i]).fault.Some?
    ensures AlbumsLoop(steps) == AlbumsLoop(steps[..i])
    decreases |steps|
  {
    if i < |steps| {
      var n := |steps| - 1;
      assert steps[..n][..i] == steps[..i];
      AlbumsLoopStops(steps[..n], i);
    } else {
      assert steps[..i] == steps;
    }
  }

  /** When the album loop finishes without a fault, every album succeeded
      and the loop stored one pair per album, in order: its title with its
      entries. */
  lemma {:induction false} AlbumsLoopOk(steps: seq<(string, AlbumOutcome)>)
    requires AlbumsLoop(steps).fault.None?
    ensures var cs := AlbumsLoop(steps).collections;
      |cs| == |steps| &&
      forall j :: 0 <= j < |steps| ==> steps[j].1.entries.Ok? && cs[j] == (steps[j].0, steps[j].1.entries.value)
  {
    if steps != [] {
      var n := |steps| - 1;
      AlbumsLoopOk(steps[..n]);
      assert forall j :: 0 <= j < n ==> steps[..n][j] == steps[j];
    }
  }

  /** Once album `a`'s photo search has succeeded, the album's entries are
      those of its photos, its upload `i` goes to `root/title/<name of
      entry i>` from photo `i`'s URL, and entry `i` keeps that photo's size
      code. */
  lemma {:induction false} AlbumStepUpload(api: VkApi, ownerId: string, localTime: int -> string, root: string,
                        numberPhotos: int, a: AlbumSummary, i: nat)
    requires var r := AlbumStep(api, ownerId, localTime, root, numberPhotos, a);
      r.entries.Ok? && i < |r.entries.value|
    ensures var r := AlbumStep(api, ownerId, localTime, root, numberPhotos, a);
      var photos := InfoPhotos(api.getPhotos(AlbumQuery(ownerId, a, numberPhotos))).value;
      r.entries.value == Entries(photos, localTime) &&
      r.requests[1 + i] == Upload(root + "/" + a.title + "/" + r.entries.value[i].fileName, photos[i].url) &&
      r.entries.value[i].size == photos[i].sizes
  {
    var path := root + "/" + a.title;
    var r := AlbumStep(api, ownerId, localTime, root, numberPhotos, a);
    var q := InfoPhotos(api.getPhotos(AlbumQuery(ownerId, a, numberPhotos)));
    assert q.Ok?;
    var photos := q.value;
    assert r.entries.value == Entries(photos, localTime);
    var uploads := Uploads(path, photos, localTime);
    assert r.requests == [CreateFolder(path)] + uploads;
    EntriesAt(path, photos, localTime, i);
    assert r.requests[1 + i] == uploads[i];
  }

  /** Requests sent by the loop over the first albums stay at the front of
      what the whole loop sends. */
  lemma {:induction false} AlbumsLoopGrows(steps: seq<(string, AlbumOutcome)>, i: nat)
    requires i <= |steps|
    ensures AlbumsLoop(steps[..i]).requests <= AlbumsLoop(steps).requests
    decreases |steps|
  {
    if i < |steps| {
      var n := |steps| - 1;
      assert steps[..n][..i] == steps[..i];
      AlbumsLoopGrows(steps[..n], i);
    } else {
      assert steps[..i] == steps;
    }
  }

  /** An album the loop reaches has all its requests sent, right after
      those of the albums before it. */
  lemma {:induction false} AlbumsLoopSends(steps: seq<(string, AlbumOutcome)>, j: nat)
    requires j < |steps| && AlbumsLoop(steps[..j]).fault.None?
    ensures AlbumsLoop(steps[..j]).requests + steps[j].1.requests <= AlbumsLoop(steps).requests
  {
    AlbumsLoopNext(steps, j);
    AlbumsLoopGrows(steps, j + 1);
  }

  /** The whole run: the outcome (the report, or the fault that ended it) and
      every disk request sent before it ended. A fault leaves the requests
      already sent in place and writes no manifest. */
  datatype Run = Run(outcome: Result<Report>, requests: seq<DiskRequest>)

  function Backup(api: VkApi, ownerId: string, localTime: int -> string, otherAlbums: bool,
                  numberAlbums: int, numberPhotos: int, now: string): (r: Run)
    ensures |r.requests| >= 1 && r.requests[0] == CreateFolder(RootFolder(now))
    ensures r.outcome.Ok? ==> r.outcome.value.file == ManifestPath(now) &&
                              |r.outcome.value.manifest| >= 1 && r.outcome.value.manifest[0].0 == "profile"
  {
    var root := RootFolder(now);
    match InfoPhotos(api.getPhotos(PhotosQuery(ownerId, Profile, numberPhotos)))
    case Err(f) => Run(Err(f), [CreateFolder(root)])
    case Ok(photos) =>
      var entries := Entries(photos, localTime);
      var requests := [CreateFolder(root)] + Uploads(root, photos, localTime);
      if otherAlbums || numberAlbums != 0 then
        var albums := ProjectAlbums(api.getAlbums(AlbumsQuery(ownerId, EncodeCount(numberAlbums))));
        var p := AlbumsLoop(AlbumSteps(api, ownerId, localTime, root, numberPhotos, albums));
        Run(if p.fault.Some? then Err(p.fault.value) else Ok(Report(ManifestPath(now), ManifestOf(entries, p.collections))),
            requests + p.requests)
      else
        Run(Ok(Report(ManifestPath(now), ManifestOf(entries, []))), requests)
  }

  /** A nonzero album count switches album copying on: the run is the same
      whether or not `other_albums` was asked for. */
  lemma {:induction false} CountForcesAlbums(api: VkApi, ownerId: string, localTime: int -> string,
                          numberAlbums: int, numberPhotos: int, now: string)
    requires numberAlbums != 0
    ensures Backup(api, ownerId, localTime, false, numberAlbums, numberPhotos, now) ==
            Backup(api, ownerId, localTime, true, numberAlbums, numberPhotos, now)
  {
  }

  /** Every successful run's manifest has `profile` as its first key and
      no key twice; when albums are not copied, or no album is public,
      `profile` is its only key. */
  lemma {:induction false} BackupProfileKey(api: VkApi, ownerId: string, localTime: int -> string, otherAlbums: bool,
                         numberAlbums: int, numberPhotos: int, now: string)
    requires Backup(api, ownerId, localTime, otherAlbums, numberAlbums, numberPhotos, now).outcome.Ok?
    ensures var report := Backup(api, ownerId, localTime, otherAlbums, numberAlbums, numberPhotos, now).outcome.value;
      var keys := OrderedDict.Keys(report.manifest);
      report.file == ManifestPath(now) &&
      |keys| >= 1 && keys[0] == "profile" && OrderedDict.Distinct(keys) &&
      (((!otherAlbums && numberAlbums == 0) ||
        api.getAlbums(AlbumsQuery(ownerId, EncodeCount(numberAlbums))).count <= 0) ==> keys == ["profile"])
  {
    var photos := InfoPhotos(api.getPhotos(PhotosQuery(ownerId, Profile, numberPhotos))).value;
    var entries := Entries(photos, localTime);
    if otherAlbums || numberAlbums != 0 {
      var albums := ProjectAlbums(api.getAlbums(AlbumsQuery(ownerId, EncodeCount(numberAlbums))));
      var p := AlbumsLoop(AlbumSteps(api, ownerId, localTime, RootFolder(now), numberPhotos, albums));
      ManifestKeys(entries, p.collections);
      if albums == [] {
        assert OrderedDict.Keys(ManifestOf(entries, p.collections)) == ["profile"];
      }
    } else {
      ManifestKeys(entries, []);
      assert OrderedDict.Keys(ManifestOf(entries, [])) == ["profile"];
    }
  }

  /** In a successful run that copies albums, album `j` of the search result
      whose title no later album repeats has its photos' entries under its
      title. */
  lemma {:induction false} BackupAlbumEntry(api: VkApi, ownerId: string, localTime: int -> string, otherAlbums: bool,
                         numberAlbums: int, numberPhotos: int, now: string, j: nat)
    requires otherAlbums || numberAlbums != 0
    requires Backup(api, ownerId, localTime, otherAlbums, numberAlbums, numberPhotos, now).outcome.Ok?
    requires var albums := ProjectAlbums(api.getAlbums(AlbumsQuery(ownerId, EncodeCount(numberAlbums))));
      j < |albums| && forall j' :: j < j' < |albums| ==> albums[j'].title != albums[j].title
    ensures var albums := ProjectAlbums(api.getAlbums(AlbumsQuery(ownerId, EncodeCount(numberAlbums))));
      var photos := InfoPhotos(api.getPhotos(AlbumQuery(ownerId, albums[j], numberPhotos)));
      var report := Backup(api, ownerId, localTime, otherAlbums, numberAlbums, numberPhotos, now).outcome.value;
      photos.Ok? && OrderedDict.Get(report.manifest, albums[j].title) == Some(Entries(photos.value, localTime))
  {
    var photos := InfoPhotos(api.getPhotos(PhotosQuery(ownerId, Profile, numberPhotos))).value;
    var entries := Entries(photos, localTime);
    var albums := ProjectAlbums(api.getAlbums(AlbumsQuery(ownerId, EncodeCount(numberAlbums))));
    var steps := AlbumSteps(api, ownerId, localTime, RootFolder(now), numberPhotos, albums);
    var p := AlbumsLoop(steps);
    AlbumsLoopOk(steps);
    ManifestLast(entries, p.collections, j);
  }

  /** Every run whose profile photos are found starts with the root folder
      and then the profile uploads. */
  lemma {:induction false} BackupStart(api: VkApi, ownerId: string, localTime: int -> string, otherAlbums: bool,
                                       numberAlbums: int, numberPhotos: int, now: string, profile: seq<PhotoInfo>)
    requires InfoPhotos(api.getPhotos(PhotosQuery(ownerId, Profile, numberPhotos))) == Ok(profile)
    ensures [CreateFolder(RootFolder(now))] + Uploads(RootFolder(now), profile, localTime)
            <= Backup(api, ownerId, localTime, otherAlbums, numberAlbums, numberPhotos, now).requests
  {
  }

  /** Profile photo `i` is uploaded to `<root folder>/<name of profile entry i>`
      from its URL, right after the root folder and the photos before it. */
  lemma {:induction false} BackupProfileUpload(api: VkApi, ownerId: string, localTime: int -> string, otherAlbums: bool,
                                               numberAlbums: int, numberPhotos: int, now: string,
                                               profile: seq<PhotoInfo>, i: nat)
    requires InfoPhotos(api.getPhotos(PhotosQuery(ownerId, Profile, numberPhotos))) == Ok(profile) && i < |profile|
    ensures var log := Backup(api, ownerId, localTime, otherAlbums, numberAlbums, numberPhotos, now).requests;
      1 + i < |log| &&
      log[1 + i] == Upload(RootFolder(now) + "/" + Entries(profile, localTime)[i].fileName, profile[i].url)
  {
    var head := [CreateFolder(RootFolder(now))] + Uploads(RootFolder(now), profile, localTime);
    BackupStart(api, ownerId, localTime, otherAlbums, numberAlbums, numberPhotos, now, profile);
    EntriesAt(RootFolder(now), profile, localTime, i);
    PrefixIndex(head, Backup(api, ownerId, localTime, otherAlbums, numberAlbums, numberPhotos, now).requests, 1 + i);
  }

  /** An element of a prefix is the log's element at the same place. */
  lemma {:induction false} PrefixIndex<T>(pre: seq<T>, log: seq<T>, k: nat)
    requires pre <= log && k < |pre|
    ensures k < |log| && log[k] == pre[k]
  {
  }

  /** A run that copies albums sends the root folder, the profile uploads
      and then what the album loop sends. */
  lemma {:induction false} BackupRequests(api: VkApi, ownerId: string, localTime: int -> string, otherAlbums: bool,
                       numberAlbums: int, numberPhotos: int, now: string)
    requires otherAlbums || numberAlbums != 0
    requires InfoPhotos(api.getPhotos(PhotosQuery(ownerId, Profile, numberPhotos))).Ok?
    ensures var profile := InfoPhotos(api.getPhotos(PhotosQuery(ownerId, Profile, numberPhotos))).value;
      var albums := ProjectAlbums(api.getAlbums(AlbumsQuery(ownerId, EncodeCount(numberAlbums))));
      Backup(api, ownerId, localTime, otherAlbums, numberAlbums, numberPhotos, now).requests ==
        [CreateFolder(RootFolder(now))] + Uploads(RootFolder(now), profile, localTime) +
        AlbumsLoop(AlbumSteps(api, ownerId, localTime, RootFolder(now), numberPhotos, albums)).requests
  {
  }

  /** A prefix stays a prefix behind a common head. */
  lemma {:induction false} PrefixAfter<T>(head: seq<T>, x: seq<T>, y: seq<T>)
    requires x <= y
    ensures head + x <= head + y
  {
    assert (head + y)[..|head + x|] == head + x;
  }

  /** In a run that copies albums, album `j`, once the loop reaches it,
      sends its requests right after the root folder, the profile uploads
      and the earlier albums' requests: the folder `<root folder>/<title>`,
      then, when its photo search succeeds, one upload per photo into that
      folder (`EntriesAt` names each one). */
  lemma {:induction false} BackupAlbumRequests(api: VkApi, ownerId: string, localTime: int -> string, otherAlbums: bool,
                            numberAlbums: int, numberPhotos: int, now: string,
                            profile: seq<PhotoInfo>, albums: seq<AlbumSummary>, j: nat)
    requires otherAlbums || numberAlbums != 0
    requires InfoPhotos(api.getPhotos(PhotosQuery(ownerId, Profile, numberPhotos))) == Ok(profile)
    requires albums == ProjectAlbums(api.getAlbums(AlbumsQuery(ownerId, EncodeCount(numberAlbums))))
    requires j < |albums| &&
      AlbumsLoop(AlbumSteps(api, ownerId, localTime, RootFolder(now), numberPhotos, albums)[..j]).fault.None?
    ensures var folder := RootFolder(now) + "/" + albums[j].title;
      var q := InfoPhotos(api.getPhotos(AlbumQuery(ownerId, albums[j], numberPhotos)));
      [CreateFolder(RootFolder(now))] + Uploads(RootFolder(now), profile, localTime) +
      AlbumsLoop(AlbumSteps(api, ownerId, localTime, RootFolder(now), numberPhotos, albums)[..j]).requests +
      ([CreateFolder(folder)] + (if q.Ok? then Uploads(folder, q.value, localTime) else []))
      <= Backup(api, ownerId, localTime, otherAlbums, numberAlbums, numberPhotos, now).requests
  {
    var root := RootFolder(now);
    var steps := AlbumSteps(api, ownerId, localTime, root, numberPhotos, albums);
    var head := [CreateFolder(root)] + Uploads(root, profile, localTime);
    var sent := AlbumsLoop(steps[..j]).requests;
    var step := AlbumStep(api, ownerId, localTime, root, numberPhotos, albums[j]);
    assert steps[j].1 == step;
    BackupRequests(api, ownerId, localTime, otherAlbums, numberAlbums, numberPhotos, now);
    AlbumsLoopSends(steps, j);
    PrefixAfter(head, sent + step.requests, AlbumsLoop(steps).requests);
    AppendAssoc(head, sent, step.requests);
  }

  /** A photo whose only variant has size code `x` has that variant taken. */
  lemma {:induction false} SingleXVariant(sizes: seq<Size>)
    requires |sizes| == 1 && sizes[0].kind == "x"
    ensures Largest(sizes) == Some(sizes[0])
  {
    LargestIs(sizes, 3, 0);
  }

  lemma {:induction false} InfoPhotosPair(p1: PhotoItem, p2: PhotoItem)
    requires Largest(p1.sizes).Some? && Largest(p2.sizes).Some?
    ensures InfoPhotos([p1, p2]) ==
      Ok([PhotoInfoOf(p1, Largest(p1.sizes).value), PhotoInfoOf(p2, Largest(p2.sizes).value)])
  {
    InfoPhotosSingle(p1);
    var items := [p1, p2];
    assert items[..|items| - 1] == [p1];
    var i1 := PhotoInfoOf(p1, Largest(p1.sizes).value);
    var i2 := PhotoInfoOf(p2, Largest(p2.sizes).value);
    assert [i1] + [i2] == [i1, i2];
  }

  lemma {:induction false} InfoPhotosSingle(p: PhotoItem)
    requires Largest(p.sizes).Some?
    ensures InfoPhotos([p]) == Ok([PhotoInfoOf(p, Largest(p.sizes).value)])
  {
    var items := [p];
    assert items[..|items| - 1] == [];
    assert [] + [PhotoInfoOf(p, Largest(p.sizes).value)] == [PhotoInfoOf(p, Largest(p.sizes).value)];
  }

  lemma {:induction false} TripEntries(i1: PhotoInfo, i2: PhotoInfo, i3: PhotoInfo, localTime: int -> string)
    requires i1.likes == 10 && i2.likes == 10 && i3.likes == 5
    requires i1.sizes == "x" && i2.sizes == "x" && i3.sizes == "x"
    ensures Entries([i1, i2], localTime) ==
      [FileEntry("10.jpg", "x"), FileEntry("10 " + localTime(i2.date) + ".jpg", "x")]
    ensures Entries([i3], localTime) == [FileEntry("5.jpg", "x")]
  {
    RepeatedLikes(i1, i2, localTime);
    assert NatToString(10) == "10";
    assert NatToString(5) == "5";
    assert "10" + ".jpg" == "10.jpg";
    assert "10" + " " == "10 ";
    assert "5" + ".jpg" == "5.jpg";
    NameRule([i3], localTime, 0);
    EntriesAt("", [i3], localTime, 0);
  }

  /** A whole run: two profile photos with 10 likes each and one public
      album "Trip" holding a photo with 5 likes, every variant of size `x`.
      The second profile photo gets its upload time appended. */
  lemma {:induction false} TripScenario(api: VkApi, ownerId: string, localTime: int -> string, now: string,
                     p1: PhotoItem, p2: PhotoItem, p3: PhotoItem, tripId: int)
    requires p1.likes == 10 && p2.likes == 10 && p3.likes == 5
    requires |p1.sizes| == 1 && p1.sizes[0].kind == "x"
    requires |p2.sizes| == 1 && p2.sizes[0].kind == "x"
    requires |p3.sizes| == 1 && p3.sizes[0].kind == "x"
    requires api.getPhotos(PhotosQuery(ownerId, Profile, 5)) == [p1, p2]
    requires api.getAlbums(AlbumsQuery(ownerId, "")) == AlbumsResponse(1, [AlbumItem(tripId, "Trip")])
    requires api.getPhotos(PhotosQuery(ownerId, AlbumId(tripId), 5)) == [p3]
    ensures Backup(api, ownerId, localTime, true, 0, 5, now).outcome ==
      Ok(Report(ManifestPath(now), [
        ("profile", [FileEntry("10.jpg", "x"), FileEntry("10 " + localTime(p2.date) + ".jpg", "x")]),
        ("Trip", [FileEntry("5.jpg", "x")])]))
  {
    SingleXVariant(p1.sizes);
    SingleXVariant(p2.sizes);
    SingleXVariant(p3.sizes);
    InfoPhotosPair(p1, p2);
    InfoPhotosSingle(p3);
    var profile := [FileEntry("10.jpg", "x"), FileEntry("10 " + localTime(p2.date) + ".jpg", "x")];
    var trip := [FileEntry("5.jpg", "x")];
    TripEntries(PhotoInfoOf(p1, p1.sizes[0]), PhotoInfoOf(p2, p2.sizes[0]), PhotoInfoOf(p3, p3.sizes[0]), localTime);
    var albums := ProjectAlbums(api.getAlbums(AlbumsQuery(ownerId, EncodeCount(0))));
    assert albums == [AlbumSummary(tripId, "Trip")];
    var steps := AlbumSteps(api, ownerId, localTime, RootFolder(now), 5, albums);
    assert steps[0].1.entries == Ok(trip) by {
      assert AlbumQuery(ownerId, albums[0], 5) == PhotosQuery(ownerId, AlbumId(tripId), 5);
    }
    assert steps[..0] == [];
    AlbumsLoopNext(steps, 0);
    assert steps[..1] == steps;
    assert AlbumsLoop(steps).collections == [("Trip", trip)];
    TripManifest(profile, trip);
    BackupOutcome(api, ownerId, localTime, 0, 5, now, [PhotoInfoOf(p1, p1.sizes[0]), PhotoInfoOf(p2, p2.sizes[0])]);
  }

  lemma {:induction false} TripManifest(profile: seq<FileEntry>, trip: seq<FileEntry>)
    ensures ManifestOf(profile, [("Trip", trip)]) == [("profile", profile), ("Trip", trip)]
  {
    var albums := [("Trip", trip)];
    assert albums[..|albums| - 1] == [];
    assert "profile" != "Trip" by {
      assert "profile"[0] != "Trip"[0];
    }
    var d := OrderedDict.Set([], "profile", profile);
    assert d == [("profile", profile)];
    assert d[1..] == [];
    assert OrderedDict.Set(d, "Trip", trip) == [d[0]] + [("Trip", trip)];
  }

  /** The outcome of a run that copies albums, once its profile photos are
      known. */
  lemma {:induction false} BackupOutcome(api: VkApi, ownerId: string, localTime: int -> string, numberAlbums: int,
                      numberPhotos: int, now: string, photos: seq<PhotoInfo>)
    requires InfoPhotos(api.getPhotos(PhotosQuery(ownerId, Profile, numberPhotos))) == Ok(photos)
    ensures var albums := ProjectAlbums(api.getAlbums(AlbumsQuery(ownerId, EncodeCount(numberAlbums))));
      var p := AlbumsLoop(AlbumSteps(api, ownerId, localTime, RootFolder(now), numberPhotos, albums));
      Backup(api, ownerId, localTime, true, numberAlbums, numberPhotos, now).outcome ==
        if p.fault.Some? then Err(p.fault.value)
        else Ok(Report(ManifestPath(now), ManifestOf(Entries(photos, localTime), p.collections)))
  {
  }

  /** Regrouping a concatenation of three request logs. */
  lemma {:induction false} AppendAssoc<T>(a: seq<T>, b: seq<T>, c: seq<T>)
    ensures a + b + c == a + (b + c)
  {
  }

  // ---------------------------------------------------------------------

  class VkPhotoCopier {
    const vkId: string
    const vkToken: string
    const versionApi: real
    const vkUrl: string
    /** The `Uploader` part of the copier. */
    const disk: Uploader
    /** What the VK API answers. */
    const api: VkApi
    /** `datetime.fromtimestamp(t).strftime('%Y-%m-%d %H-%M-%S')`. */
    const localTime: int -> string

    constructor (vkId: string, vkToken: string, yaToken: string, versionApi: real := 5.131,
                 api: VkApi, localTime: int -> string)
      ensures this.vkId == vkId && this.vkToken == vkToken && this.versionApi == versionApi
      ensures vkUrl == "https://api.vk.com/method/"
      ensures this.api == api && this.localTime == localTime
      ensures fresh(disk) && disk.yaToken == yaToken && disk.requests == []
    {
      this.vkId := vkId;
      this.vkToken := vkToken;
      this.versionApi := versionApi;
      vkUrl := "https://api.vk.com/method/";
      this.api := api;
      this.localTime := localTime;
      disk := new Uploader(yaToken);
    }

    /** `vk_album_search`: the requested count is sent encoded (0 as the
        empty string), and the albums are projected to id and title, in the
        response's order, only when the response's count is positive. */
    method VkAlbumSearch(numberAlbums: int) returns (albums: seq<AlbumSummary>)
      ensures var resp := api.getAlbums(AlbumsQuery(vkId, EncodeCount(numberAlbums)));
        albums == ProjectAlbums(resp) &&
        (resp.count <= 0 ==> albums == []) &&
        (resp.count > 0 ==>
          |albums| == |resp.items| &&
          forall i :: 0 <= i < |albums| ==> albums[i] == AlbumSummary(resp.items[i].id, resp.items[i].title))
    {
      var count: string;
      if numberAlbums == 0 {
        count := "";
      } else {
        count := IntToString(numberAlbums);
      }
      var resp := api.getAlbums(AlbumsQuery(vkId, count));
      albums := [];
      if resp.count > 0 {
        var data := resp.items;
        for i := 0 to |data|
          invariant |albums| == i
          invariant forall j :: 0 <= j < i ==> albums[j] == AlbumSummary(data[j].id, data[j].title)
        {
          albums := albums + [AlbumSummary(data[i].id, data[i].title)];
        }
      }
    }

    /** `vk_get_info_photo`: one record per item of the response, built from
        the item's largest variant, or the fault `max_size[0]` raises. */
    method VkGetInfoPhoto(numberPhotos: int, albumId: AlbumKey := Profile) returns (r: Result<seq<PhotoInfo>>)
      ensures r == InfoPhotos(api.getPhotos(PhotosQuery(vkId, albumId, numberPhotos)))
    {
      var data := api.getPhotos(PhotosQuery(vkId, albumId, numberPhotos));
      var infoPhotos: seq<PhotoInfo> := [];
      for i := 0 to |data|
        invariant InfoPhotos(data[..i]) == Ok(infoPhotos)
      {
        var photo := data[i];
        assert data[..i + 1][..i] == data[..i];
        var maxSize := SelectLargest(photo.sizes);
        if maxSize == [] {
          InfoPhotosStops(data, i + 1);
          return Err(NoKnownSize(photo.id));
        }
        var v := maxSize[0];
        infoPhotos := infoPhotos + [PhotoInfo(photo.id, photo.albumId, photo.date, photo.likes,
                                              v.url, v.kind, v.height, v.width)];
      }
      assert data[..|data|] == data;
      return Ok(infoPhotos);
    }

    /** `vk_uploader`: names the photos, sends one upload per photo, in
        order, to `path/name` from the photo's URL, and returns the
        manifest entries. */
    method VkUploader(path: string, photos: seq<PhotoInfo>, albumName: string) returns (result: seq<FileEntry>)
      modifies disk
      ensures result == Entries(photos, localTime)
      ensures disk.requests == old(disk.requests) + Uploads(path, photos, localTime)
    {
      var namesPhoto: seq<string> := [];
      result := [];
      for i := 0 to |photos|
        invariant namesPhoto == Stems(photos[..i], localTime)
        invariant result == Entries(photos[..i], localTime)
        invariant disk.requests == old(disk.requests) + Uploads(path, photos[..i], localTime)
      {
        assert photos[..i + 1][..i] == photos[..i];
        var photo := photos[i];
        var fileName := NatToString(photo.likes);
        if fileName in namesPhoto {
          var created := localTime(photo.date);
          fileName := fileName + " " + created;
        }
        namesPhoto := namesPhoto + [fileName];
        fileName := fileName + ".jpg";
        var pathFile := path + "/" + fileName;
        disk.YaUpload(pathFile, photo.url);
        result := result + [FileEntry(fileName, photo.sizes)];
      }
      assert photos[..|photos|] == photos;
    }

    /** One pass of the album loop of `vk_backup_photo` (main.py lines
        245-248): create the album's folder under `path`, search its photos
        and upload them there. The result says what `AlbumStep` says. */
    method CopyAlbum(path: string, album: AlbumSummary, numberPhotos: int) returns (step: AlbumOutcome)
      modifies disk
      ensures step == AlbumStep(api, vkId, localTime, path, numberPhotos, album)
      ensures disk.requests == old(disk.requests) + step.requests
    {
      var pathAlbum := path + "/" + album.title;
      ghost var before := disk.requests;
      disk.YaCreateFolder(pathAlbum);
      var photos := VkGetInfoPhoto(numberPhotos, AlbumId(album.albumId));
      if photos.Err? {
        return AlbumOutcome(Err(photos.fault), [CreateFolder(pathAlbum)]);
      }
      var entries := VkUploader(pathAlbum, photos.value, album.title);
      AppendAssoc(before, [CreateFolder(pathAlbum)], Uploads(pathAlbum, photos.value, localTime));
      step := AlbumOutcome(Ok(entries), [CreateFolder(pathAlbum)] + Uploads(pathAlbum, photos.value, localTime));
    }

    /** The `for album in albums` loop of `vk_backup_photo` (main.py lines
        243-248): copies the albums in order into `manifest`, which holds
        the profile's entries, and stops at the first fault. */
    method CopyAlbums(path: string, albums: seq<AlbumSummary>, numberPhotos: int,
                      profile: seq<FileEntry>, manifest: Manifest)
      returns (fault: Option<Fault>, result: Manifest)
      requires manifest == ManifestOf(profile, [])
      modifies disk
      ensures var p := AlbumsLoop(AlbumSteps(api, vkId, localTime, path, numberPhotos, albums));
        fault == p.fault && (fault.None? ==> result == ManifestOf(profile, p.collections)) &&
        disk.requests == old(disk.requests) + p.requests
    {
      ghost var steps := AlbumSteps(api, vkId, localTime, path, numberPhotos, albums);
      ghost var start := disk.requests;
      result := manifest;
      var i := 0;
      while i < |albums|
        invariant 0 <= i <= |albums|
        invariant var p := AlbumsLoop(steps[..i]);
          p.fault.None? && result == ManifestOf(profile, p.collections) && disk.requests == start + p.requests
      {
        ghost var p := AlbumsLoop(steps[..i]);
        var step := CopyAlbum(path, albums[i], numberPhotos);
        assert steps[i] == (albums[i].title, step);
        AlbumsLoopNext(steps, i);
        AppendAssoc(start, p.requests, step.requests);
        if step.entries.Err? {
          AlbumsLoopStops(steps, i + 1);
          return Some(step.entries.fault), result;
        }
        ManifestOfNext(profile, p.collections, albums[i].title, step.entries.value);
        result := OrderedDict.Set(result, albums[i].title, step.entries.value);
        i := i + 1;
      }
      assert steps[..i] == steps;
      fault := None;
    }

    /** `vk_backup_photo`: the run `Backup` describes. The manifest file
        write itself is not modelled; its path and contents are returned. */
    method VkBackupPhoto(now: string, otherAlbums: bool := false, numberAlbums: int := 0, numberPhotos: int := 5)
      returns (r: Result<Report>)
      modifies disk
      ensures var run := Backup(api, vkId, localTime, otherAlbums, numberAlbums, numberPhotos, now);
        r == run.outcome && disk.requests == old(disk.requests) + run.requests
    {
      var copyAlbums := otherAlbums;
      if numberAlbums != 0 {
        copyAlbums := true;
      }
      var result: Manifest := [];
      var path := RootFolder(now);
      ghost var before := disk.requests;
      disk.YaCreateFolder(path);
      var photos := VkGetInfoPhoto(numberPhotos, Profile);
      if photos.Err? {
        return Err(photos.fault);
      }
      var profile := VkUploader(path, photos.value, "profile");
      result := OrderedDict.Set(result, "profile", profile);
      ghost var profileRequests := [CreateFolder(path)] + Uploads(path, photos.value, localTime);
      AppendAssoc(before, [CreateFolder(path)], Uploads(path, photos.value, localTime));
      if copyAlbums {
        var albums := VkAlbumSearch(numberAlbums);
        ghost var p := AlbumsLoop(AlbumSteps(api, vkId, localTime, path, numberPhotos, albums));
        if |albums| > 0 {
          var fault;
          fault, result := CopyAlbums(path, albums, numberPhotos, profile, result);
          AppendAssoc(before, profileRequests, p.requests);
          if fault.Some? {
            return Err(fault.value);
          }
        }
      }
      r := Ok(Report(ManifestPath(now), result));
    }
  }
}
