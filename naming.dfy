/** Naming the uploaded files (`vk_uploader`, main.py lines 180-194). Each
    photo is named after its like count; when that bare name was already
    issued in the batch, a space and the photo's formatted upload time are
    appended. The issued names are tracked without the `.jpg` extension, and
    nothing re-checks a suffixed name against the names issued before it.

    `localTime` stands for `datetime.fromtimestamp(date).strftime('%Y-%m-%d
    %H-%M-%S')`, which depends on the machine's time zone. The functions
    below are the specification of `VkPhotoCopier.VkUploader`; they are
    written over growing prefixes of the batch, the way the loop runs. */
module Naming {
  import opened VkTypes
  import opened Decimal
  import opened Disk

  /** The name, without extension, given to photo `p` when `issued` holds the
      names issued before it. */
  function Stem(issued: seq<string>, p: PhotoInfo, localTime: int -> string): (s: string)
    ensures NatToString(p.likes) <= s
    ensures s == NatToString(p.likes) <==> NatToString(p.likes) !in issued
  {
    var bare := NatToString(p.likes);
    if bare in issued then bare + " " + localTime(p.date) else bare
  }

  /** `names_photo` after the whole batch. */
  function Stems(photos: seq<PhotoInfo>, localTime: int -> string): (r: seq<string>)
    ensures |r| == |photos|
  {
    if photos == [] then []
    else
      var issued := Stems(photos[..|photos| - 1], localTime);
      issued + [Stem(issued, photos[|photos| - 1], localTime)]
  }

  /** The list `vk_uploader` returns. */
  function Entries(photos: seq<PhotoInfo>, localTime: int -> string): (r: seq<FileEntry>)
    ensures |r| == |photos|
  {
    if photos == [] then []
    else
      var n := |photos| - 1;
      var stem := Stem(Stems(photos[..n], localTime), photos[n], localTime);
      Entries(photos[..n], localTime) + [FileEntry(stem + ".jpg", photos[n].sizes)]
  }

  /** The upload requests `vk_uploader` sends for a batch stored under `path`. */
  function Uploads(path: string, photos: seq<PhotoInfo>, localTime: int -> string): (r: seq<DiskRequest>)
    ensures |r| == |photos|
  {
    if photos == [] then []
    else
      var n := |photos| - 1;
      var stem := Stem(Stems(photos[..n], localTime), photos[n], localTime);
      Uploads(path, photos[..n], localTime) + [Upload(path + "/" + (stem + ".jpg"), photos[n].url)]
  }

  /** The names issued for a prefix of the batch do not depend on the photos
      that come after it. */
  lemma {:induction false} StemsPrefix(photos: seq<PhotoInfo>, localTime: int -> string, i: nat)
    requires i <= |photos|
    ensures Stems(photos, localTime)[..i] == Stems(photos[..i], localTime)
    decreases |photos|
  {
    if i < |photos| {
      var n := |photos| - 1;
      assert photos[..n][..i] == photos[..i];
      StemsPrefix(photos[..n], localTime, i);
    } else {
      assert photos[..i] == photos;
    }
  }

  /** Photo `i` is named by the name issued for it, and keeps its size code;
      its upload goes to `path/name` from the photo's own URL. So the result
      and the uploads have one entry per photo, in the batch's order. */
  lemma {:induction false} EntriesAt(path: string, photos: seq<PhotoInfo>, localTime: int -> string, i: nat)
    requires i < |photos|
    ensures Entries(photos, localTime)[i] == FileEntry(Stems(photos, localTime)[i] + ".jpg", photos[i].sizes)
    ensures Uploads(path, photos, localTime)[i] == Upload(path + "/" + Entries(photos, localTime)[i].fileName, photos[i].url)
    decreases |photos|
  {
    var n := |photos| - 1;
    if i < n {
      EntriesAt(path, photos[..n], localTime, i);
      StemsPrefix(photos, localTime, n);
      assert Stems(photos, localTime)[i] == Stems(photos, localTime)[..n][i];
    }
  }

  /** The name issued for photo `i` is decided by the names issued before it. */
  lemma {:induction false} StemAt(photos: seq<PhotoInfo>, localTime: int -> string, i: nat)
    requires i < |photos|
    ensures Stems(photos, localTime)[i] == Stem(Stems(photos[..i], localTime), photos[i], localTime)
  {
    StemsPrefix(photos, localTime, i + 1);
    assert photos[..i + 1][..i] == photos[..i];
    assert Stems(photos, localTime)[i] == Stems(photos, localTime)[..i + 1][i];
  }

  /** A suffixed name holds a space, so it is never a bare decimal name. */
  lemma {:induction false} SuffixedNotBare(likes: nat, other: nat, time: string)
    ensures NatToString(likes) + " " + time != NatToString(other)
  {
    var bare := NatToString(likes);
    var suffixed := bare + " " + time;
    assert suffixed[|bare|] == ' ';
    if |suffixed| <= |NatToString(other)| {
      assert !IsDigit(suffixed[|bare|]);
    }
  }

  /** The bare name for a like count has been issued exactly when some photo
      of the batch has that like count: the first such photo takes it. */
  lemma {:induction false} BareIssued(photos: seq<PhotoInfo>, localTime: int -> string, likes: nat)
    ensures NatToString(likes) in Stems(photos, localTime) <==>
            exists j :: 0 <= j < |photos| && photos[j].likes == likes
    decreases |photos|
  {
    if photos != [] {
      var n := |photos| - 1;
      var init := photos[..n];
      var issued := Stems(init, localTime);
      var p := photos[n];
      BareIssued(init, localTime, likes);
      BareIssued(init, localTime, p.likes);
      NatToStringInjective(likes, p.likes);
      SuffixedNotBare(p.likes, likes, localTime(p.date));
      assert Stems(photos, localTime) == issued + [Stem(issued, p, localTime)];
      if exists j :: 0 <= j < |photos| && photos[j].likes == likes {
        var j :| 0 <= j < |photos| && photos[j].likes == likes;
        if j < n {
          assert init[j].likes == likes;
        }
      }
      if exists j :: 0 <= j < n && init[j].likes == likes {
        var j :| 0 <= j < n && init[j].likes == likes;
        assert photos[j].likes == likes;
      }
    }
  }

  /** Some photo before photo `i` has its like count. */
  predicate LikesSeenBefore(photos: seq<PhotoInfo>, i: nat)
    requires i < |photos|
  {
    exists j :: 0 <= j < i && photos[j].likes == photos[i].likes
  }

  /** Photo `i` is called `<likes>.jpg` when no earlier photo of the batch
      has its like count, and `<likes> <upload time>.jpg` otherwise. */
  lemma {:induction false} NameRule(photos: seq<PhotoInfo>, localTime: int -> string, i: nat)
    requires i < |photos|
    ensures Entries(photos, localTime)[i].fileName ==
      var bare := NatToString(photos[i].likes);
      if LikesSeenBefore(photos, i)
      then bare + " " + localTime(photos[i].date) + ".jpg"
      else bare + ".jpg"
  {
    EntriesAt("", photos, localTime, i);
    StemAt(photos, localTime, i);
    var init := photos[..i];
    BareIssued(init, localTime, photos[i].likes);
    assert (exists j :: 0 <= j < i && photos[j].likes == photos[i].likes) <==>
           (exists j :: 0 <= j < |init| && init[j].likes == photos[i].likes)
    by {
      if exists j :: 0 <= j < i && photos[j].likes == photos[i].likes {
        var j :| 0 <= j < i && photos[j].likes == photos[i].likes;
        assert init[j].likes == photos[i].likes;
      }
    }
  }

  /** A photo whose like count an earlier photo already has gets its upload
      time appended. */
  lemma {:induction false} NameSuffixed(photos: seq<PhotoInfo>, localTime: int -> string, earlier: nat, i: nat)
    requires earlier < i < |photos| && photos[earlier].likes == photos[i].likes
    ensures Entries(photos, localTime)[i].fileName ==
            NatToString(photos[i].likes) + " " + localTime(photos[i].date) + ".jpg"
  {
    assert LikesSeenBefore(photos, i);
    NameRule(photos, localTime, i);
  }

  predicate DistinctLikes(photos: seq<PhotoInfo>) {
    forall i, j :: 0 <= i < j < |photos| ==> photos[i].likes != photos[j].likes
  }

  lemma {:induction false} JpgInjective(a: string, b: string)
    requires a + ".jpg" == b + ".jpg"
    ensures a == b
  {
    assert |a| == |b|;
    assert a == (a + ".jpg")[..|a|];
    assert b == (b + ".jpg")[..|b|];
  }

  /** When no two photos of the batch share a like count, every file is
      called `<likes>.jpg` and all the names differ. */
  lemma {:induction false} DistinctLikesNames(photos: seq<PhotoInfo>, localTime: int -> string)
    requires DistinctLikes(photos)
    ensures forall i :: 0 <= i < |photos| ==>
      Entries(photos, localTime)[i].fileName == NatToString(photos[i].likes) + ".jpg"
    ensures forall i, j :: 0 <= i < j < |photos| ==>
      Entries(photos, localTime)[i].fileName != Entries(photos, localTime)[j].fileName
  {
    forall i | 0 <= i < |photos|
      ensures Entries(photos, localTime)[i].fileName == NatToString(photos[i].likes) + ".jpg"
    {
      NameRule(photos, localTime, i);
    }
    forall i, j | 0 <= i < j < |photos|
      ensures Entries(photos, localTime)[i].fileName != Entries(photos, localTime)[j].fileName
    {
      if Entries(photos, localTime)[i].fileName == Entries(photos, localTime)[j].fileName {
        JpgInjective(NatToString(photos[i].likes), NatToString(photos[j].likes));
        NatToStringInjective(photos[i].likes, photos[j].likes);
      }
    }
  }

  /** Two photos with the same like count: the first keeps the bare name,
      the second gets its upload time appended. */
  lemma {:induction false} RepeatedLikes(first: PhotoInfo, second: PhotoInfo, localTime: int -> string)
    requires first.likes == second.likes
    ensures Entries([first, second], localTime) == [
      FileEntry(NatToString(first.likes) + ".jpg", first.sizes),
      FileEntry(NatToString(second.likes) + " " + localTime(second.date) + ".jpg", second.sizes)]
  {
    var photos := [first, second];
    NameRule(photos, localTime, 0);
    NameRule(photos, localTime, 1);
    EntriesAt("", photos, localTime, 0);
    EntriesAt("", photos, localTime, 1);
  }

  /** Names are not unique in general: two photos that share a like count
      with an earlier one and were uploaded in the same second get the same
      name, because a suffixed name is never checked again. */
  lemma {:induction false} NamesCanRepeat(photos: seq<PhotoInfo>, localTime: int -> string, first: nat, i: nat, k: nat)
    requires first < i < k < |photos|
    requires photos[first].likes == photos[i].likes && photos[k].likes == photos[i].likes
    requires photos[i].date == photos[k].date
    ensures Entries(photos, localTime)[i].fileName == Entries(photos, localTime)[k].fileName
  {
    NameSuffixed(photos, localTime, first, i);
    NameSuffixed(photos, localTime, first, k);
  }
}
