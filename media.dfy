/** The media background's settings: which uploads are kept, removal by position, and the size warning. */
module Media {
  import opened Text
  import opened Seqs

  /** An uploaded file as far as the settings look at it: its MIME type and size in bytes. */
  datatype MediaFile = MediaFile(name: string, mimeType: string, size: nat)

  /** Above this many bytes (2 MiB) the performance warning is shown. */
  const LargeMediaBytes: nat := 2097152

  /** `/^video\/(mp4|webm|ogg)$/`. */
  predicate IsVideoType(t: string) {
    t == "video/mp4" || t == "video/webm" || t == "video/ogg"
  }

  /** `/^image\//`. */
  predicate IsImageType(t: string) {
    StartsWith(t, "image/")
  }

  predicate IsAccepted(f: MediaFile) {
    IsVideoType(f.mimeType) || IsImageType(f.mimeType)
  }

  /** `addMedia`: the new cache handed to `setCache`. */
  function AddMedia(cache: seq<MediaFile>, files: seq<MediaFile>): (r: seq<MediaFile>)
    ensures |cache| <= |r| && r[..|cache|] == cache
    ensures forall i :: |cache| <= i < |r| ==> IsAccepted(r[i])
    ensures IsSubsequence(r[|cache|..], files)
    ensures forall f :: IsAccepted(f) ==> multiset(r[|cache|..])[f] == multiset(files)[f]
  {
    var added := Filter(files, IsAccepted);
    assert (cache + added)[|cache|..] == added;
    cache + added
  }

  /** What `addMedia` hands to `setCache`, as one concatenation. */
  lemma AddMediaAppends(cache: seq<MediaFile>, files: seq<MediaFile>)
    ensures AddMedia(cache, files) == cache + Filter(files, IsAccepted)
  {
  }

  /** Adding files in two batches keeps the same files as adding them at once. */
  lemma AddMediaBatches(cache: seq<MediaFile>, first: seq<MediaFile>, second: seq<MediaFile>)
    ensures AddMedia(AddMedia(cache, first), second) == AddMedia(cache, first + second)
  {
    var f, g := Filter(first, IsAccepted), Filter(second, IsAccepted);
    AddMediaTwice(cache, first, second);
    ConcatAssoc(cache, f, g);
    AddMediaAppends(cache, first + second);
    FilterAppend(first, second, IsAccepted);
  }

  lemma AddMediaTwice(cache: seq<MediaFile>, first: seq<MediaFile>, second: seq<MediaFile>)
    ensures AddMedia(AddMedia(cache, first), second)
         == (cache + Filter(first, IsAccepted)) + Filter(second, IsAccepted)
  {
    AddMediaAppends(cache, first);
    AddMediaAppends(AddMedia(cache, first), second);
  }

  /** `removeMedia`: the new cache handed to `setCache`. */
  function RemoveMedia(cache: seq<MediaFile>, index: int): (r: seq<MediaFile>)
    ensures 0 <= index < |cache| ==>
      |r| == |cache| - 1
      && (forall i :: 0 <= i < index ==> r[i] == cache[i])
      && (forall i :: index <= i < |r| ==> r[i] == cache[i + 1])
    ensures !(0 <= index < |cache|) ==> r == cache
  {
    RemoveIndex(cache, index)
  }

  /** `largeMedia`: whether some stored file is over the limit. */
  function LargeMedia(cache: seq<MediaFile>): (large: bool)
    ensures large <==> exists i :: 0 <= i < |cache| && cache[i].size > LargeMediaBytes
  {
    if cache == [] then false
    else cache[0].size > LargeMediaBytes || LargeMedia(cache[1..])
  }

  /** Removing files can only clear the warning, never raise it. */
  lemma RemoveNeverRaisesWarning(cache: seq<MediaFile>, index: int)
    ensures LargeMedia(RemoveMedia(cache, index)) ==> LargeMedia(cache)
  {
    var r := RemoveMedia(cache, index);
    if LargeMedia(r) && 0 <= index < |cache| {
      var i :| 0 <= i < |r| && r[i].size > LargeMediaBytes;
      if i < index {
        assert r[i] == cache[i];
      } else {
        assert r[i] == cache[i + 1];
      }
    }
  }

  /** The "{count} media uploaded." line counts every stored file. */
  function UploadCount(cache: seq<MediaFile>): (count: nat)
    ensures count == |cache|
    ensures count == 0 <==> cache == []
  {
    |cache|
  }

  /** Adding raises the count by the number of accepted files; removing in range lowers it by one. */
  lemma {:induction false} CountAfterChange(cache: seq<MediaFile>, files: seq<MediaFile>, index: int)
    ensures UploadCount(AddMedia(cache, files)) == UploadCount(cache) + |Filter(files, IsAccepted)|
    ensures UploadCount(AddMedia(cache, files)) <= UploadCount(cache) + |files|
    ensures 0 <= index < |cache| ==> UploadCount(RemoveMedia(cache, index)) == UploadCount(cache) - 1
    ensures !(0 <= index < |cache|) ==> UploadCount(RemoveMedia(cache, index)) == UploadCount(cache)
  {
    AddMediaAppends(cache, files);
  }

  /** A preview is a video player for the video types and an image otherwise. */
  function ShowsAsVideo(m: MediaFile): (video: bool)
    ensures video ==> IsAccepted(m) && !IsImageType(m.mimeType)
    ensures IsAccepted(m) && !video ==> IsImageType(m.mimeType)
  {
    VideoIsNotImage(m.mimeType);
    IsVideoType(m.mimeType)
  }

  /** No video type starts with "image/". */
  lemma VideoIsNotImage(t: string)
    ensures IsVideoType(t) ==> !IsImageType(t)
  {
    if IsVideoType(t) {
      assert t[0] == 'v' != "image/"[0];
    }
  }
}
