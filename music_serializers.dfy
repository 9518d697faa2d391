/** music/serializers.py: the field validators of the upload, settings and
    reorder serializers, and the rows their `create` methods build. */
module MusicSerializers {
  import opened Basics
  import opened Text
  import opened CommonUtils
  import opened SoftDelete
  import opened Music

  // ------------------------------------------------------------ track upload

  const TrackFileExtensions: seq<string> := [".mp3", ".wav", ".ogg", ".m4a"]

  /** TrackUploadSerializer.validate_file: type by lower-cased extension, then
      at most 50 MB. */
  function ValidateTrackFile(name: string, size: nat): (v: Verdict)
    ensures v.Accept? <==> Lower(SplitExt(name)) in TrackFileExtensions && size <= 50 * Megabyte
    ensures Lower(SplitExt(name)) !in TrackFileExtensions ==>
              v == Reject("Only MP3, WAV, OGG, and M4A files are allowed.")
    ensures Lower(SplitExt(name)) in TrackFileExtensions && size > 50 * Megabyte ==>
              v == Reject("File size cannot exceed 50MB.")
  {
    if Lower(SplitExt(name)) !in TrackFileExtensions then
      Reject("Only MP3, WAV, OGG, and M4A files are allowed.")
    else if size > 50 * 1024 * 1024 then Reject("File size cannot exceed 50MB.")
    else Accept
  }

  /** The errors the `file` field reports: the model field's validator
      (validate_audio_file) runs before the serializer's validate_file. */
  function FileErrors(name: string, size: nat): (errs: seq<string>)
    ensures |errs| <= 1
    ensures ValidateAudioFile(name, size).Reject? ==> errs == [ValidateAudioFile(name, size).message]
    ensures errs == [] <==> ValidateAudioFile(name, size).Accept? && ValidateTrackFile(name, size).Accept?
  {
    match ValidateAudioFile(name, size)
    case Reject(m) => [m]
    case Accept =>
      match ValidateTrackFile(name, size)
      case Reject(m) => [m]
      case Accept => []
  }

  /** validate_file accepts exactly what validate_audio_file accepts, so the
      file errors are those of validate_audio_file: its wrong-type message
      never reaches a client (its size message has the same text as
      validate_file_size's). */
  lemma TrackFileCheckRedundant(name: string, size: nat)
    ensures ValidateTrackFile(name, size).Accept? <==> ValidateAudioFile(name, size).Accept?
    ensures FileErrors(name, size) == (if ValidateAudioFile(name, size).Accept? then []
                                       else [ValidateAudioFile(name, size).message])
    ensures "Only MP3, WAV, OGG, and M4A files are allowed." !in FileErrors(name, size)
  {
    assert TrackFileExtensions == AudioExtensions;
    var v := ValidateAudioFile(name, size);
    if v.Reject? && Lower(SplitExt(name)) in AudioExtensions {
      assert v == Reject("File size cannot exceed " + NatToString(50) + "MB.");
      assert NatToString(50) == "50";
    }
  }

  /** TrackUploadSerializer.validate_duration: 1 to 3600 seconds. */
  function ValidateDuration(d: int): (v: Verdict)
    ensures v.Accept? <==> 0 < d <= 3600
    ensures d <= 0 ==> v == Reject("Duration must be greater than 0.")
    ensures d > 3600 ==> v == Reject("Track duration cannot exceed 1 hour.")
  {
    if d <= 0 then Reject("Duration must be greater than 0.")
    else if d > 3600 then Reject("Track duration cannot exceed 1 hour.")
    else Accept
  }

  /** The writable fields of an upload. */
  datatype TrackUpload = TrackUpload(
    title: string, artist: string, fileName: string, fileSize: nat, duration: int)

  /** The validation errors of an upload, `file` before `duration`. */
  function UploadErrors(u: TrackUpload): (errors: seq<string>)
    ensures errors == [] <==>
      ValidateAudioFile(u.fileName, u.fileSize).Accept? && 0 < u.duration <= 3600
  {
    FileErrors(u.fileName, u.fileSize)
      + (match ValidateDuration(u.duration) case Reject(m) => [m] case Accept => [])
  }

  /** TrackUploadSerializer.create (and TrackSerializer.create, TrackAdmin.save_model
      for a new track): the uploader is the requesting user; play count, sort
      order and the featured flag take their defaults. */
  function NewTrack(u: TrackUpload, uploader: UserId): (t: Track)
    requires 0 < u.duration
    ensures t.uploader == uploader && t.title == u.title && t.artist == u.artist
    ensures t.duration == u.duration
    ensures !t.isFeatured && t.playCount == 0 && t.sortOrder == 0 && t.deletion == Live
  {
    Track(u.title, u.artist, u.duration, false, uploader, 0, 0, Live)
  }

  /** PlaylistSerializer.create (and PlaylistAdmin.save_model for a new
      playlist): the creator is the requesting user. */
  function NewPlaylist(name: string, isPublic: bool, sortOrder: nat, creator: UserId): (p: Playlist)
    ensures p.creator == creator && p.name == name && p.isPublic == isPublic
    ensures p.sortOrder == sortOrder && p.deletion == Live
  {
    Playlist(name, creator, isPublic, sortOrder, Live)
  }

  // ---------------------------------------------------------------- settings

  /** MusicSettingsSerializer.validate_default_volume */
  function ValidateVolume(v: int): (r: Verdict)
    ensures r.Accept? <==> 0 <= v <= 100
    ensures r.Reject? ==> r.message == "Volume must be between 0 and 100."
  {
    if !(0 <= v <= 100) then Reject("Volume must be between 0 and 100.") else Accept
  }

  /** MusicSettingsSerializer.validate_crossfade_duration */
  function ValidateCrossfade(c: int): (r: Verdict)
    ensures r.Accept? <==> 0 <= c <= 10
    ensures r.Reject? ==> r.message == "Crossfade duration must be between 0 and 10 seconds."
  {
    if !(0 <= c <= 10) then Reject("Crossfade duration must be between 0 and 10 seconds.") else Accept
  }

  // ------------------------------------------------------------- reordering

  predicate Distinct(ids: seq<int>) {
    forall i, j :: 0 <= i < j < |ids| ==> ids[i] != ids[j]
  }

  function Elements(ids: seq<int>): set<int> {
    set x | x in ids
  }

  /** `Track.objects.filter(id__in=value).count()`: the number of distinct ids
      with a track row (soft-deleted ones included). */
  function ExistingCount(ids: seq<int>, known: set<TrackId>): nat {
    |set x | x in ids && x in known|
  }

  /** TrackReorderSerializer.validate_track_ids, after the list field's own
      `allow_empty=False` check. */
  function ValidateTrackIds(ids: seq<int>, known: set<TrackId>): (v: Verdict)
    ensures v.Accept? <==> |ids| > 0 && (forall i :: 0 <= i < |ids| ==> ids[i] in known) && Distinct(ids)
    ensures |ids| == 0 ==> v == Reject("This list may not be empty.")
    ensures |ids| > 0 && (exists i :: 0 <= i < |ids| && ids[i] !in known) ==>
              v == Reject("Some track IDs are invalid.")
  {
    var r :=
      if |ids| == 0 then Reject("This list may not be empty.")
      else if ExistingCount(ids, known) != |ids| then Reject("Some track IDs are invalid.")
      else if |ids| != |Elements(ids)| then Reject("Duplicate track IDs are not allowed.")
      else Accept;
    TrackIdChecks(ids, known);
    r
  }

  /** The existence count reaches the length exactly when every id is known and
      no id repeats; the duplicate test then always passes. */
  lemma TrackIdChecks(ids: seq<int>, known: set<TrackId>)
    ensures ExistingCount(ids, known) == |ids| <==>
      (forall i :: 0 <= i < |ids| ==> ids[i] in known) && Distinct(ids)
    ensures ExistingCount(ids, known) == |ids| ==> |Elements(ids)| == |ids|
  {
    var present := set x | x in ids && x in known;
    assert present <= Elements(ids);
    SubsetCard(present, Elements(ids));
    ElementsCard(ids);
    if ExistingCount(ids, known) == |ids| {
      SameCardSubset(present, Elements(ids));
      forall i | 0 <= i < |ids| ensures ids[i] in known {
        assert ids[i] in Elements(ids);
      }
    }
    if (forall i :: 0 <= i < |ids| ==> ids[i] in known) && Distinct(ids) {
      assert present == Elements(ids);
    }
  }

  /** A list that passes the count test never reaches the duplicate branch. */
  lemma DuplicateBranchUnreachable(ids: seq<int>, known: set<TrackId>)
    ensures ValidateTrackIds(ids, known) != Reject("Duplicate track IDs are not allowed.")
  {
    TrackIdChecks(ids, known);
  }

  lemma {:induction false} ElementsCard(ids: seq<int>)
    ensures |Elements(ids)| <= |ids|
    ensures |Elements(ids)| == |ids| <==> Distinct(ids)
    decreases |ids|
  {
    if ids != [] {
      var init := ids[..|ids| - 1];
      var x := ids[|ids| - 1];
      ElementsCard(init);
      assert ids == init + [x];
      assert Elements(ids) == Elements(init) + {x};
      if x in Elements(init) {
        var j :| 0 <= j < |init| && init[j] == x;
        assert ids[j] == ids[|ids| - 1];
      } else {
        DistinctSnoc(init, x);
      }
    }
  }

  /** Appending an id not yet in the list keeps it duplicate-free and no more. */
  lemma DistinctSnoc(init: seq<int>, x: int)
    requires x !in init
    ensures Distinct(init + [x]) <==> Distinct(init)
  {
    var ids := init + [x];
    if Distinct(init) {
      forall i, j | 0 <= i < j < |ids| ensures ids[i] != ids[j] {
        if j == |ids| - 1 { assert ids[i] == init[i]; }
        else { assert ids[i] == init[i] && ids[j] == init[j]; }
      }
    }
    if Distinct(ids) {
      forall i, j | 0 <= i < j < |init| ensures init[i] != init[j] {
        assert init[i] == ids[i] && init[j] == ids[j];
      }
    }
  }
}
